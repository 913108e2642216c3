/** The parser object: its fields are the ones the library keeps, its methods
    update them in place, and each method is proved to do what the pure model
    in Registry, Dispatch and HelpText says. */
module ArguDuckParser {
  import opened Options
  import opened Descriptors
  import opened ErrorCodes
  import opened HelpText
  import opened Registry
  import opened Dispatch

  /** How a call to Parse ends. `HelpRequested` stands for printing the help
      screen and exiting with status 0; `Failure` stands for a panic. */
  datatype ParseOutcome = Done | HelpRequested(lines: seq<string>) | Failure(reason: PanicReason)

  /** A help token anywhere in the arguments. */
  predicate HasHelpToken(tokens: seq<string>)
  {
    "--help" in tokens || "-h" in tokens
  }

  class ArguDuck {
    var aboutMessage: string
    var args: map<string, Value>
    var arguments: seq<Descriptor>
    var helpText: map<string, seq<string>>
    var helpFlagFound: bool
    var parsed: bool
    var programArgs: seq<string>
    var shortToFullName: map<string, string>

    /** The registry part of the object, as a value. */
    ghost function View(): State
      reads this
    {
      State(args, arguments, shortToFullName, helpText)
    }

    ghost predicate Valid()
      reads this
    {
      WellFormed(View())
    }

    /** `InitArguDuck`: an empty registry, nothing parsed. */
    constructor ()
      ensures Valid()
      ensures View() == Empty
      ensures aboutMessage == "" && !helpFlagFound && !parsed && programArgs == []
    {
      aboutMessage := "";
      args := map[];
      arguments := [];
      helpText := map[];
      helpFlagFound := false;
      parsed := false;
      programArgs := [];
      shortToFullName := map[];
      EmptyIsWellFormed();
    }

    function GetAbout(): string
      reads this
    {
      aboutMessage
    }

    method SetAbout(message: string)
      modifies this`aboutMessage
      ensures GetAbout() == message
    {
      aboutMessage := message;
    }

    /** `addHelpText`: append the argument's help line to its group (Usage when the group is empty). */
    method AddHelpText(groupName: string, argument: Descriptor)
      modifies this`helpText
      ensures var g := if groupName == "" then UsageGroup else groupName;
        helpText == old(helpText)[g := LinesOf(old(helpText), g) + [SetHelpText(argument)]]
    {
      var g := groupName;
      if g == "" {
        g := UsageGroup;
      }
      var line := SetHelpText(argument);
      helpText := helpText[g := LinesOf(helpText, g) + [line]];
    }

    /** `addArgument`: the checks come before any change; see `Registry.Declare`. */
    method AddArgument(name: string, short: string, help: string, defaultValue: Default, group: string) returns (code: ErrorCode)
      requires Valid()
      modifies this
      ensures Valid()
      ensures (code, View()) == Declare(old(View()), name, short, help, defaultValue, group)
      ensures code != OK ==> unchanged(this)
      ensures aboutMessage == old(aboutMessage) && helpFlagFound == old(helpFlagFound)
      ensures parsed == old(parsed) && programArgs == old(programArgs)
    {
      DeclarePreservesWellFormed(View(), name, short, help, defaultValue, group);
      code := Register(name, short, help, defaultValue, group);
    }

    /** The body of `addArgument`, field by field. */
    method Register(name: string, short: string, help: string, defaultValue: Default, group: string) returns (code: ErrorCode)
      modifies this`args, this`arguments, this`shortToFullName, this`helpText
      ensures (code, View()) == Declare(old(View()), name, short, help, defaultValue, group)
      ensures code != OK ==> unchanged(this)
    {
      if name in args {
        return ArgInUse;
      }
      if short in shortToFullName {
        return ShortInUse;
      }
      if defaultValue.OtherType? {
        return UnknownType;
      }
      var arg := NewDescriptor(name, short, help, group, defaultValue.value);
      args := args[name := defaultValue.value];
      arguments := arguments + [arg];
      shortToFullName := shortToFullName[arg.GetShort() := arg.GetName()];
      if group != "" {
        AddHelpText(group, arg);
      }
      return OK;
    }

    /** `Flag`: a boolean argument whose stored default is false. */
    method Flag(name: string, short: string, help: string, group: seq<string>) returns (code: ErrorCode)
      requires Valid()
      modifies this
      ensures Valid()
      ensures (code, View()) == Declare(old(View()), name, short, help, Known(VBool(false)), DetermineGroup(group))
      ensures code != UnknownType
      ensures code != OK ==> unchanged(this)
      ensures aboutMessage == old(aboutMessage) && helpFlagFound == old(helpFlagFound)
      ensures parsed == old(parsed) && programArgs == old(programArgs)
    {
      code := AddArgument(name, short, help, Known(VBool(false)), DetermineGroup(group));
    }

    /** `Float`: a float64 argument (its default value is not modelled). */
    method Float(name: string, short: string, help: string, group: seq<string>) returns (code: ErrorCode)
      requires Valid()
      modifies this
      ensures Valid()
      ensures (code, View()) == Declare(old(View()), name, short, help, Known(VFloat), DetermineGroup(group))
      ensures code != UnknownType
      ensures code != OK ==> unchanged(this)
      ensures aboutMessage == old(aboutMessage) && helpFlagFound == old(helpFlagFound)
      ensures parsed == old(parsed) && programArgs == old(programArgs)
    {
      code := AddArgument(name, short, help, Known(VFloat), DetermineGroup(group));
    }

    /** `Int`: an int argument with its default. */
    method Int(name: string, short: string, defaultValue: int, help: string, group: seq<string>) returns (code: ErrorCode)
      requires Valid()
      modifies this
      ensures Valid()
      ensures (code, View()) == Declare(old(View()), name, short, help, Known(VInt(defaultValue)), DetermineGroup(group))
      ensures code != UnknownType
      ensures code != OK ==> unchanged(this)
      ensures aboutMessage == old(aboutMessage) && helpFlagFound == old(helpFlagFound)
      ensures parsed == old(parsed) && programArgs == old(programArgs)
    {
      code := AddArgument(name, short, help, Known(VInt(defaultValue)), DetermineGroup(group));
    }

    /** `String`: a string argument with its default. */
    method String(name: string, short: string, defaultValue: string, help: string, group: seq<string>) returns (code: ErrorCode)
      requires Valid()
      modifies this
      ensures Valid()
      ensures (code, View()) == Declare(old(View()), name, short, help, Known(VStr(defaultValue)), DetermineGroup(group))
      ensures code != UnknownType
      ensures code != OK ==> unchanged(this)
      ensures aboutMessage == old(aboutMessage) && helpFlagFound == old(helpFlagFound)
      ensures parsed == old(parsed) && programArgs == old(programArgs)
    {
      code := AddArgument(name, short, help, Known(VStr(defaultValue)), DetermineGroup(group));
    }

    /** `setArgValue`: overwrite one stored value from the token at `argIndex`. */
    method SetArgValue(argName: string, argIndex: nat) returns (status: AssignStatus)
      modifies this`args
      ensures Assignment(args, status) == AssignValue(old(args), argName, programArgs, argIndex)
    {
      if argName !in args {
        return Panic(UnsupportedType(argName));
      }
      match args[argName] {
        case VStr(_) =>
        if argIndex >= |programArgs| {
          return Panic(IndexOutOfRange(argIndex));
        }
        args := args[argName := VStr(programArgs[argIndex])];
      case VInt(_) =>
        if argIndex >= |programArgs| {
          return Panic(IndexOutOfRange(argIndex));
        }
        var intValue := Atoi(programArgs[argIndex]);
        if intValue.None? {
          return InvalidInteger;
        }
        args := args[argName := VInt(intValue.value)];
      case VBool(_) =>
        args := args[argName := VBool(true)];
      case VFloat =>
        return Panic(UnsupportedType(argName));
      }
      return Assigned;
    }

    /** One iteration of the dispatch loop: the token at `index`. */
    method DispatchToken(index: nat) returns (failure: Option<PanicReason>)
      requires index < |programArgs|
      modifies this`args
      ensures var after := ApplyNames(old(args), Targets(shortToFullName, programArgs[index]), programArgs, index + 1);
        args == after.store && (failure.Some? <==> after.Panicked?) && (after.Panicked? ==> failure == Some(after.reason))
    {
      var item := programArgs[index];
      ghost var names := Targets(shortToFullName, item);
      TargetsRules(shortToFullName, item);
      if !HasPrefix(item, "-") {
        return None;
      }
      if HasPrefix(item, "--") {
        var argName := item[2..];
        assert names == [argName];
        var status := SetArgValue(argName, index + 1);
        assert names[..0] == [];
        if status.Panic? {
          return Some(status.reason);
        }
        return None;
      }
      if HasPrefix(item, "-") && |item| == 2 {
        var shortName := item[1..];
        var (argName, _) := GetFullNameFromShort(shortToFullName, shortName);
        assert shortName == [item[1]] && names == [argName];
        var status := SetArgValue(argName, index + 1);
        assert names[..0] == [];
        if status.Panic? {
          return Some(status.reason);
        }
        return None;
      }
      if HasPrefix(item, "-") && |item| > 2 {
        failure := DispatchCluster(index);
        return;
      }
      return None;
    }

    /** The cluster branch of the dispatch loop: a token `-abc` of two or more
        shorts assigns the owner of each character in turn, all from the next
        token, and stops at the first panic. */
    method DispatchCluster(index: nat) returns (failure: Option<PanicReason>)
      requires index < |programArgs|
      requires var item := programArgs[index]; |item| > 2 && item[0] == '-' && item[1] != '-'
      modifies this`args
      ensures var after := ApplyNames(old(args), Targets(shortToFullName, programArgs[index]), programArgs, index + 1);
        args == after.store && (failure.Some? <==> after.Panicked?) && (after.Panicked? ==> failure == Some(after.reason))
    {
      var item := programArgs[index];
      ghost var names := Targets(shortToFullName, item);
      ClusterTargets(shortToFullName, item);
      var shortNames := item[1..];
      var k := 0;
      while k < |shortNames|
        invariant 0 <= k <= |shortNames| == |names|
        invariant ApplyNames(old(args), names[..k], programArgs, index + 1) == Running(args)
      {
        var (argName, _) := GetFullNameFromShort(shortToFullName, [shortNames[k]]);
        assert argName == names[k];
        ApplyNamesSnoc(old(args), names, programArgs, index + 1, k);
        var status := SetArgValue(argName, index + 1);
        if status.Panic? {
          ApplyNamesPanicIsFinal(old(args), names, programArgs, index + 1, k + 1);
          return Some(status.reason);
        }
        k := k + 1;
      }
      assert names[..k] == names;
      return None;
    }

    /** `printHelpText`: the help screen, with the groups other than Usage in
        whichever order the map yields them. */
    method PrintHelpText() returns (lines: seq<string>)
      ensures exists order :: IsKeyOrder(order, helpText.Keys) && lines == RenderHelp(aboutMessage, helpText, order)
    {
      var groups: seq<string> := [];
      ghost var order: seq<string> := [];
      var remaining := helpText.Keys;
      while remaining != {}
        invariant remaining <= helpText.Keys
        invariant forall g :: g in order <==> g in helpText.Keys && g !in remaining
        invariant forall i, j :: 0 <= i < j < |order| ==> order[i] != order[j]
        invariant groups == RenderGroups(helpText, order)
        decreases remaining
      {
        var group :| group in remaining;
        RenderGroupsAppend(helpText, order, group);
        if group != UsageGroup {
          groups := groups + ([group] + helpText[group] + [""]);
        }
        order := order + [group];
        remaining := remaining - {group};
      }
      lines := Preamble(GetAbout()) + ([UsageGroup] + LinesOf(helpText, UsageGroup) + [""]) + groups;
      assert IsKeyOrder(order, helpText.Keys);
    }

    /** `Parse`: a no-op once parsed. Otherwise records the tokens, meets the
        help-flag step (which only ever calls `Flag` when "h" is already taken, so
        it never changes the registry), then either produces the help screen when
        a help token is present, or assigns values token by token. */
    method Parse(tokens: seq<string>) returns (outcome: ParseOutcome)
      requires Valid()
      modifies this
      ensures Valid()
      ensures old(parsed) ==> outcome == Done && unchanged(this)
      ensures !old(parsed) ==>
        && programArgs == tokens
        && arguments == old(arguments) && shortToFullName == old(shortToFullName)
        && helpText == old(helpText) && aboutMessage == old(aboutMessage)
      ensures !old(parsed) && (old(helpFlagFound) || HasHelpToken(tokens)) ==>
        && helpFlagFound && !parsed && args == old(args)
        && outcome.HelpRequested?
        && exists order :: IsKeyOrder(order, helpText.Keys) && outcome.lines == RenderHelp(aboutMessage, helpText, order)
      ensures !old(parsed) && !(old(helpFlagFound) || HasHelpToken(tokens)) ==>
        && !helpFlagFound
        && var scan := Scan(old(args), old(shortToFullName), tokens);
           args == scan.store
           && (scan.Running? ==> outcome == Done && parsed)
           && (scan.Panicked? ==> outcome == Failure(scan.reason) && !parsed)
    {
      if parsed {
        return Done;
      }
      programArgs := tokens;

      DeclareHelpFlag();

      FindHelpFlag();

      if helpFlagFound {
        var lines := PrintHelpText();
        return HelpRequested(lines);
      }

      outcome := DispatchAll();
    }

    /** The help-flag step of `Parse`: `help`/`h` is declared only when "h" is
        already an alias, so the declaration is always refused and nothing changes. */
    method DeclareHelpFlag()
      requires Valid()
      modifies this
      ensures Valid() && unchanged(this)
    {
      var (_, ok) := GetFullNameFromShort(shortToFullName, "h");
      if ok {
        var _ := Flag("help", "h", "Displays this help text", []);
      }
    }

    /** The help pre-scan of `Parse`: stops at the first help token. */
    method FindHelpFlag()
      modifies this`helpFlagFound
      ensures helpFlagFound == (old(helpFlagFound) || HasHelpToken(programArgs))
    {
      var i := 0;
      while i < |programArgs|
        invariant 0 <= i <= |programArgs|
        invariant helpFlagFound == (old(helpFlagFound) || "--help" in programArgs[..i] || "-h" in programArgs[..i])
      {
        if programArgs[i] == "--help" || programArgs[i] == "-h" {
          helpFlagFound := true;
          break;
        }
        assert programArgs[..i + 1] == programArgs[..i] + [programArgs[i]];
        i := i + 1;
      }
      assert programArgs[..|programArgs|] == programArgs;
    }

    /** The dispatch loop of `Parse`: every token in turn, stopping at a panic. */
    method DispatchAll() returns (outcome: ParseOutcome)
      requires Valid() && !parsed
      modifies this`args, this`parsed
      ensures Valid()
      ensures var scan := Scan(old(args), shortToFullName, programArgs);
        && args == scan.store
        && (scan.Running? ==> outcome == Done && parsed)
        && (scan.Panicked? ==> outcome == Failure(scan.reason) && !parsed)
    {
      ghost var start := View();
      var failure := ScanTokens();
      ScanKeepsShape(start.args, shortToFullName, programArgs, |programArgs|);
      assert View() == start.(args := args);
      RetypedStoreKeepsWellFormed(start, args);
      if failure.Some? {
        return Failure(failure.value);
      }
      parsed := true;
      return Done;
    }

    /** The dispatch loop of `Parse`: every token in turn, stopping at the first panic. */
    method ScanTokens() returns (failure: Option<PanicReason>)
      modifies this`args
      ensures var scan := Scan(old(args), shortToFullName, programArgs);
        && args == scan.store
        && (failure.Some? <==> scan.Panicked?)
        && (scan.Panicked? ==> failure == Some(scan.reason))
    {
      var index := 0;
      while index < |programArgs|
        invariant 0 <= index <= |programArgs|
        invariant ScanUpTo(old(args), shortToFullName, programArgs, index) == Running(args)
      {
        failure := DispatchToken(index);
        if failure.Some? {
          ScanPanicIsFinal(old(args), shortToFullName, programArgs, index + 1, |programArgs|);
          return;
        }
        index := index + 1;
      }
      return None;
    }
  }
}
