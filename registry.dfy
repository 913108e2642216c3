/** The registry of declared arguments, as a value: the name-to-value store, the
    ordered descriptor list, the alias table and the per-group help lines, with
    the declaration step that the imperative parser performs on its fields. */
module Registry {
  import opened Descriptors
  import opened ErrorCodes
  import opened HelpText

  /** The default handed to a declaration. A Go `interface{}` may hold a value of
      any type; only the four supported ones are `Known`. */
  datatype Default = Known(value: Value) | OtherType

  datatype State = State(
    args: map<string, Value>,
    arguments: seq<Descriptor>,
    aliases: map<string, string>,
    helpText: map<string, seq<string>>)

  const Empty: State := State(map[], [], map[], map[])

  /** The group of a declaration: the first group supplied, else Usage. */
  function DetermineGroup(group: seq<string>): (g: string)
    ensures group != [] ==> g == group[0]
    ensures group == [] ==> g == UsageGroup
  {
    if |group| > 0 then group[0] else UsageGroup
  }

  /** The help lines of the descriptors in group `g`, in declaration order. */
  function HelpLinesOf(arguments: seq<Descriptor>, g: string): (lines: seq<string>)
    ensures |lines| <= |arguments|
    ensures forall i :: 0 <= i < |arguments| && arguments[i].group == g ==> SetHelpText(arguments[i]) in lines
  {
    if arguments == [] then []
    else
      var front := arguments[..|arguments| - 1];
      var last := arguments[|arguments| - 1];
      var lines := HelpLinesOf(front, g) + (if last.group == g then [SetHelpText(last)] else []);
      assert forall i :: 0 <= i < |front| ==> front[i] == arguments[i];
      lines
  }

  /** Two descriptors never share a name. */
  ghost predicate UniqueNames(arguments: seq<Descriptor>)
  {
    forall i, j :: 0 <= i < j < |arguments| ==> arguments[i].name != arguments[j].name
  }

  /** Two descriptors never share a short, the empty short included. */
  ghost predicate UniqueShorts(arguments: seq<Descriptor>)
  {
    forall i, j :: 0 <= i < j < |arguments| ==> arguments[i].short != arguments[j].short
  }

  /** `x` is the name of some descriptor. */
  ghost predicate Declared(arguments: seq<Descriptor>, x: string)
  {
    exists i :: 0 <= i < |arguments| && arguments[i].name == x
  }

  /** `s` is the short of some descriptor. */
  ghost predicate ShortTaken(arguments: seq<Descriptor>, s: string)
  {
    exists i :: 0 <= i < |arguments| && arguments[i].short == s
  }

  /** The store holds exactly the declared names, each with a value of its descriptor's type. */
  ghost predicate StoreMatches(args: map<string, Value>, arguments: seq<Descriptor>)
  {
    && (forall x :: x in args <==> Declared(arguments, x))
    && (forall i :: 0 <= i < |arguments| ==> arguments[i].name in args && HasKind(args[arguments[i].name], arguments[i].kind))
  }

  /** The alias table maps exactly the declared shorts, each to its owner's name. */
  ghost predicate AliasesMatch(aliases: map<string, string>, arguments: seq<Descriptor>)
  {
    && (forall s :: s in aliases <==> ShortTaken(arguments, s))
    && (forall i :: 0 <= i < |arguments| ==> arguments[i].short in aliases && aliases[arguments[i].short] == arguments[i].name)
  }

  /** Each non-empty group holds its members' help lines in declaration order. */
  ghost predicate HelpMatches(helpText: map<string, seq<string>>, arguments: seq<Descriptor>)
  {
    && (forall i :: 0 <= i < |arguments| && arguments[i].group != "" ==> arguments[i].group in helpText)
    && (forall g :: g in helpText ==> g != "" && helpText[g] == HelpLinesOf(arguments, g))
  }

  /** The registry invariants. */
  ghost predicate WellFormed(r: State)
  {
    && UniqueNames(r.arguments)
    && UniqueShorts(r.arguments)
    && StoreMatches(r.args, r.arguments)
    && AliasesMatch(r.aliases, r.arguments)
    && HelpMatches(r.helpText, r.arguments)
  }

  /** One declaration (`addArgument`): a taken name is refused first, then a taken
      short (the empty short included), then a default of an unsupported type; only
      then is anything changed. */
  function Declare(r: State, name: string, short: string, help: string, dv: Default, group: string): (res: (ErrorCode, State))
    ensures res.0 == ArgInUse <==> name in r.args
    ensures res.0 == ShortInUse <==> name !in r.args && short in r.aliases
    ensures res.0 == UnknownType <==> name !in r.args && short !in r.aliases && dv.OtherType?
    ensures res.0 != OK ==> res.1 == r
  {
    if name in r.args then (ArgInUse, r)
    else if short in r.aliases then (ShortInUse, r)
    else match dv
      case OtherType => (UnknownType, r)
      case Known(v) =>
        var d := NewDescriptor(name, short, help, group, v);
        var helpText := if group != "" then r.helpText[group := LinesOf(r.helpText, group) + [SetHelpText(d)]] else r.helpText;
        (OK, State(r.args[name := v], r.arguments + [d], r.aliases[d.GetShort() := d.GetName()], helpText))
  }

  /** A declaration with a fresh name, a fresh short and a supported default
      succeeds, and changes exactly this: the store gains the name bound to the
      default, the descriptor goes at the end of the list, the short becomes an
      alias of the name, and a non-empty group gains the argument's help line. */
  lemma DeclareSucceeds(r: State, name: string, short: string, help: string, v: Value, group: string)
    requires name !in r.args && short !in r.aliases
    ensures var (code, r') := Declare(r, name, short, help, Known(v), group);
      && code == OK
      && r'.args.Keys == r.args.Keys + {name}
      && r'.args[name] == v
      && (forall n :: n in r.args ==> r'.args[n] == r.args[n])
      && r'.arguments == r.arguments + [Descriptor(name, short, help, group, r'.arguments[|r.arguments|].kind)]
      && HasKind(v, r'.arguments[|r.arguments|].kind)
      && r'.aliases == r.aliases[short := name]
      && (group != "" ==> r'.helpText.Keys == r.helpText.Keys + {group}
                          && r'.helpText[group] == LinesOf(r.helpText, group) + [SetHelpText(r'.arguments[|r.arguments|])])
      && (forall g :: g in r.helpText && g != group ==> g in r'.helpText && r'.helpText[g] == r.helpText[g])
      && (group == "" ==> r'.helpText == r.helpText)
  {
  }

  /** Appending a descriptor appends its help line to its own group only. */
  lemma HelpLinesOfAppend(arguments: seq<Descriptor>, d: Descriptor, g: string)
    ensures HelpLinesOf(arguments + [d], g) == HelpLinesOf(arguments, g) + (if d.group == g then [SetHelpText(d)] else [])
  {
    assert (arguments + [d])[..|arguments|] == arguments;
  }

  /** Appending a descriptor with a fresh name and a fresh short keeps both unique. */
  lemma AppendKeepsUnique(arguments: seq<Descriptor>, d: Descriptor)
    requires UniqueNames(arguments) && UniqueShorts(arguments)
    requires !Declared(arguments, d.name) && !ShortTaken(arguments, d.short)
    ensures UniqueNames(arguments + [d]) && UniqueShorts(arguments + [d])
  {
    var a := arguments + [d];
    forall i, j | 0 <= i < j < |a|
      ensures a[i].name != a[j].name && a[i].short != a[j].short
    {
      if j == |arguments| {
        assert a[i] == arguments[i];
      }
    }
  }

  /** Binding a fresh name to a value of the new descriptor's type keeps the store matched. */
  lemma AppendKeepsStore(args: map<string, Value>, arguments: seq<Descriptor>, d: Descriptor, v: Value)
    requires StoreMatches(args, arguments) && d.name !in args && HasKind(v, d.kind)
    ensures StoreMatches(args[d.name := v], arguments + [d])
  {
    var a := arguments + [d];
    var store := args[d.name := v];
    forall x
      ensures x in store <==> Declared(a, x)
    {
      if x in args {
        var i :| 0 <= i < |arguments| && arguments[i].name == x;
        assert a[i].name == x;
      } else if x == d.name {
        assert a[|arguments|].name == x;
      }
    }
    forall i | 0 <= i < |a|
      ensures a[i].name in store && HasKind(store[a[i].name], a[i].kind)
    {
      if i < |arguments| {
        assert a[i] == arguments[i];
      }
    }
  }

  /** Registering a fresh short for the new descriptor keeps the alias table matched. */
  lemma AppendKeepsAliases(aliases: map<string, string>, arguments: seq<Descriptor>, d: Descriptor)
    requires AliasesMatch(aliases, arguments) && d.short !in aliases
    ensures AliasesMatch(aliases[d.short := d.name], arguments + [d])
  {
    var a := arguments + [d];
    var table := aliases[d.short := d.name];
    forall x
      ensures x in table <==> ShortTaken(a, x)
    {
      if x in aliases {
        var i :| 0 <= i < |arguments| && arguments[i].short == x;
        assert a[i].short == x;
      } else if x == d.short {
        assert a[|arguments|].short == x;
      }
    }
    forall i | 0 <= i < |a|
      ensures a[i].short in table && table[a[i].short] == a[i].name
    {
      if i < |arguments| {
        assert a[i] == arguments[i];
        assert a[i].short != d.short;
      }
    }
  }

  /** Appending the new descriptor's line to its group (when it has one) keeps the help text matched. */
  lemma AppendKeepsHelp(helpText: map<string, seq<string>>, arguments: seq<Descriptor>, d: Descriptor)
    requires HelpMatches(helpText, arguments)
    ensures var ht := if d.group != "" then helpText[d.group := LinesOf(helpText, d.group) + [SetHelpText(d)]] else helpText;
      HelpMatches(ht, arguments + [d])
  {
    var ht := if d.group != "" then helpText[d.group := LinesOf(helpText, d.group) + [SetHelpText(d)]] else helpText;
    var a := arguments + [d];
    forall i | 0 <= i < |a| && a[i].group != ""
      ensures a[i].group in ht
    {
      if i < |arguments| {
        assert a[i] == arguments[i];
      }
    }
    forall g | g in ht
      ensures g != "" && ht[g] == HelpLinesOf(a, g)
    {
      HelpLinesOfAppend(arguments, d, g);
      if g == d.group && g !in helpText {
        forall i | 0 <= i < |arguments|
          ensures arguments[i].group != g
        {
        }
        HelpLinesOfNone(arguments, g);
      }
    }
  }

  /** Every declaration, successful or not, keeps the registry invariants. */
  lemma DeclarePreservesWellFormed(r: State, name: string, short: string, help: string, dv: Default, group: string)
    requires WellFormed(r)
    ensures WellFormed(Declare(r, name, short, help, dv, group).1)
  {
    var (code, r') := Declare(r, name, short, help, dv, group);
    if code == OK {
      var d := NewDescriptor(name, short, help, group, dv.value);
      assert r' == State(r.args[name := dv.value], r.arguments + [d], r.aliases[d.short := d.name],
        if d.group != "" then r.helpText[d.group := LinesOf(r.helpText, d.group) + [SetHelpText(d)]] else r.helpText);
      assert !Declared(r.arguments, name);
      assert !ShortTaken(r.arguments, short);
      AppendKeepsUnique(r.arguments, d);
      AppendKeepsStore(r.args, r.arguments, d, dv.value);
      AppendKeepsAliases(r.aliases, r.arguments, d);
      AppendKeepsHelp(r.helpText, r.arguments, d);
    }
  }

  /** A group none of whose members is declared has no help lines. */
  lemma {:induction false} HelpLinesOfNone(arguments: seq<Descriptor>, g: string)
    requires forall i :: 0 <= i < |arguments| ==> arguments[i].group != g
    ensures HelpLinesOf(arguments, g) == []
  {
    if arguments != [] {
      HelpLinesOfNone(arguments[..|arguments| - 1], g);
    }
  }

  /** A group's help lines hold nothing but the lines of its own members. */
  lemma {:induction false} HelpLinesOfOnlyGroup(arguments: seq<Descriptor>, g: string)
    ensures forall l :: l in HelpLinesOf(arguments, g) ==>
      exists i :: 0 <= i < |arguments| && arguments[i].group == g && l == SetHelpText(arguments[i])
  {
    if arguments != [] {
      var front := arguments[..|arguments| - 1];
      var last := arguments[|arguments| - 1];
      HelpLinesOfOnlyGroup(front, g);
      forall l | l in HelpLinesOf(arguments, g)
        ensures exists i :: 0 <= i < |arguments| && arguments[i].group == g && l == SetHelpText(arguments[i])
      {
        if l in HelpLinesOf(front, g) {
          var i :| 0 <= i < |front| && front[i].group == g && l == SetHelpText(front[i]);
          assert arguments[i] == front[i];
        } else {
          assert last.group == g && l == SetHelpText(last);
        }
      }
    }
  }

  /** The empty registry is well formed. */
  lemma EmptyIsWellFormed()
    ensures WellFormed(Empty)
  {
  }

  /** Overwriting stored values without changing their types (what parsing does)
      keeps the registry invariants. */
  lemma RetypedStoreKeepsWellFormed(r: State, store: map<string, Value>)
    requires WellFormed(r)
    requires store.Keys == r.args.Keys
    requires forall n :: n in store ==> SameType(r.args[n], store[n])
    ensures WellFormed(r.(args := store))
  {
    forall i | 0 <= i < |r.arguments|
      ensures HasKind(store[r.arguments[i].name], r.arguments[i].kind)
    {
      HasKindIsTypeOnly(r.args[r.arguments[i].name], store[r.arguments[i].name], r.arguments[i].kind);
    }
  }

  /** The help flag the parser tries to add when "h" is already an alias is
      always refused, so that step never changes the registry. */
  lemma AutoHelpNeverDeclares(r: State)
    requires "h" in r.aliases
    ensures var (code, r') := Declare(r, "help", "h", "Displays this help text", Known(VBool(false)), DetermineGroup([]));
      code in {ArgInUse, ShortInUse} && r' == r
  {
  }

  /** A name that was declared once is refused on every later declaration,
      whatever its short, and the registry stays as it was. */
  lemma DuplicateNameRefused(r: State, name: string, short: string, help: string, v: Value, group: string,
                             short2: string, help2: string, dv2: Default, group2: string)
    requires Declare(r, name, short, help, Known(v), group).0 == OK
    ensures var r' := Declare(r, name, short, help, Known(v), group).1;
      Declare(r', name, short2, help2, dv2, group2) == (ArgInUse, r')
  {
  }

  /** On a well-formed registry, the help screen shows the line of every
      argument declared in a non-empty group, whatever order the groups come in. */
  lemma HelpScreenListsGroupedArguments(about: string, r: State, order: seq<string>, i: nat)
    requires WellFormed(r) && IsKeyOrder(order, r.helpText.Keys)
    requires i < |r.arguments| && r.arguments[i].group != ""
    ensures SetHelpText(r.arguments[i]) in RenderHelp(about, r.helpText, order)
  {
    var g := r.arguments[i].group;
    assert g in r.helpText;
    assert SetHelpText(r.arguments[i]) in HelpLinesOf(r.arguments, g);
    LineOnScreen(about, r.helpText, order, g, SetHelpText(r.arguments[i]));
  }
}
