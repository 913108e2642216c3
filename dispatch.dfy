/** The dispatcher, as pure functions: how one stored value is overwritten from
    the token list, which names a token targets, and the left-to-right scan over
    all tokens. The parser's loops are proved to compute exactly these. */
module Dispatch {
  import opened Options
  import opened Descriptors

  /** Why the scan stopped abnormally (the library panics in both cases). */
  datatype PanicReason =
    | UnsupportedType(name: string)   // the stored value is missing or is not a string, int or bool
    | IndexOutOfRange(index: nat)     // a string or int option was the last token

  /** What one assignment reports; an invalid integer is reported, not fatal. */
  datatype AssignStatus = Assigned | InvalidInteger | Panic(reason: PanicReason)

  datatype Assignment = Assignment(store: map<string, Value>, status: AssignStatus)

  /** The state of the scan after some prefix of the tokens. */
  datatype ScanState = Running(store: map<string, Value>) | Panicked(store: map<string, Value>, reason: PanicReason)

  // ---------------------------------------------------------------------------
  // Decimal integers

  predicate IsDigit(c: char) { '0' <= c <= '9' }

  predicate AllDigits(s: string) { forall i :: 0 <= i < |s| ==> IsDigit(s[i]) }

  /** What `strconv.Atoi` accepts: an optional sign, then one or more decimal digits. */
  predicate IsIntegerLiteral(s: string)
  {
    if |s| > 0 && (s[0] == '+' || s[0] == '-') then |s| > 1 && AllDigits(s[1..]) else |s| > 0 && AllDigits(s)
  }

  function DigitsValue(s: string): (n: nat)
    requires AllDigits(s)
  {
    if s == [] then 0 else 10 * DigitsValue(s[..|s| - 1]) + (s[|s| - 1] as int - '0' as int)
  }

  /** Base-10 integer parsing, failing on anything that is not an integer literal. */
  function Atoi(s: string): (r: Option<int>)
    ensures r.Some? <==> IsIntegerLiteral(s)
  {
    if |s| > 0 && (s[0] == '+' || s[0] == '-') then
      if |s| > 1 && AllDigits(s[1..]) then
        var magnitude: int := DigitsValue(s[1..]);
        Some(if s[0] == '-' then -magnitude else magnitude)
      else None
    else if |s| > 0 && AllDigits(s) then Some(DigitsValue(s))
    else None
  }

  /** The decimal digits of a natural number, most significant first. */
  function NatDigits(n: nat): (s: string)
    ensures |s| > 0 && AllDigits(s)
  {
    var last := ['0' + (n % 10) as char];
    if n < 10 then last else NatDigits(n / 10) + last
  }

  /** The canonical decimal spelling of an integer. */
  function Decimal(n: int): string
  {
    if n < 0 then "-" + NatDigits(-n) else NatDigits(n)
  }

  lemma {:induction false} NatDigitsValue(n: nat)
    ensures DigitsValue(NatDigits(n)) == n
  {
    var s := NatDigits(n);
    if n >= 10 {
      NatDigitsValue(n / 10);
      assert s[..|s| - 1] == NatDigits(n / 10);
    }
  }

  /** Integer parsing reads back every integer written in decimal. */
  lemma AtoiReadsDecimal(n: int)
    ensures Atoi(Decimal(n)) == Some(n)
  {
    if n < 0 {
      NatDigitsValue(-n);
      assert Decimal(n)[1..] == NatDigits(-n);
    } else {
      NatDigitsValue(n);
    }
  }

  // ---------------------------------------------------------------------------
  // One assignment

  /** The store keeps its keys and the dynamic type of every value. */
  ghost predicate SameShape(a: map<string, Value>, b: map<string, Value>)
  {
    a.Keys == b.Keys && forall n :: n in a ==> SameType(a[n], b[n])
  }

  /** `setArgValue`: the stored value's dynamic type decides. A string takes the
      token at `argIndex` verbatim, an int takes its integer value (or keeps its
      value and reports an invalid integer), a bool becomes true without reading
      any token. A missing name or a float is fatal, and so is reading past the
      last token. */
  function AssignValue(store: map<string, Value>, name: string, tokens: seq<string>, argIndex: nat): (a: Assignment)
    ensures SameShape(store, a.store)
    ensures a.status.Panic? <==>
      || name !in store
      || store[name].VFloat?
      || ((store[name].VStr? || store[name].VInt?) && argIndex >= |tokens|)
    ensures !a.status.Assigned? ==> a.store == store
    ensures a.status.Assigned? ==> a.store.Keys == store.Keys && forall n :: n in store && n != name ==> a.store[n] == store[n]
    ensures a.status == InvalidInteger <==> name in store && store[name].VInt? && argIndex < |tokens| && !IsIntegerLiteral(tokens[argIndex])
    ensures name in store && store[name].VBool? ==> a.store[name] == VBool(true)
    ensures name in store && store[name].VStr? && argIndex < |tokens| ==> a.store[name] == VStr(tokens[argIndex])
    ensures name in store && store[name].VInt? && argIndex < |tokens| && Atoi(tokens[argIndex]).Some? ==>
      a.store[name] == VInt(Atoi(tokens[argIndex]).value)
    ensures name !in store || store[name].VFloat? ==> a.status == Panic(UnsupportedType(name))
    ensures name in store && (store[name].VStr? || store[name].VInt?) && argIndex >= |tokens| ==>
      a.status == Panic(IndexOutOfRange(argIndex))
  {
    if name !in store then Assignment(store, Panic(UnsupportedType(name)))
    else match store[name]
      case VStr(_) =>
        if argIndex < |tokens| then Assignment(store[name := VStr(tokens[argIndex])], Assigned)
        else Assignment(store, Panic(IndexOutOfRange(argIndex)))
      case VInt(_) =>
        if argIndex < |tokens| then
          match Atoi(tokens[argIndex])
          case Some(n) => Assignment(store[name := VInt(n)], Assigned)
          case None => Assignment(store, InvalidInteger)
        else Assignment(store, Panic(IndexOutOfRange(argIndex)))
      case VBool(_) => Assignment(store[name := VBool(true)], Assigned)
      case VFloat => Assignment(store, Panic(UnsupportedType(name)))
  }

  // ---------------------------------------------------------------------------
  // Dispatch of one token

  predicate HasPrefix(s: string, prefix: string)
  {
    |prefix| <= |s| && s[..|prefix|] == prefix
  }

  /** `getFullNameFromShort`: the owner of a short, with Go's zero value "" and
      false when no declared argument owns it. */
  function GetFullNameFromShort(aliases: map<string, string>, shortName: string): (r: (string, bool))
    ensures r.1 <==> shortName in aliases
    ensures r.0 == if shortName in aliases then aliases[shortName] else ""
  {
    if shortName in aliases then (aliases[shortName], true) else ("", false)
  }

  /** The names one token asks to assign, in order (see `TargetsRules`). */
  function Targets(aliases: map<string, string>, item: string): seq<string>
  {
    if !HasPrefix(item, "-") then []
    else if HasPrefix(item, "--") then [item[2..]]
    else if |item| == 2 then [GetFullNameFromShort(aliases, item[1..]).0]
    else if |item| > 2 then seq(|item| - 1, k requires 0 <= k < |item| - 1 => GetFullNameFromShort(aliases, [item[k + 1]]).0)
    else []
  }

  /** The dispatch rules: no name for a token without a leading dash or for a
      lone dash; the rest of the token after `--`; the owner of the one character
      after a single dash, and the owner of each character of a longer cluster,
      where a character nobody owns gives "". */
  lemma TargetsRules(aliases: map<string, string>, item: string)
    ensures var names := Targets(aliases, item);
      && (names == [] <==> !HasPrefix(item, "-") || item == "-")
      && (HasPrefix(item, "--") ==> names == [item[2..]])
      && (!HasPrefix(item, "--") ==> forall n :: n in names ==> n == "" || n in aliases.Values)
      && (HasPrefix(item, "-") && !HasPrefix(item, "--") && |item| >= 2 ==>
            |names| == |item| - 1 && forall k :: 0 <= k < |names| ==> names[k] == GetFullNameFromShort(aliases, [item[k + 1]]).0)
  {
    if HasPrefix(item, "-") && !HasPrefix(item, "--") && |item| == 2 {
      assert item[1..] == [item[1]];
    }
  }

  /** One assignment folded into the scan: an invalid integer is dropped, a panic stops the scan. */
  function Step(s: ScanState, name: string, tokens: seq<string>, argIndex: nat): ScanState
  {
    match s
    case Panicked(_, _) => s
    case Running(store) =>
      var a := AssignValue(store, name, tokens, argIndex);
      if a.status.Panic? then Panicked(a.store, a.status.reason) else Running(a.store)
  }

  /** An invalid-integer report is dropped: the scan keeps running with the store unchanged. */
  lemma InvalidIntegerKeepsRunning(s: map<string, Value>, name: string, tokens: seq<string>, argIndex: nat)
    requires AssignValue(s, name, tokens, argIndex).status == InvalidInteger
    ensures Step(Running(s), name, tokens, argIndex) == Running(s)
  {
  }

  /** Assigning the names in order, all from the same next token. */
  function ApplyNames(store: map<string, Value>, names: seq<string>, tokens: seq<string>, argIndex: nat): ScanState
  {
    if names == [] then Running(store)
    else Step(ApplyNames(store, names[..|names| - 1], tokens, argIndex), names[|names| - 1], tokens, argIndex)
  }

  /** The scan after the first `n` tokens. */
  function ScanUpTo(store: map<string, Value>, aliases: map<string, string>, tokens: seq<string>, n: nat): ScanState
    requires n <= |tokens|
  {
    if n == 0 then Running(store)
    else match ScanUpTo(store, aliases, tokens, n - 1)
      case Panicked(_, _) => ScanUpTo(store, aliases, tokens, n - 1)
      case Running(s) => ApplyNames(s, Targets(aliases, tokens[n - 1]), tokens, n)
  }

  /** The whole scan. */
  function Scan(store: map<string, Value>, aliases: map<string, string>, tokens: seq<string>): ScanState
  {
    ScanUpTo(store, aliases, tokens, |tokens|)
  }

  // ---------------------------------------------------------------------------
  // Properties of the scan

  lemma SameShapeTransitive(a: map<string, Value>, b: map<string, Value>, c: map<string, Value>)
    requires SameShape(a, b) && SameShape(b, c)
    ensures SameShape(a, c)
  {
    forall n | n in a
      ensures SameType(a[n], c[n])
    {
      assert SameType(a[n], b[n]) && SameType(b[n], c[n]);
    }
  }

  lemma {:induction false} ApplyNamesKeepsShape(store: map<string, Value>, names: seq<string>, tokens: seq<string>, argIndex: nat)
    ensures SameShape(store, ApplyNames(store, names, tokens, argIndex).store)
  {
    if names != [] {
      var front := ApplyNames(store, names[..|names| - 1], tokens, argIndex);
      ApplyNamesKeepsShape(store, names[..|names| - 1], tokens, argIndex);
      if front.Running? {
        var a := AssignValue(front.store, names[|names| - 1], tokens, argIndex);
        SameShapeTransitive(store, front.store, a.store);
      }
    }
  }

  /** Parsing never adds or removes a key and never changes the dynamic type of
      a stored value, whether it finishes or panics. */
  lemma {:induction false} ScanKeepsShape(store: map<string, Value>, aliases: map<string, string>, tokens: seq<string>, n: nat)
    requires n <= |tokens|
    ensures SameShape(store, ScanUpTo(store, aliases, tokens, n).store)
  {
    if n > 0 {
      var before := ScanUpTo(store, aliases, tokens, n - 1);
      ScanKeepsShape(store, aliases, tokens, n - 1);
      if before.Running? {
        var names := Targets(aliases, tokens[n - 1]);
        var after := ApplyNames(before.store, names, tokens, n);
        assert ScanUpTo(store, aliases, tokens, n) == after;
        ApplyNamesKeepsShape(before.store, names, tokens, n);
        SameShapeTransitive(store, before.store, after.store);
      }
    }
  }

  lemma {:induction false} ApplyNamesPanicIsFinal(store: map<string, Value>, names: seq<string>, tokens: seq<string>, argIndex: nat, k: nat)
    requires k <= |names| && ApplyNames(store, names[..k], tokens, argIndex).Panicked?
    ensures ApplyNames(store, names, tokens, argIndex) == ApplyNames(store, names[..k], tokens, argIndex)
  {
    if k < |names| {
      assert names[..|names| - 1][..k] == names[..k];
      ApplyNamesPanicIsFinal(store, names[..|names| - 1], tokens, argIndex, k);
    } else {
      assert names[..k] == names;
    }
  }

  /** Once the scan panics, later tokens change nothing. */
  lemma {:induction false} ScanPanicIsFinal(store: map<string, Value>, aliases: map<string, string>, tokens: seq<string>, n: nat, m: nat)
    requires n <= m <= |tokens| && ScanUpTo(store, aliases, tokens, n).Panicked?
    ensures ScanUpTo(store, aliases, tokens, m) == ScanUpTo(store, aliases, tokens, n)
  {
    if n < m {
      ScanPanicIsFinal(store, aliases, tokens, n, m - 1);
    }
  }

  /** A token without a leading dash, or a lone dash, is skipped. */
  lemma SkipsNonOptionTokens(store: map<string, Value>, aliases: map<string, string>, tokens: seq<string>, n: nat)
    requires n < |tokens| && (!HasPrefix(tokens[n], "-") || tokens[n] == "-")
    ensures ScanUpTo(store, aliases, tokens, n + 1) == ScanUpTo(store, aliases, tokens, n)
  {
  }

  /** `--x` assigns the name `x` from the following token. */
  lemma FullNameAssignsName(store: map<string, Value>, aliases: map<string, string>, tokens: seq<string>, n: nat, x: string)
    requires n < |tokens| && tokens[n] == "--" + x
    ensures ScanUpTo(store, aliases, tokens, n + 1) == Step(ScanUpTo(store, aliases, tokens, n), x, tokens, n + 1)
  {
    assert HasPrefix(tokens[n], "--") && tokens[n][2..] == x;
    assert Targets(aliases, tokens[n]) == [x];
    match ScanUpTo(store, aliases, tokens, n)
    case Panicked(_, _) =>
    case Running(s) =>
      assert ApplyNames(s, [x], tokens, n + 1) == Step(ApplyNames(s, [], tokens, n + 1), x, tokens, n + 1);
  }

  /** The scan ignores what `setArgValue` reports: `--x` for an int option
      followed by a token that is not an integer keeps the store and goes on. */
  lemma InvalidIntegerIsDropped(store: map<string, Value>, aliases: map<string, string>, tokens: seq<string>, n: nat, x: string, s: map<string, Value>)
    requires n + 1 < |tokens| && tokens[n] == "--" + x
    requires ScanUpTo(store, aliases, tokens, n) == Running(s)
    requires x in s && s[x].VInt? && !IsIntegerLiteral(tokens[n + 1])
    ensures ScanUpTo(store, aliases, tokens, n + 1) == Running(s)
  {
    FullNameAssignsName(store, aliases, tokens, n, x);
  }

  /** `-c` assigns the owner of the short `c` from the following token ("" when nobody owns it). */
  lemma ShortAssignsOwner(store: map<string, Value>, aliases: map<string, string>, tokens: seq<string>, n: nat)
    requires n < |tokens| && |tokens[n]| == 2 && tokens[n][0] == '-' && tokens[n][1] != '-'
    ensures ScanUpTo(store, aliases, tokens, n + 1)
         == Step(ScanUpTo(store, aliases, tokens, n), GetFullNameFromShort(aliases, tokens[n][1..]).0, tokens, n + 1)
  {
    var x := GetFullNameFromShort(aliases, tokens[n][1..]).0;
    assert HasPrefix(tokens[n], "-") && !HasPrefix(tokens[n], "--");
    assert Targets(aliases, tokens[n]) == [x];
    match ScanUpTo(store, aliases, tokens, n)
    case Panicked(_, _) =>
    case Running(s) =>
      assert ApplyNames(s, [x], tokens, n + 1) == Step(ApplyNames(s, [], tokens, n + 1), x, tokens, n + 1);
  }

  /** The names of a cluster `-abc`: the owner of each character after the dash. */
  lemma ClusterTargets(aliases: map<string, string>, item: string)
    requires |item| > 2 && item[0] == '-' && item[1] != '-'
    ensures |Targets(aliases, item)| == |item| - 1
    ensures forall k :: 0 <= k < |item| - 1 ==> Targets(aliases, item)[k] == GetFullNameFromShort(aliases, [item[k + 1]]).0
  {
    assert HasPrefix(item, "-") && !HasPrefix(item, "--");
    assert Targets(aliases, item) == seq(|item| - 1, i requires 0 <= i < |item| - 1 => GetFullNameFromShort(aliases, [item[i + 1]]).0);
  }

  /** Assigning one more name is one more step. */
  lemma ApplyNamesSnoc(store: map<string, Value>, names: seq<string>, tokens: seq<string>, argIndex: nat, k: nat)
    requires k < |names|
    ensures ApplyNames(store, names[..k + 1], tokens, argIndex) == Step(ApplyNames(store, names[..k], tokens, argIndex), names[k], tokens, argIndex)
  {
    assert names[..k + 1][..k] == names[..k];
  }

  /** A single-dash short nobody owns targets the name "", which is fatal unless "" was declared. */
  lemma UnknownShortPanics(store: map<string, Value>, aliases: map<string, string>, tokens: seq<string>, n: nat)
    requires n < |tokens| && |tokens[n]| == 2 && tokens[n][0] == '-' && tokens[n][1] != '-'
    requires tokens[n][1..] !in aliases && "" !in store
    requires ScanUpTo(store, aliases, tokens, n).Running?
    ensures ScanUpTo(store, aliases, tokens, n + 1) == Panicked(ScanUpTo(store, aliases, tokens, n).store, UnsupportedType(""))
  {
    ShortAssignsOwner(store, aliases, tokens, n);
    ScanKeepsShape(store, aliases, tokens, n);
  }

  /** The whole scan, when it reaches the last token still running with store
      `before`: that token's targets assigned in order to `before`. */
  lemma LastTokenScan(store: map<string, Value>, aliases: map<string, string>, tokens: seq<string>, before: map<string, Value>)
    requires |tokens| > 0 && ScanUpTo(store, aliases, tokens, |tokens| - 1) == Running(before)
    ensures Scan(store, aliases, tokens) == ApplyNames(before, Targets(aliases, tokens[|tokens| - 1]), tokens, |tokens|)
  {
  }

  /** Assigning a single name is one step. */
  lemma OneNameIsOneStep(s: map<string, Value>, x: string, tokens: seq<string>, argIndex: nat)
    ensures ApplyNames(s, [x], tokens, argIndex) == Step(Running(s), x, tokens, argIndex)
  {
    assert [x][..0] == [];
  }

  /** A string or int option with no token left to read panics, keeping the store. */
  lemma ValueOptionWithoutTokenPanics(s: map<string, Value>, x: string, tokens: seq<string>, argIndex: nat)
    requires argIndex >= |tokens| && x in s && (s[x].VStr? || s[x].VInt?)
    ensures Step(Running(s), x, tokens, argIndex) == Panicked(s, IndexOutOfRange(argIndex))
  {
    assert AssignValue(s, x, tokens, argIndex) == Assignment(s, Panic(IndexOutOfRange(argIndex)));
  }

  /** The character `c` is the short of a flag in the store. */
  predicate FlagOwner(store: map<string, Value>, aliases: map<string, string>, c: char)
  {
    var owner := GetFullNameFromShort(aliases, [c]).0;
    owner in store && store[owner].VBool?
  }

  /** The character `c` is the short of a string or int option in the store. */
  predicate ValueOwner(store: map<string, Value>, aliases: map<string, string>, c: char)
  {
    var owner := GetFullNameFromShort(aliases, [c]).0;
    owner in store && (store[owner].VStr? || store[owner].VInt?)
  }

  /** With no token left to read, `--x` for a string or int option `x` panics, keeping the store. */
  lemma LongValueOptionWithoutTokenPanics(s: map<string, Value>, aliases: map<string, string>, item: string, x: string, tokens: seq<string>, argIndex: nat)
    requires item == "--" + x && argIndex >= |tokens|
    requires x in s && (s[x].VStr? || s[x].VInt?)
    ensures ApplyNames(s, Targets(aliases, item), tokens, argIndex) == Panicked(s, IndexOutOfRange(argIndex))
  {
    assert Targets(aliases, item) == [x] by {
      assert HasPrefix(item, "--") && item[2..] == x;
    }
    OneNameIsOneStep(s, x, tokens, argIndex);
    ValueOptionWithoutTokenPanics(s, x, tokens, argIndex);
  }

  /** With no token left to read, `-c` for the short `c` of a string or int option panics, keeping the store. */
  lemma ShortValueOptionWithoutTokenPanics(s: map<string, Value>, aliases: map<string, string>, item: string, tokens: seq<string>, argIndex: nat)
    requires |item| == 2 && item[0] == '-' && item[1] != '-' && argIndex >= |tokens|
    requires ValueOwner(s, aliases, item[1])
    ensures ApplyNames(s, Targets(aliases, item), tokens, argIndex) == Panicked(s, IndexOutOfRange(argIndex))
  {
    var x := GetFullNameFromShort(aliases, [item[1]]).0;
    assert Targets(aliases, item) == [x] by {
      assert item[1..] == [item[1]];
      assert HasPrefix(item, "-") && !HasPrefix(item, "--");
    }
    OneNameIsOneStep(s, x, tokens, argIndex);
    ValueOptionWithoutTokenPanics(s, x, tokens, argIndex);
  }

  /** A string or int option `--x` given as the last token panics on the
      missing value, keeping the store the scan reached before it. */
  lemma TrailingValueOptionPanics(store: map<string, Value>, aliases: map<string, string>, tokens: seq<string>, x: string, before: map<string, Value>)
    requires |tokens| > 0 && tokens[|tokens| - 1] == "--" + x
    requires ScanUpTo(store, aliases, tokens, |tokens| - 1) == Running(before)
    requires x in before && (before[x].VStr? || before[x].VInt?)
    ensures Scan(store, aliases, tokens) == Panicked(before, IndexOutOfRange(|tokens|))
  {
    LongValueOptionWithoutTokenPanics(before, aliases, tokens[|tokens| - 1], x, tokens, |tokens|);
    LastTokenScan(store, aliases, tokens, before);
  }

  /** A short option `-c` given as the last token panics with an out-of-range
      read when `c` belongs to a string or int option. */
  lemma TrailingShortOptionPanics(store: map<string, Value>, aliases: map<string, string>, tokens: seq<string>, t: string, before: map<string, Value>)
    requires |tokens| > 0 && tokens[|tokens| - 1] == t
    requires |t| == 2 && t[0] == '-' && t[1] != '-'
    requires ScanUpTo(store, aliases, tokens, |tokens| - 1) == Running(before)
    requires ValueOwner(before, aliases, t[1])
    ensures Scan(store, aliases, tokens) == Panicked(before, IndexOutOfRange(|tokens|))
  {
    ShortValueOptionWithoutTokenPanics(before, aliases, t, tokens, |tokens|);
    LastTokenScan(store, aliases, tokens, before);
  }

  /** Flags are set without reading a token, so a run of flags never panics. */
  lemma {:induction false} FlagsNeverPanic(s: map<string, Value>, names: seq<string>, tokens: seq<string>, argIndex: nat)
    requires forall j :: 0 <= j < |names| ==> names[j] in s && s[names[j]].VBool?
    ensures ApplyNames(s, names, tokens, argIndex).Running?
  {
    if names != [] {
      var front := names[..|names| - 1];
      var last := names[|names| - 1];
      assert forall j :: 0 <= j < |front| ==> front[j] == names[j];
      FlagsNeverPanic(s, front, tokens, argIndex);
      ApplyNamesKeepsShape(s, front, tokens, argIndex);
      var st := ApplyNames(s, front, tokens, argIndex).store;
      assert SameType(s[last], st[last]);
    }
  }

  /** With no token left to read, the first string or int option among the
      names panics, when only flags come before it. */
  lemma FlagsThenValueOptionPanics(s: map<string, Value>, names: seq<string>, tokens: seq<string>, argIndex: nat, k: nat)
    requires argIndex >= |tokens| && k < |names|
    requires forall j :: 0 <= j < k ==> names[j] in s && s[names[j]].VBool?
    requires names[k] in s && (s[names[k]].VStr? || s[names[k]].VInt?)
    ensures ApplyNames(s, names, tokens, argIndex).Panicked?
    ensures ApplyNames(s, names, tokens, argIndex).reason == IndexOutOfRange(argIndex)
  {
    var pre := names[..k];
    assert forall j :: 0 <= j < |pre| ==> pre[j] == names[j];
    FlagsNeverPanic(s, pre, tokens, argIndex);
    ApplyNamesKeepsShape(s, pre, tokens, argIndex);
    var st := ApplyNames(s, pre, tokens, argIndex).store;
    assert SameType(s[names[k]], st[names[k]]);
    assert names[..k + 1][..k] == pre && names[..k + 1][k] == names[k];
    assert ApplyNames(s, names[..k + 1], tokens, argIndex) == Step(Running(st), names[k], tokens, argIndex);
    ApplyNamesPanicIsFinal(s, names, tokens, argIndex, k + 1);
  }

  /** With no token left to read, a cluster panics at its `k`-th character when
      that character belongs to a string or int option and the characters
      before it all belong to flags. */
  lemma ClusterPanics(s: map<string, Value>, aliases: map<string, string>, t: string, tokens: seq<string>, argIndex: nat, k: nat)
    requires |t| > 2 && t[0] == '-' && t[1] != '-' && 1 <= k < |t| && argIndex >= |tokens|
    requires forall j :: 1 <= j < k ==> FlagOwner(s, aliases, t[j])
    requires ValueOwner(s, aliases, t[k])
    ensures ApplyNames(s, Targets(aliases, t), tokens, argIndex).Panicked?
    ensures ApplyNames(s, Targets(aliases, t), tokens, argIndex).reason == IndexOutOfRange(argIndex)
  {
    var names := Targets(aliases, t);
    assert HasPrefix(t, "-") && !HasPrefix(t, "--");
    assert names == seq(|t| - 1, i requires 0 <= i < |t| - 1 => GetFullNameFromShort(aliases, [t[i + 1]]).0);
    forall j | 0 <= j < k - 1
      ensures names[j] in s && s[names[j]].VBool?
    {
      assert FlagOwner(s, aliases, t[j + 1]);
    }
    FlagsThenValueOptionPanics(s, names, tokens, argIndex, k - 1);
  }

  /** A cluster `-abc` given as the last token panics with an out-of-range read
      at its `k`-th character when that character belongs to a string or int
      option and the characters before it all belong to flags. */
  lemma TrailingClusterPanics(store: map<string, Value>, aliases: map<string, string>, tokens: seq<string>, t: string, k: nat, before: map<string, Value>)
    requires |tokens| > 0 && tokens[|tokens| - 1] == t
    requires |t| > 2 && t[0] == '-' && t[1] != '-' && 1 <= k < |t|
    requires ScanUpTo(store, aliases, tokens, |tokens| - 1) == Running(before)
    requires forall j :: 1 <= j < k ==> FlagOwner(before, aliases, t[j])
    requires ValueOwner(before, aliases, t[k])
    ensures Scan(store, aliases, tokens).Panicked?
    ensures Scan(store, aliases, tokens).reason == IndexOutOfRange(|tokens|)
  {
    ClusterPanics(before, aliases, t, tokens, |tokens|, k);
    LastTokenScan(store, aliases, tokens, before);
  }
}
