/** Concrete command lines, proved about the model: the library's own test
    case, and small command lines that show the dispatch rules. */
module Scenarios {
  import opened Descriptors
  import opened Dispatch
  import opened ArguDuckParser

  /** The scan of the string-argument test: `--testarg hello` stores "hello". */
  lemma StringArgumentScan()
    ensures Scan(map["testarg" := VStr("default")], map["t" := "testarg"], ["--testarg", "hello"])
         == Running(map["testarg" := VStr("hello")])
  {
    var store := map["testarg" := VStr("default")];
    var aliases := map["t" := "testarg"];
    var tokens := ["--testarg", "hello"];
    FullNameAssignsName(store, aliases, tokens, 0, "testarg");
    assert ScanUpTo(store, aliases, tokens, 1) == Running(map["testarg" := VStr("hello")]);
    assert tokens[1][0] == 'h' && !HasPrefix(tokens[1], "-");
    SkipsNonOptionTokens(store, aliases, tokens, 1);
  }

  /** The string-argument test: declare `testarg` (short `t`, default
      "default", group "general"), parse `--testarg hello`, read back "hello". */
  method StringArgumentParsing() returns (value: Value)
    ensures value == VStr("hello")
  {
    var parser := new ArguDuck();
    var _ := parser.String("testarg", "t", "default", "Test argument", ["general"]);
    assert parser.args == map["testarg" := VStr("default")];
    assert parser.shortToFullName == map["t" := "testarg"];
    assert !parser.parsed && !parser.helpFlagFound;
    var tokens := ["--testarg", "hello"];
    assert tokens[0] != "--help" && tokens[0] != "-h" && tokens[1] != "--help" && tokens[1] != "-h";
    assert !HasHelpToken(tokens);
    StringArgumentScan();
    var outcome := parser.Parse(tokens);
    value := parser.args["testarg"];
  }

  /** A cluster `-ab` sets every flag it names. */
  lemma ClusterSetsEachFlag()
    ensures var store := map["all" := VBool(false), "bare" := VBool(false)];
      Scan(store, map["a" := "all", "b" := "bare"], ["-ab"]) == Running(map["all" := VBool(true), "bare" := VBool(true)])
  {
    var store := map["all" := VBool(false), "bare" := VBool(false)];
    var aliases := map["a" := "all", "b" := "bare"];
    assert "-ab"[1] == 'a' && "-ab"[2] == 'b' && "-ab"[..2] != "--";
    assert HasPrefix("-ab", "-") && !HasPrefix("-ab", "--");
    assert Targets(aliases, "-ab") == ["all", "bare"];
    assert ["all", "bare"][..1] == ["all"];
    assert ApplyNames(store, ["all"], ["-ab"], 1) == Step(ApplyNames(store, [], ["-ab"], 1), "all", ["-ab"], 1);
  }

  /** `-p 9090` stores the integer. */
  lemma IntOptionFromShort()
    ensures Scan(map["port" := VInt(8080)], map["p" := "port"], ["-p", "9090"]) == Running(map["port" := VInt(9090)])
  {
    var store := map["port" := VInt(8080)];
    var aliases := map["p" := "port"];
    var tokens := ["-p", "9090"];
    assert tokens[0][1..] == "p";
    ShortAssignsOwner(store, aliases, tokens, 0);
    AtoiReadsDecimal(9090);
    assert Decimal(9090) == "9090";
    assert AssignValue(store, "port", tokens, 1) == Assignment(map["port" := VInt(9090)], Assigned);
    assert ScanUpTo(store, aliases, tokens, 1) == Running(map["port" := VInt(9090)]);
    SkipsNonOptionTokens(store, aliases, tokens, 1);
  }

  /** `-p abc` leaves the stored integer as it was and the scan goes on. */
  lemma InvalidIntegerIsIgnored()
    ensures Scan(map["port" := VInt(8080)], map["p" := "port"], ["-p", "abc"]) == Running(map["port" := VInt(8080)])
  {
    var store := map["port" := VInt(8080)];
    var aliases := map["p" := "port"];
    var tokens := ["-p", "abc"];
    assert tokens[0][1..] == "p";
    ShortAssignsOwner(store, aliases, tokens, 0);
    assert !IsIntegerLiteral("abc") by {
      assert !IsDigit('a');
    }
    assert AssignValue(store, "port", tokens, 1) == Assignment(store, InvalidInteger);
    assert ScanUpTo(store, aliases, tokens, 1) == Running(store);
    SkipsNonOptionTokens(store, aliases, tokens, 1);
  }

  /** A value that begins with a dash is taken as the value and then dispatched
      again as an option of its own. */
  lemma ValueTokensAreNotSkipped()
    ensures var store := map["name" := VStr(""), "force" := VBool(false)];
      Scan(store, map["f" := "force"], ["--name", "-f"]) == Running(map["name" := VStr("-f"), "force" := VBool(true)])
  {
    var store := map["name" := VStr(""), "force" := VBool(false)];
    var aliases := map["f" := "force"];
    var tokens := ["--name", "-f"];
    assert tokens[0] == "--" + "name";
    FullNameAssignsName(store, aliases, tokens, 0, "name");
    var s1 := map["name" := VStr("-f"), "force" := VBool(false)];
    assert AssignValue(store, "name", tokens, 1) == Assignment(s1, Assigned);
    assert ScanUpTo(store, aliases, tokens, 1) == Running(s1);
    assert tokens[1][1..] == "f";
    ShortAssignsOwner(store, aliases, tokens, 1);
    var s2 := map["name" := VStr("-f"), "force" := VBool(true)];
    assert AssignValue(s1, "force", tokens, 2) == Assignment(s2, Assigned);
  }
}
