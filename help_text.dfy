/** Help text: the fixed-width line written for one argument, and the layout
    of the whole help screen grouped by category. */
module HelpText {
  import opened Descriptors

  const UsageGroup: string := "Usage"
  const Indent: string := "    "
  const NameWidth: nat := 25
  const ShortWidth: nat := 4

  function Max(a: nat, b: nat): nat { if a < b then b else a }

  function Spaces(n: nat): (r: string)
    ensures |r| == n
    ensures forall i :: 0 <= i < n ==> r[i] == ' '
  {
    if n == 0 then "" else Spaces(n - 1) + " "
  }

  /** Left-justification in a field of at least `width` characters (`%-Ns`):
      the text is kept whole and followed by blanks up to the width. */
  function PadRight(s: string, width: nat): (r: string)
    ensures |r| == Max(|s|, width)
    ensures r[..|s|] == s
    ensures forall i :: |s| <= i < |r| ==> r[i] == ' '
  {
    if |s| < width then s + Spaces(width - |s|) else s
  }

  /** The short-alias column: `-x`, or nothing for an argument without a short. */
  function ShortField(short: string): string
  {
    if short != "" then "-" + short else ""
  }

  /** The help line as the format string `"    %-25s %-4s %s"` writes it. */
  function FormatLine(name: string, sf: string, help: string): string
  {
    Indent + PadRight(name, NameWidth) + " " + PadRight(sf, ShortWidth) + " " + help
  }

  /** The help line of one argument: four blanks, the name left-justified in 25
      columns, a blank, the short column left-justified in 4, a blank, the help. */
  function SetHelpText(d: Descriptor): (line: string)
    ensures |line| == |Indent| + Max(|d.name|, NameWidth) + 1 + Max(|ShortField(d.short)|, ShortWidth) + 1 + |d.help|
    ensures line[..4] == Indent
    ensures line[4..4 + |d.name|] == d.name
    ensures line[|line| - |d.help|..] == d.help
  {
    var line := FormatLine(d.GetName(), ShortField(d.GetShort()), d.GetHelp());
    assert line[4..4 + |d.name|] == PadRight(d.name, NameWidth)[..|d.name|];
    line
  }

  /** `s` starts at column `start` of `line` and is followed by blanks up to
      the field's width: what `%-Ns` printed at that column leaves. */
  ghost predicate FieldAt(line: string, start: nat, s: string, width: nat)
  {
    && start + Max(|s|, width) <= |line|
    && line[start..start + |s|] == s
    && (forall i :: start + |s| <= i < start + Max(|s|, width) ==> line[i] == ' ')
  }

  lemma PadRightAt(pre: string, s: string, width: nat, post: string)
    ensures FieldAt(pre + PadRight(s, width) + post, |pre|, s, width)
  {
    var line := pre + PadRight(s, width) + post;
    assert line[|pre|..|pre| + Max(|s|, width)] == PadRight(s, width);
    assert line[|pre|..|pre| + |s|] == PadRight(s, width)[..|s|];
    forall i | |pre| + |s| <= i < |pre| + Max(|s|, width)
      ensures line[i] == ' '
    {
      assert line[i] == PadRight(s, width)[i - |pre|];
    }
  }

  /** The indent, then the name padded to its field, then a blank. */
  lemma NameColumns(name: string, sf: string, help: string)
    ensures var line := FormatLine(name, sf, help);
      var w := Max(|name|, NameWidth);
      && |line| == 6 + w + Max(|sf|, ShortWidth) + |help|
      && line[..4] == Indent
      && FieldAt(line, 4, name, NameWidth)
      && line[4 + w] == ' '
  {
    var padded := PadRight(name, NameWidth);
    var post := " " + PadRight(sf, ShortWidth) + " " + help;
    assert FormatLine(name, sf, help) == Indent + padded + post;
    PadRightAt(Indent, name, NameWidth, post);
  }

  /** From column 5 + w: the short column padded to its field, a blank, the help. */
  lemma ShortColumns(name: string, sf: string, help: string)
    ensures var line := FormatLine(name, sf, help);
      var w := Max(|name|, NameWidth);
      var sw := Max(|sf|, ShortWidth);
      && FieldAt(line, 5 + w, sf, ShortWidth)
      && line[5 + w + sw] == ' '
      && line[6 + w + sw..] == help
  {
    var pre := Indent + PadRight(name, NameWidth) + " ";
    var short := PadRight(sf, ShortWidth);
    var post := " " + help;
    assert FormatLine(name, sf, help) == pre + short + post;
    PadRightAt(pre, sf, ShortWidth, post);
    assert (pre + short + post)[|pre| + |short|..] == post;
  }

  /** Every column of a help line, whatever the lengths: `%-25s` keeps a long
      name whole and moves the later fields right. With `w` the width the name
      takes and `sw` the width the short column takes: the indent, the name
      padded to w, a blank, the short column padded to sw from column 5 + w,
      a blank, then the help text. */
  lemma HelpLineColumns(d: Descriptor)
    ensures var line := SetHelpText(d);
      var w := Max(|d.name|, NameWidth);
      var sf := ShortField(d.short);
      var sw := Max(|sf|, ShortWidth);
      && |line| == 6 + w + sw + |d.help|
      && line[..4] == Indent
      && FieldAt(line, 4, d.name, NameWidth)
      && line[4 + w] == ' '
      && FieldAt(line, 5 + w, sf, ShortWidth)
      && line[5 + w + sw] == ' '
      && line[6 + w + sw..] == d.help
  {
    NameColumns(d.name, ShortField(d.short), d.help);
    ShortColumns(d.name, ShortField(d.short), d.help);
  }

  /** When the name fits in its 25 columns and the short in its 4, every field
      starts at a fixed column: the short at column 30 and the help at column 35. */
  lemma HelpLineFixedColumns(d: Descriptor)
    requires |d.name| <= NameWidth && |d.short| < ShortWidth
    ensures var line := SetHelpText(d);
      && |line| == 35 + |d.help|
      && line[30..30 + |ShortField(d.short)|] == ShortField(d.short)
      && (forall i :: 4 + |d.name| <= i < 30 ==> line[i] == ' ')
      && (forall i :: 30 + |ShortField(d.short)| <= i < 35 ==> line[i] == ' ')
      && line[35..] == d.help
  {
    HelpLineColumns(d);
    assert Max(|d.name|, NameWidth) == NameWidth && Max(|ShortField(d.short)|, ShortWidth) == ShortWidth;
  }

  /** The lines recorded for a group; Go yields a nil slice for a missing key. */
  function LinesOf(helpText: map<string, seq<string>>, group: string): seq<string>
  {
    if group in helpText then helpText[group] else []
  }

  /** The block printed for one group other than Usage: its name, its lines, a blank. */
  function GroupBlock(helpText: map<string, seq<string>>, group: string): seq<string>
  {
    if group != UsageGroup then [group] + LinesOf(helpText, group) + [""] else []
  }

  /** The blocks of the groups other than Usage, in the order the map yields them. */
  function RenderGroups(helpText: map<string, seq<string>>, order: seq<string>): seq<string>
  {
    if order == [] then [] else RenderGroups(helpText, order[..|order| - 1]) + GroupBlock(helpText, order[|order| - 1])
  }

  /** True when `order` lists every key of the map once: one possible iteration order. */
  ghost predicate IsKeyOrder(order: seq<string>, keys: set<string>)
  {
    && (forall i, j :: 0 <= i < j < |order| ==> order[i] != order[j])
    && (forall g :: g in order <==> g in keys)
  }

  function Preamble(about: string): seq<string>
  {
    if about != "" then [about, ""] else []
  }

  /** The whole help screen, line by line, for a given iteration order of the groups:
      the about text and a blank when there is one, then Usage with its lines and a
      blank, then every other group. */
  function RenderHelp(about: string, helpText: map<string, seq<string>>, order: seq<string>): seq<string>
  {
    Preamble(about) + ([UsageGroup] + LinesOf(helpText, UsageGroup) + [""]) + RenderGroups(helpText, order)
  }

  /** The layout of the screen: the about text and a blank first when there is
      one, then the Usage header, its lines and a blank, then the other groups. */
  lemma RenderHelpLayout(about: string, helpText: map<string, seq<string>>, order: seq<string>)
    ensures var lines := RenderHelp(about, helpText, order);
      var o := |Preamble(about)|; var usage := LinesOf(helpText, UsageGroup);
      && |lines| == o + 2 + |usage| + |RenderGroups(helpText, order)|
      && (about != "" ==> lines[..o] == [about, ""])
      && lines[o] == UsageGroup
      && lines[o + 1..o + 1 + |usage|] == usage
      && lines[o + 1 + |usage|] == ""
      && lines[o + 2 + |usage|..] == RenderGroups(helpText, order)
  {
    var pre := Preamble(about);
    var usage := [UsageGroup] + LinesOf(helpText, UsageGroup) + [""];
    var groups := RenderGroups(helpText, order);
    var lines := pre + usage + groups;
    assert lines == RenderHelp(about, helpText, order);
    assert lines[..|pre|] == pre;
    assert lines[|pre|..|pre| + |usage|] == usage;
    assert lines[|pre| + |usage|..] == groups;
    assert lines[|pre| + 1..|pre| + 1 + |LinesOf(helpText, UsageGroup)|] == usage[1..|usage| - 1];
  }

  /** `block` occurs in `r` starting at index `i`. */
  ghost predicate BlockAt(r: seq<string>, i: int, block: seq<string>)
  {
    0 <= i && i + |block| <= |r| && r[i..i + |block|] == block
  }

  /** A block stays where it is when more lines follow. */
  lemma BlockAtExtends(r: seq<string>, tail: seq<string>, i: int, block: seq<string>)
    requires BlockAt(r, i, block)
    ensures BlockAt(r + tail, i, block)
  {
    assert (r + tail)[i..i + |block|] == r[i..i + |block|];
  }

  /** Appending one group to the iteration order appends that group's block. */
  lemma {:induction false} RenderGroupsAppend(helpText: map<string, seq<string>>, order: seq<string>, g: string)
    ensures RenderGroups(helpText, order + [g]) == RenderGroups(helpText, order) + GroupBlock(helpText, g)
  {
    assert (order + [g])[..|order|] == order;
  }

  /** Every group other than Usage that the order visits appears as one
      contiguous block: its name, its lines, then a blank line. */
  lemma {:induction false} GroupBlockRendered(helpText: map<string, seq<string>>, order: seq<string>, g: string)
    requires g in order && g != UsageGroup
    ensures exists i :: BlockAt(RenderGroups(helpText, order), i, [g] + LinesOf(helpText, g) + [""])
  {
    var prefix := order[..|order| - 1];
    var last := order[|order| - 1];
    var lines := LinesOf(helpText, g);
    var r := RenderGroups(helpText, order);
    var front := RenderGroups(helpText, prefix);
    assert r == front + GroupBlock(helpText, last);
    if last == g {
      assert BlockAt(r, |front|, [g] + lines + [""]);
    } else {
      assert g in prefix by {
        var k :| 0 <= k < |order| && order[k] == g;
        assert k < |order| - 1 && prefix[k] == g;
      }
      GroupBlockRendered(helpText, prefix, g);
      var i :| BlockAt(front, i, [g] + lines + [""]);
      BlockAtExtends(front, GroupBlock(helpText, last), i, [g] + lines + [""]);
    }
  }

  /** Every line of every group the order visits is on the screen. */
  lemma {:induction false} RenderGroupsListsLines(helpText: map<string, seq<string>>, order: seq<string>, g: string, line: string)
    requires g in order && g != UsageGroup && line in LinesOf(helpText, g)
    ensures line in RenderGroups(helpText, order)
  {
    GroupBlockRendered(helpText, order, g);
    var r := RenderGroups(helpText, order);
    var lines := LinesOf(helpText, g);
    var i :| BlockAt(r, i, [g] + lines + [""]);
    var k :| 0 <= k < |lines| && lines[k] == line;
    assert r[i + 1 + k] == ([g] + lines + [""])[1 + k];
  }

  /** The name of every group other than Usage that the order visits is in the group blocks. */
  lemma RenderGroupsListsName(helpText: map<string, seq<string>>, order: seq<string>, g: string)
    requires g in order && g != UsageGroup
    ensures g in RenderGroups(helpText, order)
  {
    GroupBlockRendered(helpText, order, g);
    var groups := RenderGroups(helpText, order);
    var block := [g] + LinesOf(helpText, g) + [""];
    var i :| BlockAt(groups, i, block);
    assert groups[i] == block[0];
  }

  /** A recorded help line of any group is on the screen. */
  lemma LineOnScreen(about: string, helpText: map<string, seq<string>>, order: seq<string>, g: string, line: string)
    requires IsKeyOrder(order, helpText.Keys)
    requires g in helpText && line in helpText[g]
    ensures line in RenderHelp(about, helpText, order)
  {
    if g == UsageGroup {
      var usage := [UsageGroup] + LinesOf(helpText, UsageGroup) + [""];
      assert line in usage;
      assert RenderHelp(about, helpText, order) == Preamble(about) + usage + RenderGroups(helpText, order);
    } else {
      RenderGroupsListsLines(helpText, order, g, line);
      GroupLinesOnScreen(about, helpText, order, line);
    }
  }

  /** Every line of the group blocks is on the screen. */
  lemma GroupLinesOnScreen(about: string, helpText: map<string, seq<string>>, order: seq<string>, x: string)
    requires x in RenderGroups(helpText, order)
    ensures x in RenderHelp(about, helpText, order)
  {
    var usage := [UsageGroup] + LinesOf(helpText, UsageGroup) + [""];
    assert RenderHelp(about, helpText, order) == (Preamble(about) + usage) + RenderGroups(helpText, order);
  }

  /** The name of any group is on the screen. */
  lemma GroupOnScreen(about: string, helpText: map<string, seq<string>>, order: seq<string>, g: string)
    requires IsKeyOrder(order, helpText.Keys)
    requires g in helpText
    ensures g in RenderHelp(about, helpText, order)
  {
    if g == UsageGroup {
      var usage := [UsageGroup] + LinesOf(helpText, UsageGroup) + [""];
      assert usage[0] == g;
      assert RenderHelp(about, helpText, order) == Preamble(about) + usage + RenderGroups(helpText, order);
    } else {
      assert g in order;
      RenderGroupsListsName(helpText, order, g);
      GroupLinesOnScreen(about, helpText, order, g);
    }
  }

  /** Whatever order the map yields, the help screen lists every recorded help
      line of every group, and names every group. */
  lemma RenderHelpIsComplete(about: string, helpText: map<string, seq<string>>, order: seq<string>)
    requires IsKeyOrder(order, helpText.Keys)
    ensures forall g, line :: g in helpText && line in helpText[g] ==> line in RenderHelp(about, helpText, order)
    ensures forall g :: g in helpText ==> g in RenderHelp(about, helpText, order)
  {
    forall g, line | g in helpText && line in helpText[g]
      ensures line in RenderHelp(about, helpText, order)
    {
      LineOnScreen(about, helpText, order, g, line);
    }
    forall g | g in helpText
      ensures g in RenderHelp(about, helpText, order)
    {
      GroupOnScreen(about, helpText, order, g);
    }
  }
}
