/**
 * Input/output pairs from the converter's own test suite (src/lib.rs), stated
 * on the tree the parser builds for each markdown input. Long expected texts
 * are written as the concatenation of their lines.
 */
module Examples {
  import opened Wrappers
  import opened RustStr
  import opened Mdast
  import opened Blocks
  import opened Escaping
  import opened Rendering
  import opened RenderingProps

  /** A parsed document: the root with its top-level children. */
  function Doc(children: seq<Node>): Result<Node, string> {
    Success(OtherParent(children))
  }

  function Para(s: string): Node {
    Paragraph([Text(s)])
  }

  /** A list item holding one paragraph, as the parser builds it for `- s`. */
  function Item(checked: Option<bool>, s: string): Node {
    ListItem(checked, [Para(s)])
  }

  // ---------------------------------------------------------------------------
  // Unfolding helpers
  // ---------------------------------------------------------------------------

  lemma RenderOne(n: Node, level: nat)
    requires WellFormed(n)
    ensures Render([n], level) == RenderNode(n, level)
  {
    assert [n][..0] == [];
  }

  lemma RenderPara(s: string, level: nat)
    ensures Render([Para(s)], level) == s + "\n"
  {
    RenderOne(Para(s), level);
    RenderOne(Text(s), level);
  }

  lemma SegmentOne(c: Node)
    requires WellFormed(c)
    ensures Segment([c]) == ChildBlocks(c)
  {
    assert [c][..0] == [];
  }

  lemma ParaBlocks(s: string)
    ensures ChildBlocks(Para(s)) == [Section(s + "\n")]
  {
    RenderOne(Text(s), 0);
  }

  /** A document of one paragraph is one section holding the paragraph's line. */
  lemma ParagraphBlocks(s: string)
    ensures Blockify(Doc([Para(s)])) == Success([Section(s + "\n")])
  {
    SegmentOne(Para(s));
    ParaBlocks(s);
  }

  /** A document of one paragraph renders to the paragraph's text, trimmed and escaped. */
  lemma ParagraphTrimmed(s: string)
    requires s != [] && !IsWhitespace(s[0]) && !IsWhitespace(s[|s| - 1])
    ensures Mrkdwnify(Doc([Para(s)])) == Success(Escape(s))
  {
    MrkdwnifyDoc([Para(s)]);
    TrimParagraph(s);
  }

  lemma MrkdwnifyDoc(children: seq<Node>)
    requires AllWellFormed(children)
    ensures Mrkdwnify(Doc(children)) == Success(Escape(Trim(Render(children, 0))))
  {
  }

  lemma TrimParagraph(s: string)
    requires s != [] && !IsWhitespace(s[0]) && !IsWhitespace(s[|s| - 1])
    ensures Trim(Render([Para(s)], 0)) == s
  {
    RenderPara(s, 0);
    TrimSurrounded("", s, "\n");
    assert "" + s + "\n" == s + "\n";
  }

  /** Text holding nothing the escaping rewrites. */
  predicate Plain(t: string) {
    forall i :: 0 <= i < |t| ==> t[i] != '"' && t[i] != '&' && t[i] != '\n'
  }

  /** Text with nothing to escape that does not end in a literal `\n` is left as it is. */
  lemma EscapePlain(t: string)
    requires Plain(t)
    requires !EndsWith(t, "\\n")
    ensures Escape(t) == t
  {
    ChainIsOnePass(t);
    EscapeTextPlain(t);
  }

  lemma {:induction false} EscapeTextPlain(t: string)
    requires Plain(t)
    ensures EscapeText(t) == t
  {
    if t != [] {
      EscapeTextPlain(t[1..]);
    }
  }

  // ---------------------------------------------------------------------------
  // Escaping
  // ---------------------------------------------------------------------------

  lemma EscapeAmpersand() ensures Escape("&") == "&amp;" {
    assert EscapeChain("&") == "&amp;";
    assert !EndsWith("&amp;", "\\n");
  }

  /** `&` becomes `&amp;` in the flat text. */
  lemma EscapingAmpersandText()
    ensures Mrkdwnify(Doc([Para("&")])) == Success("&amp;")
  {
    ParagraphTrimmed("&");
    EscapeAmpersand();
  }

  /** `&` stays as it is in a section. */
  lemma EscapingAmpersandBlocks()
    ensures Blockify(Doc([Para("&")])) == Success([Section("&\n")])
  {
    ParagraphBlocks("&");
    assert "&" + "\n" == "&\n";
  }

  lemma EscapeQuote() ensures Escape("\"") == "\\\"" {
    assert EscapeChain("\"") == "\\\"";
    assert !EndsWith("\\\"", "\\n");
  }

  /** `"` gains a backslash in the flat text. */
  lemma EscapingQuoteText()
    ensures Mrkdwnify(Doc([Para("\"")])) == Success("\\\"")
  {
    ParagraphTrimmed("\"");
    EscapeQuote();
  }

  /** `"` stays as it is in a section. */
  lemma EscapingQuoteBlocks()
    ensures Blockify(Doc([Para("\"")])) == Success([Section("\"\n")])
  {
    ParagraphBlocks("\"");
    assert "\"" + "\n" == "\"\n";
  }

  // ---------------------------------------------------------------------------
  // Thematic breaks
  // ---------------------------------------------------------------------------

  lemma RenderDashes() ensures Render([ThematicBreak], 0) == "\n----------\n" {
    RenderOne(ThematicBreak, 0);
  }

  lemma TrimDashes() ensures Trim("\n----------\n") == "----------" {
    var d := "----------";
    assert d[0] == '-' && d[|d| - 1] == '-';
    TrimBetweenNewlines(d);
    assert "\n" + d + "\n" == "\n----------\n";
  }

  lemma TrimBetweenNewlines(s: string)
    requires s != [] && !IsWhitespace(s[0]) && !IsWhitespace(s[|s| - 1])
    ensures Trim("\n" + s + "\n") == s
  {
    TrimSurrounded("\n", s, "\n");
  }

  lemma EscapeDashes() ensures Escape("----------") == "----------" {
    EscapePlain("----------");
  }

  lemma ThematicBreakTrimmed()
    ensures Mrkdwnify(Doc([ThematicBreak])) == Success(Escape("----------"))
  {
    RenderDashes();
    TrimDashes();
  }

  /** `---` is ten dashes of flat text. */
  lemma ThematicBreakText()
    ensures Mrkdwnify(Doc([ThematicBreak])) == Success("----------")
  {
    ThematicBreakTrimmed();
    EscapeDashes();
  }

  /** `---` is a single divider block. */
  lemma ThematicBreakBlocks()
    ensures Blockify(Doc([ThematicBreak])) == Success([Divider])
  {
    SegmentOne(ThematicBreak);
  }

  // ---------------------------------------------------------------------------
  // Three-part documents
  // ---------------------------------------------------------------------------

  lemma RenderThree(a: Node, b: Node, c: Node, level: nat)
    requires WellFormed(a) && WellFormed(b) && WellFormed(c)
    ensures Render([a, b, c], level) == RenderNode(a, level) + RenderNode(b, level) + RenderNode(c, level)
  {
    assert [a, b, c][..2] == [a, b];
    assert [a, b][..1] == [a];
    RenderOne(a, level);
    assert Render([a, b], level) == Render([a], level) + RenderNode(b, level);
    assert Render([a, b, c], level) == Render([a, b], level) + RenderNode(c, level);
  }

  lemma SegmentThree(a: Node, b: Node, c: Node)
    requires WellFormed(a) && WellFormed(b) && WellFormed(c)
    ensures Segment([a, b, c]) == ChildBlocks(a) + ChildBlocks(b) + ChildBlocks(c)
  {
    assert [a, b, c][..2] == [a, b];
    assert [a, b][..1] == [a];
    SegmentOne(a);
    assert Segment([a, b]) == Segment([a]) + ChildBlocks(b);
    assert Segment([a, b, c]) == Segment([a, b]) + ChildBlocks(c);
  }

  /**
   * Escaping three plain lines joined by a run of newlines: only the
   * separators change, and nothing is stripped at the end.
   */
  lemma EscapeThreeLines(x1: string, x2: string, x3: string, sep: string, sepOut: string)
    requires Plain(x1) && Plain(x2) && Plain(x3)
    requires EscapeText(sep) == sepOut
    requires x3 != [] && x3[|x3| - 1] != 'n'
    ensures Escape(x1 + sep + x2 + sep + x3) == x1 + sepOut + x2 + sepOut + x3
  {
    var t := x1 + sep + x2 + sep + x3;
    EscapeTextPlain(x1);
    EscapeTextPlain(x2);
    EscapeTextPlain(x3);
    EscapeTextAppend(x1, sep);
    EscapeTextAppend(x1 + sep, x2);
    EscapeTextAppend(x1 + sep + x2, sep);
    EscapeTextAppend(x1 + sep + x2 + sep, x3);
    ChainIsOnePass(t);
    var e := x1 + sepOut + x2 + sepOut + x3;
    assert EscapeChain(t) == e;
    assert e[|e| - 1] == x3[|x3| - 1];
    assert !EndsWith(e, "\\n");
  }

  // ---------------------------------------------------------------------------
  // Headings
  // ---------------------------------------------------------------------------

  function Head(depth: nat, s: string): Node {
    Heading(depth, [Text(s)])
  }

  lemma HeadingBlocks(depth: nat, s: string)
    ensures depth == 1 ==> ChildBlocks(Head(depth, s)) == [Header(s), Divider]
    ensures depth != 1 ==> ChildBlocks(Head(depth, s)) == [Header(s)]
  {
    RenderOne(Text(s), 0);
  }

  lemma HeadingLine(depth: nat, s: string)
    ensures RenderNode(Head(depth, s), 0) == ("*" + s + "*") + "\n\n"
  {
    RenderOne(Text(s), 0);
    assert "*" + s + "*\n\n" == ("*" + s + "*") + "\n\n";
  }

  lemma HeadingsBlocksOf(s1: string, s2: string, s3: string)
    ensures Blockify(Doc([Head(1, s1), Head(2, s2), Head(3, s3)]))
         == Success([Header(s1), Divider, Header(s2), Header(s3)])
  {
    var hs := [Head(1, s1), Head(2, s2), Head(3, s3)];
    assert Blockify(Doc(hs)) == Success(Segment(hs));
    SegmentThree(Head(1, s1), Head(2, s2), Head(3, s3));
    HeadingBlocks(1, s1);
    HeadingBlocks(2, s2);
    HeadingBlocks(3, s3);
    assert [Header(s1), Divider] + [Header(s2)] + [Header(s3)] == [Header(s1), Divider, Header(s2), Header(s3)];
  }

  /** Only a level-one heading is followed by a divider. */
  lemma HeadingsBlocks()
    ensures Blockify(Doc([Head(1, "Heading 1"), Head(2, "Heading 2"), Head(3, "Heading 3")]))
         == Success([Header("Heading 1"), Divider, Header("Heading 2"), Header("Heading 3")])
  {
    HeadingsBlocksOf("Heading 1", "Heading 2", "Heading 3");
  }

  /** Trimming three lines joined and followed by the same whitespace separator. */
  lemma TrimThreeLines(x1: string, x2: string, x3: string, sep: string, tail: string)
    requires x1 != [] && !IsWhitespace(x1[0])
    requires x3 != [] && !IsWhitespace(x3[|x3| - 1])
    requires forall i :: 0 <= i < |tail| ==> IsWhitespace(tail[i])
    ensures Trim(x1 + sep + x2 + sep + x3 + tail) == x1 + sep + x2 + sep + x3
  {
    var body := x1 + sep + x2 + sep + x3;
    assert body[0] == x1[0];
    assert body[|body| - 1] == x3[|x3| - 1];
    TrimSurrounded("", body, tail);
    assert "" + body + tail == x1 + sep + x2 + sep + x3 + tail;
  }

  lemma HeadingsRendered(s1: string, s2: string, s3: string)
    ensures Render([Head(1, s1), Head(2, s2), Head(3, s3)], 0)
         == ("*" + s1 + "*") + "\n\n" + ("*" + s2 + "*") + "\n\n" + ("*" + s3 + "*") + "\n\n"
  {
    RenderThree(Head(1, s1), Head(2, s2), Head(3, s3), 0);
    HeadingLine(1, s1);
    HeadingLine(2, s2);
    HeadingLine(3, s3);
  }

  lemma HeadingsTrimmed(s1: string, s2: string, s3: string)
    ensures Trim(Render([Head(1, s1), Head(2, s2), Head(3, s3)], 0))
         == ("*" + s1 + "*") + "\n\n" + ("*" + s2 + "*") + "\n\n" + ("*" + s3 + "*")
  {
    HeadingsRendered(s1, s2, s3);
    var x1, x3 := "*" + s1 + "*", "*" + s3 + "*";
    assert x1[0] == '*' && x3[|x3| - 1] == '*';
    TrimThreeLines(x1, "*" + s2 + "*", x3, "\n\n", "\n\n");
  }

  lemma PlainBold(s: string)
    requires Plain(s)
    ensures Plain("*" + s + "*")
  {
  }

  lemma HeadingsEscaped(s1: string, s2: string, s3: string)
    requires Plain(s1) && Plain(s2) && Plain(s3)
    ensures Escape(("*" + s1 + "*") + "\n\n" + ("*" + s2 + "*") + "\n\n" + ("*" + s3 + "*"))
         == ("*" + s1 + "*") + "\\n\\n" + ("*" + s2 + "*") + "\\n\\n" + ("*" + s3 + "*")
  {
    PlainBold(s1);
    PlainBold(s2);
    PlainBold(s3);
    assert EscapeText("\n\n") == "\\n\\n";
    var x3 := "*" + s3 + "*";
    assert x3[|x3| - 1] == '*';
    EscapeThreeLines("*" + s1 + "*", "*" + s2 + "*", x3, "\n\n", "\\n\\n");
  }

  lemma HeadingsTextOf(s1: string, s2: string, s3: string)
    requires Plain(s1) && Plain(s2) && Plain(s3)
    ensures Mrkdwnify(Doc([Head(1, s1), Head(2, s2), Head(3, s3)]))
         == Success(("*" + s1 + "*") + "\\n\\n" + ("*" + s2 + "*") + "\\n\\n" + ("*" + s3 + "*"))
  {
    MrkdwnifyDoc([Head(1, s1), Head(2, s2), Head(3, s3)]);
    HeadingsTrimmed(s1, s2, s3);
    HeadingsEscaped(s1, s2, s3);
  }

  lemma PlainHeadings() ensures Plain("Heading 1") && Plain("Heading 2") && Plain("Heading 3") {}

  /** Each heading is bold and followed by an escaped blank line; the trim drops the last one. */
  lemma HeadingsText()
    ensures Mrkdwnify(Doc([Head(1, "Heading 1"), Head(2, "Heading 2"), Head(3, "Heading 3")]))
         == Success(("*" + "Heading 1" + "*") + "\\n\\n" + ("*" + "Heading 2" + "*") + "\\n\\n" + ("*" + "Heading 3" + "*"))
  {
    PlainHeadings();
    HeadingsTextOf("Heading 1", "Heading 2", "Heading 3");
  }

  // ---------------------------------------------------------------------------
  // Flat lists
  // ---------------------------------------------------------------------------

  /** No line break, and neither starting nor ending with whitespace. */
  predicate Word(t: string) {
    Plain(t) && t != [] && !IsWhitespace(t[0]) && !IsWhitespace(t[|t| - 1]) && t[|t| - 1] != 'n'
  }

  lemma MarkerIsPlain(ordered: bool, item: Node, index: nat)
    ensures var m := Marker(ordered, item, index); Plain(m) && m != [] && !IsWhitespace(m[0])
  {
    if ordered {
      var d := NatToDecimal(index + 1);
      assert Marker(ordered, item, index) == d + ".  ";
      assert forall i :: 0 <= i < |d| ==> IsDigit(d[i]);
    }
  }

  /** One pass of `replace("\n\n", "\n")` over a line ending in a blank line. */
  lemma LinePassesOnce(p: string)
    requires forall i :: 0 <= i < |p| ==> p[i] != '\n'
    ensures Replace(p + "\n\n", "\n\n", "\n") == p + "\n"
  {
    ReplaceSkip(p, "\n\n", "\n\n", "\n");
    assert Replace("\n\n", "\n\n", "\n") == "\n";
  }

  lemma TopItemLine(ordered: bool, c: Option<bool>, t: string, index: nat)
    ensures ItemLine(ordered, Item(c, t), index, 1) == Marker(ordered, Item(c, t), index) + t + "\n\n"
  {
    assert Indent(1) == "";
    RenderPara(t, 1);
  }

  lemma FlatItemLines(ordered: bool, items: seq<Node>)
    requires |items| == 3 && ListItemsOk(items)
    ensures ItemLines(ordered, items, 1, 3)
         == ItemLine(ordered, items[0], 0, 1) + ItemLine(ordered, items[1], 1, 1) + ItemLine(ordered, items[2], 2, 1)
  {
    assert ItemLines(ordered, items, 1, 1) == ItemLine(ordered, items[0], 0, 1);
    assert ItemLines(ordered, items, 1, 2) == ItemLines(ordered, items, 1, 1) + ItemLine(ordered, items[1], 1, 1);
  }

  function Items3(c1: Option<bool>, c2: Option<bool>, c3: Option<bool>, t1: string, t2: string, t3: string): seq<Node> {
    [Item(c1, t1), Item(c2, t2), Item(c3, t3)]
  }

  lemma ItemsOk(c1: Option<bool>, c2: Option<bool>, c3: Option<bool>, t1: string, t2: string, t3: string)
    ensures ListItemsOk(Items3(c1, c2, c3, t1, t2, t3))
  {
    var items := Items3(c1, c2, c3, t1, t2, t3);
    forall c | c in items ensures IsParent(c) && WellFormed(c) {
      assert c == items[0] || c == items[1] || c == items[2];
    }
  }

  /** The pass over two lines that each end in a blank line: the blank line goes from each. */
  lemma TwoLinesPass(a: string, p: string)
    requires forall i :: 0 <= i < |p| ==> p[i] != '\n'
    requires p != []
    ensures Replace(a + (p + "\n\n"), "\n\n", "\n") == Replace(a, "\n\n", "\n") + (p + "\n")
  {
    assert (p + "\n\n")[0] == p[0];
    ReplaceSplit(a, p + "\n\n", "\n\n", "\n");
    LinePassesOnce(p);
  }

  lemma FirstTwoLinesPass(p1: string, p2: string)
    requires forall i :: 0 <= i < |p1| ==> p1[i] != '\n'
    requires forall i :: 0 <= i < |p2| ==> p2[i] != '\n'
    requires p2 != []
    ensures Replace((p1 + "\n\n") + (p2 + "\n\n"), "\n\n", "\n") == (p1 + "\n") + (p2 + "\n")
  {
    LinePassesOnce(p1);
    TwoLinesPass(p1 + "\n\n", p2);
  }

  lemma ThreeLinesPass(p1: string, p2: string, p3: string)
    requires forall i :: 0 <= i < |p1| ==> p1[i] != '\n'
    requires forall i :: 0 <= i < |p2| ==> p2[i] != '\n'
    requires forall i :: 0 <= i < |p3| ==> p3[i] != '\n'
    requires p2 != [] && p3 != []
    ensures Replace((p1 + "\n\n") + (p2 + "\n\n") + (p3 + "\n\n"), "\n\n", "\n")
         == (p1 + "\n") + (p2 + "\n") + (p3 + "\n")
  {
    FirstTwoLinesPass(p1, p2);
    TwoLinesPass((p1 + "\n\n") + (p2 + "\n\n"), p3);
  }

  /**
   * A top-level list of three one-paragraph items: one line per item, its
   * marker then its text, and a blank line after the last.
   */
  lemma FlatListLines(ordered: bool, c1: Option<bool>, c2: Option<bool>, c3: Option<bool>, t1: string, t2: string, t3: string)
    ensures ListItemsOk(Items3(c1, c2, c3, t1, t2, t3))
    ensures ItemLines(ordered, Items3(c1, c2, c3, t1, t2, t3), 1, 3)
         == ((Marker(ordered, Item(c1, t1), 0) + t1) + "\n\n")
          + ((Marker(ordered, Item(c2, t2), 1) + t2) + "\n\n")
          + ((Marker(ordered, Item(c3, t3), 2) + t3) + "\n\n")
  {
    var items := Items3(c1, c2, c3, t1, t2, t3);
    ItemsOk(c1, c2, c3, t1, t2, t3);
    FlatItemLines(ordered, items);
    TopItemLine(ordered, c1, t1, 0);
    TopItemLine(ordered, c2, t2, 1);
    TopItemLine(ordered, c3, t3, 2);
  }

  /**
   * A top-level list of three one-paragraph items: one line per item, its
   * marker then its text, and a blank line after the last.
   */
  lemma FlatListOf(ordered: bool, c1: Option<bool>, c2: Option<bool>, c3: Option<bool>, t1: string, t2: string, t3: string)
    requires Plain(t1) && Plain(t2) && Plain(t3)
    ensures ListItemsOk(Items3(c1, c2, c3, t1, t2, t3))
    ensures RenderList(ordered, Items3(c1, c2, c3, t1, t2, t3), 0)
         == (Marker(ordered, Item(c1, t1), 0) + t1) + "\n"
          + (Marker(ordered, Item(c2, t2), 1) + t2) + "\n"
          + (Marker(ordered, Item(c3, t3), 2) + t3) + "\n" + "\n"
  {
    FlatListLines(ordered, c1, c2, c3, t1, t2, t3);
    var m1, m2, m3 := Marker(ordered, Item(c1, t1), 0), Marker(ordered, Item(c2, t2), 1), Marker(ordered, Item(c3, t3), 2);
    MarkerIsPlain(ordered, Item(c1, t1), 0);
    MarkerIsPlain(ordered, Item(c2, t2), 1);
    MarkerIsPlain(ordered, Item(c3, t3), 2);
    PlainAppend(m1, t1);
    PlainAppend(m2, t2);
    PlainAppend(m3, t3);
    FlatPass(m1 + t1, m2 + t2, m3 + t3, ItemLines(ordered, Items3(c1, c2, c3, t1, t2, t3), 1, 3));
  }

  /** The collapsing pass and the final newline over three plain lines that each end in a blank line. */
  lemma FlatPass(p1: string, p2: string, p3: string, lines: string)
    requires Plain(p1) && Plain(p2) && Plain(p3) && p2 != [] && p3 != []
    requires lines == (p1 + "\n\n") + (p2 + "\n\n") + (p3 + "\n\n")
    ensures Replace(lines, "\n\n", "\n") + "\n" == p1 + "\n" + p2 + "\n" + p3 + "\n" + "\n"
  {
    ThreeLinesPass(p1, p2, p3);
    Regroup(p1, p2, p3);
  }

  lemma ListBlocksOf(ordered: bool, items: seq<Node>)
    requires ListItemsOk(items)
    ensures Blockify(Doc([List(ordered, items)])) == Success([Section(RenderList(ordered, items, 0))])
  {
    SegmentOne(List(ordered, items));
  }

  lemma PlainAppend(a: string, b: string)
    requires Plain(a) && Plain(b)
    ensures Plain(a + b)
  {
    assert forall i :: |a| <= i < |a + b| ==> (a + b)[i] == b[i - |a|];
  }

  lemma FlatListTrimmed(x1: string, x2: string, x3: string)
    requires x1 != [] && !IsWhitespace(x1[0])
    requires x3 != [] && !IsWhitespace(x3[|x3| - 1])
    ensures Trim(x1 + "\n" + x2 + "\n" + x3 + "\n" + "\n") == x1 + "\n" + x2 + "\n" + x3
  {
    TrimThreeLines(x1, x2, x3, "\n", "\n\n");
    assert x1 + "\n" + x2 + "\n" + x3 + "\n" + "\n" == x1 + "\n" + x2 + "\n" + x3 + "\n\n";
  }

  lemma FlatListRenderedLines(ordered: bool, c1: Option<bool>, c2: Option<bool>, c3: Option<bool>, t1: string, t2: string, t3: string)
    requires Plain(t1) && Plain(t2) && Plain(t3)
    ensures AllWellFormed([List(ordered, Items3(c1, c2, c3, t1, t2, t3))])
    ensures Render([List(ordered, Items3(c1, c2, c3, t1, t2, t3))], 0)
         == (Marker(ordered, Item(c1, t1), 0) + t1) + "\n"
          + (Marker(ordered, Item(c2, t2), 1) + t2) + "\n"
          + (Marker(ordered, Item(c3, t3), 2) + t3) + "\n" + "\n"
  {
    ItemsOk(c1, c2, c3, t1, t2, t3);
    RenderOne(List(ordered, Items3(c1, c2, c3, t1, t2, t3)), 0);
    FlatListOf(ordered, c1, c2, c3, t1, t2, t3);
  }

  lemma FlatListRendered(ordered: bool, c1: Option<bool>, c2: Option<bool>, c3: Option<bool>, t1: string, t2: string, t3: string)
    requires Plain(t1) && Plain(t2) && Word(t3)
    ensures AllWellFormed([List(ordered, Items3(c1, c2, c3, t1, t2, t3))])
    ensures Trim(Render([List(ordered, Items3(c1, c2, c3, t1, t2, t3))], 0))
         == (Marker(ordered, Item(c1, t1), 0) + t1) + "\n"
          + (Marker(ordered, Item(c2, t2), 1) + t2) + "\n"
          + (Marker(ordered, Item(c3, t3), 2) + t3)
  {
    FlatListRenderedLines(ordered, c1, c2, c3, t1, t2, t3);
    var m1, m3 := Marker(ordered, Item(c1, t1), 0), Marker(ordered, Item(c3, t3), 2);
    var x1, x3 := m1 + t1, m3 + t3;
    assert x1[0] == m1[0];
    assert x3[|x3| - 1] == t3[|t3| - 1];
    FlatListTrimmed(x1, Marker(ordered, Item(c2, t2), 1) + t2, x3);
  }

  lemma FlatListEscaped(ordered: bool, c1: Option<bool>, c2: Option<bool>, c3: Option<bool>, t1: string, t2: string, t3: string)
    requires Plain(t1) && Plain(t2) && Word(t3)
    ensures var x1, x2, x3 := Marker(ordered, Item(c1, t1), 0) + t1, Marker(ordered, Item(c2, t2), 1) + t2, Marker(ordered, Item(c3, t3), 2) + t3;
            Escape(x1 + "\n" + x2 + "\n" + x3) == x1 + "\\n" + x2 + "\\n" + x3
  {
    var m1, m2, m3 := Marker(ordered, Item(c1, t1), 0), Marker(ordered, Item(c2, t2), 1), Marker(ordered, Item(c3, t3), 2);
    MarkerIsPlain(ordered, Item(c1, t1), 0);
    MarkerIsPlain(ordered, Item(c2, t2), 1);
    MarkerIsPlain(ordered, Item(c3, t3), 2);
    PlainAppend(m1, t1);
    PlainAppend(m2, t2);
    PlainAppend(m3, t3);
    var x3 := m3 + t3;
    assert x3[|x3| - 1] == t3[|t3| - 1];
    assert EscapeText("\n") == "\\n";
    EscapeThreeLines(m1 + t1, m2 + t2, x3, "\n", "\\n");
  }

  /** The flat text of a three-item list: the item lines joined by escaped newlines. */
  lemma FlatListTextOf(ordered: bool, c1: Option<bool>, c2: Option<bool>, c3: Option<bool>, t1: string, t2: string, t3: string)
    requires Plain(t1) && Plain(t2) && Word(t3)
    ensures ListItemsOk(Items3(c1, c2, c3, t1, t2, t3))
    ensures Mrkdwnify(Doc([List(ordered, Items3(c1, c2, c3, t1, t2, t3))]))
         == Success((Marker(ordered, Item(c1, t1), 0) + t1) + "\\n"
                  + (Marker(ordered, Item(c2, t2), 1) + t2) + "\\n"
                  + (Marker(ordered, Item(c3, t3), 2) + t3))
  {
    ItemsOk(c1, c2, c3, t1, t2, t3);
    MrkdwnifyDoc([List(ordered, Items3(c1, c2, c3, t1, t2, t3))]);
    FlatListRendered(ordered, c1, c2, c3, t1, t2, t3);
    FlatListEscaped(ordered, c1, c2, c3, t1, t2, t3);
  }

  lemma BulletMarker(c: Option<bool>, t: string, index: nat)
    ensures c == None ==> Marker(false, Item(c, t), index) == "\U{2022}   "
    ensures c == Some(true) ==> Marker(false, Item(c, t), index) == "\U{2611}   "
    ensures c == Some(false) ==> Marker(false, Item(c, t), index) == "\U{2610}   "
  {
  }

  lemma OrdinalMarkers(item: Node)
    ensures Marker(true, item, 0) == "1.  "
    ensures Marker(true, item, 1) == "2.  "
    ensures Marker(true, item, 2) == "3.  "
  {
    assert NatToDecimal(1) == ['1'];
    assert NatToDecimal(2) == ['2'];
    assert NatToDecimal(3) == ['3'];
  }

  lemma ItemTexts() ensures Plain("First") && Plain("Second") && Word("Third") {}

  /** `- First\n- Second\n- Third`: bullet lines, a blank line after the last. */
  lemma ListsBlocks()
    ensures ListItemsOk(Items3(None, None, None, "First", "Second", "Third"))
    ensures Blockify(Doc([List(false, Items3(None, None, None, "First", "Second", "Third"))]))
         == Success([Section(("\U{2022}   " + "First") + "\n" + ("\U{2022}   " + "Second") + "\n"
                           + ("\U{2022}   " + "Third") + "\n" + "\n")])
  {
    ItemTexts();
    FlatListOf(false, None, None, None, "First", "Second", "Third");
    ListBlocksOf(false, Items3(None, None, None, "First", "Second", "Third"));
    BulletMarker(None, "First", 0);
    BulletMarker(None, "Second", 1);
    BulletMarker(None, "Third", 2);
  }

  lemma ListsText()
    ensures ListItemsOk(Items3(None, None, None, "First", "Second", "Third"))
    ensures Mrkdwnify(Doc([List(false, Items3(None, None, None, "First", "Second", "Third"))]))
         == Success(("\U{2022}   " + "First") + "\\n" + ("\U{2022}   " + "Second") + "\\n" + ("\U{2022}   " + "Third"))
  {
    ItemTexts();
    FlatListTextOf(false, None, None, None, "First", "Second", "Third");
    BulletMarker(None, "First", 0);
    BulletMarker(None, "Second", 1);
    BulletMarker(None, "Third", 2);
  }

  /** `1. First\n1. Second\n1. Third`: the items are numbered from 1 whatever the source numbers. */
  lemma OrderedListsBlocks()
    ensures ListItemsOk(Items3(None, None, None, "First", "Second", "Third"))
    ensures Blockify(Doc([List(true, Items3(None, None, None, "First", "Second", "Third"))]))
         == Success([Section(("1.  " + "First") + "\n" + ("2.  " + "Second") + "\n" + ("3.  " + "Third") + "\n" + "\n")])
  {
    ItemTexts();
    FlatListOf(true, None, None, None, "First", "Second", "Third");
    ListBlocksOf(true, Items3(None, None, None, "First", "Second", "Third"));
    OrdinalMarkers(Item(None, "First"));
    OrdinalMarkers(Item(None, "Second"));
    OrdinalMarkers(Item(None, "Third"));
  }

  lemma OrderedListsText()
    ensures ListItemsOk(Items3(None, None, None, "First", "Second", "Third"))
    ensures Mrkdwnify(Doc([List(true, Items3(None, None, None, "First", "Second", "Third"))]))
         == Success(("1.  " + "First") + "\\n" + ("2.  " + "Second") + "\\n" + ("3.  " + "Third"))
  {
    ItemTexts();
    FlatListTextOf(true, None, None, None, "First", "Second", "Third");
    OrdinalMarkers(Item(None, "First"));
    OrdinalMarkers(Item(None, "Second"));
    OrdinalMarkers(Item(None, "Third"));
  }

  /** `- [ ] First\n- [x] Second\n- [ ] Third`: a ballot box, checked or not, for each task. */
  lemma TaskListsBlocks()
    ensures ListItemsOk(Items3(Some(false), Some(true), Some(false), "First", "Second", "Third"))
    ensures Blockify(Doc([List(false, Items3(Some(false), Some(true), Some(false), "First", "Second", "Third"))]))
         == Success([Section(("\U{2610}   " + "First") + "\n" + ("\U{2611}   " + "Second") + "\n"
                           + ("\U{2610}   " + "Third") + "\n" + "\n")])
  {
    ItemTexts();
    FlatListOf(false, Some(false), Some(true), Some(false), "First", "Second", "Third");
    ListBlocksOf(false, Items3(Some(false), Some(true), Some(false), "First", "Second", "Third"));
    BulletMarker(Some(false), "First", 0);
    BulletMarker(Some(true), "Second", 1);
    BulletMarker(Some(false), "Third", 2);
  }

  lemma TaskListsText()
    ensures ListItemsOk(Items3(Some(false), Some(true), Some(false), "First", "Second", "Third"))
    ensures Mrkdwnify(Doc([List(false, Items3(Some(false), Some(true), Some(false), "First", "Second", "Third"))]))
         == Success(("\U{2610}   " + "First") + "\\n" + ("\U{2611}   " + "Second") + "\\n" + ("\U{2610}   " + "Third"))
  {
    ItemTexts();
    FlatListTextOf(false, Some(false), Some(true), Some(false), "First", "Second", "Third");
    BulletMarker(Some(false), "First", 0);
    BulletMarker(Some(true), "Second", 1);
    BulletMarker(Some(false), "Third", 2);
  }

  // ---------------------------------------------------------------------------
  // Edge cases
  // ---------------------------------------------------------------------------

  lemma EmptyEscaped() ensures Escape("") == "" {
    ChainIsOnePass("");
  }

  /** A document without content is an empty text, not the "no input?" error. */
  lemma EmptyDocumentText()
    ensures Mrkdwnify(Doc([])) == Success("")
  {
    MrkdwnifyDoc([]);
    assert Trim("") == "";
    EmptyEscaped();
  }

  /** A document without content is an empty list of blocks. */
  lemma EmptyDocumentBlocks()
    ensures Blockify(Doc([])) == Success([])
  {
    assert Segment([]) == [];
  }

  lemma EscapeRealNewline() ensures Escape("a\nb") == "a\\nb" {
    ChainIsOnePass("a\nb");
    assert EscapeText("a\nb") == "a\\nb";
    assert !EndsWith("a\\nb", "\\n");
  }

  lemma EscapeLiteralNewline() ensures Escape("a\\nb") == "a\\nb" {
    assert Plain("a\\nb");
    assert !EndsWith("a\\nb", "\\n");
    EscapePlain("a\\nb");
  }

  /**
   * A line break inside a paragraph and the two characters `\n` written by
   * the author come out alike: the flat text cannot tell them apart.
   */
  lemma NewlineConflated()
    ensures Mrkdwnify(Doc([Para("a\nb")])) == Mrkdwnify(Doc([Para("a\\nb")])) == Success("a\\nb")
  {
    ParagraphTrimmed("a\nb");
    EscapeRealNewline();
    ParagraphTrimmed("a\\nb");
    EscapeLiteralNewline();
  }

  /** One literal `\n` at the end of otherwise plain text is stripped. */
  lemma EscapeStripsTrailing(t: string)
    requires Plain(t) && !EndsWith(t, "\\n")
    ensures Escape(t + "\\n") == t
  {
    var s := t + "\\n";
    PlainAppend(t, "\\n");
    ChainIsOnePass(s);
    EscapeTextPlain(s);
    assert EscapeChain(s) == s;
    assert EndsWith(s, "\\n") && s[..|s| - 2] == t;
    assert TrimEndMatches(s, "\\n") == TrimEndMatches(t, "\\n");
    assert TrimEndMatches(t, "\\n") == t;
  }

  lemma EscapeTrailingLiteral() ensures Escape("done\\n") == "done" {
    assert Plain("done") && !EndsWith("done", "\\n");
    EscapeStripsTrailing("done");
    assert "done" + "\\n" == "done\\n";
  }

  /** A `\n` the author wrote at the very end of the text is removed with the escaped line breaks. */
  lemma TrailingLiteralNewlineDropped()
    ensures Mrkdwnify(Doc([Para("done\\n")])) == Success("done")
  {
    ParagraphTrimmed("done\\n");
    EscapeTrailingLiteral();
  }

  // ---------------------------------------------------------------------------
  // Nested lists
  // ---------------------------------------------------------------------------

  /** The start of a bullet line at nesting depth `d`. */
  function Bul(d: nat): string
    requires d >= 1
  {
    Indent(d) + "\U{2022}   "
  }

  /** An item holding a paragraph and a nested list. */
  function Nest(t: string, sub: Node): Node {
    ListItem(None, [Para(t), sub])
  }

  /** Text without a line break. */
  predicate Line(p: string) {
    p != [] && forall i :: 0 <= i < |p| ==> p[i] != '\n'
  }

  lemma BulLine(d: nat, t: string)
    requires d >= 1 && Plain(t)
    ensures Line(Bul(d) + t)
  {
    var b := Bul(d);
    assert forall i :: 0 <= i < |b| ==> b[i] != '\n';
    assert forall i :: |b| <= i < |b + t| ==> (b + t)[i] == t[i - |b|];
  }

  lemma NewlinePasses()
    ensures Replace("\n", "\n\n", "\n") == "\n"
    ensures Replace("\n\n", "\n\n", "\n") == "\n"
    ensures Replace("\n\n\n", "\n\n", "\n") == "\n\n"
    ensures Replace("\n\n\n\n", "\n\n", "\n") == "\n\n"
  {
  }

  /** A line and the newlines after it: the pass only touches the newlines. */
  lemma SegmentPass(p: string, nl: string, out: string)
    requires Line(p) && Replace(nl, "\n\n", "\n") == out
    ensures Replace(p + nl, "\n\n", "\n") == p + out
  {
    ReplaceSkip(p, nl, "\n\n", "\n");
  }

  /** No occurrence straddles the start of a line. */
  lemma AppendSegment(a: string, p: string, nl: string, out: string)
    requires Line(p) && Replace(nl, "\n\n", "\n") == out
    ensures Replace(a + (p + nl), "\n\n", "\n") == Replace(a, "\n\n", "\n") + (p + out)
  {
    assert (p + nl)[0] == p[0];
    ReplaceSplit(a, p + nl, "\n\n", "\n");
    SegmentPass(p, nl, out);
  }

  lemma BulletItemLine(t: string, index: nat, d: nat)
    requires d >= 1
    ensures ItemLine(false, Item(None, t), index, d) == (Bul(d) + t) + "\n\n"
  {
    BulletMarker(None, t, index);
    RenderPara(t, d);
  }

  lemma NestItemLine(t: string, sub: Node, index: nat, d: nat)
    requires d >= 1 && WellFormed(sub)
    ensures IsParent(Nest(t, sub)) && WellFormed(Nest(t, sub))
    ensures ItemLine(false, Nest(t, sub), index, d) == (Bul(d) + t) + "\n" + RenderNode(sub, d) + "\n"
  {
    var m := Marker(false, Nest(t, sub), index);
    BulletMarker(None, t, index);
    assert Bul(d) == Indent(d) + m;
    assert [Para(t), sub][..1] == [Para(t)];
    RenderPara(t, d);
    assert Render([Para(t), sub], d) == (t + "\n") + RenderNode(sub, d);
    RegroupItem(Indent(d), m, t, RenderNode(sub, d));
  }

  lemma InnerOne(t: string, level: nat)
    requires Plain(t)
    ensures ListItemsOk([Item(None, t)])
    ensures RenderList(false, [Item(None, t)], level) == (Bul(level + 1) + t) + "\n" + "\n"
  {
    var d := level + 1;
    forall c | c in [Item(None, t)] ensures IsParent(c) && WellFormed(c) {
      assert c == Item(None, t);
    }
    assert ItemLines(false, [Item(None, t)], d, 1) == ItemLine(false, Item(None, t), 0, d);
    BulletItemLine(t, 0, d);
    BulLine(d, t);
    NewlinePasses();
    SegmentPass(Bul(d) + t, "\n\n", "\n");
  }

  lemma InnerTwoLines(t: string, u: string, d: nat)
    requires d >= 1
    ensures ListItemsOk([Item(None, t), Item(None, u)])
    ensures ItemLines(false, [Item(None, t), Item(None, u)], d, 2)
         == ((Bul(d) + t) + "\n\n") + ((Bul(d) + u) + "\n\n")
  {
    var items := [Item(None, t), Item(None, u)];
    forall c | c in items ensures IsParent(c) && WellFormed(c) {
      assert c == items[0] || c == items[1];
    }
    assert ItemLines(false, items, d, 1) == ItemLine(false, items[0], 0, d);
    assert ItemLines(false, items, d, 2) == ItemLines(false, items, d, 1) + ItemLine(false, items[1], 1, d);
    BulletItemLine(t, 0, d);
    BulletItemLine(u, 1, d);
  }

  lemma InnerTwo(t: string, u: string, level: nat)
    requires Plain(t) && Plain(u)
    ensures ListItemsOk([Item(None, t), Item(None, u)])
    ensures RenderList(false, [Item(None, t), Item(None, u)], level)
         == (Bul(level + 1) + t) + "\n" + (Bul(level + 1) + u) + "\n" + "\n"
  {
    var d := level + 1;
    InnerTwoLines(t, u, d);
    BulLine(d, t);
    BulLine(d, u);
    NewlinePasses();
    SegmentPass(Bul(d) + t, "\n\n", "\n");
    AppendSegment((Bul(d) + t) + "\n\n", Bul(d) + u, "\n\n", "\n");
  }

  function Sub3a(t3: string): Node {
    List(false, [Item(None, t3)])
  }

  function Sub3b(t5: string, t6: string): Node {
    List(false, [Item(None, t5), Item(None, t6)])
  }

  /** The second-level items of the nested-list test: each holds a third-level list. */
  function MidItems(t2: string, t3: string, t4: string, t5: string, t6: string): seq<Node> {
    [Nest(t2, Sub3a(t3)), Nest(t4, Sub3b(t5, t6))]
  }

  function TopItems(t1: string, t2: string, t3: string, t4: string, t5: string, t6: string, t7: string): seq<Node> {
    [Nest(t1, List(false, MidItems(t2, t3, t4, t5, t6))), Item(None, t7)]
  }

  lemma MidFirstLine(t2: string, t3: string)
    requires Plain(t3)
    ensures IsParent(Nest(t2, Sub3a(t3))) && WellFormed(Nest(t2, Sub3a(t3)))
    ensures ItemLine(false, Nest(t2, Sub3a(t3)), 0, 2) == ((Bul(2) + t2) + "\n") + ((Bul(3) + t3) + "\n\n\n")
  {
    InnerOne(t3, 2);
    NestItemLine(t2, Sub3a(t3), 0, 2);
    assert RenderNode(Sub3a(t3), 2) == RenderList(false, [Item(None, t3)], 2);
    RegroupOne(Bul(2) + t2, Bul(3) + t3);
  }

  lemma MidSecondLine(t4: string, t5: string, t6: string)
    requires Plain(t5) && Plain(t6)
    ensures IsParent(Nest(t4, Sub3b(t5, t6))) && WellFormed(Nest(t4, Sub3b(t5, t6)))
    ensures ItemLine(false, Nest(t4, Sub3b(t5, t6)), 1, 2)
         == ((Bul(2) + t4) + "\n") + ((Bul(3) + t5) + "\n") + ((Bul(3) + t6) + "\n\n\n")
  {
    InnerTwo(t5, t6, 2);
    NestItemLine(t4, Sub3b(t5, t6), 1, 2);
    assert RenderNode(Sub3b(t5, t6), 2) == RenderList(false, [Item(None, t5), Item(None, t6)], 2);
    RegroupTwo(Bul(2) + t4, Bul(3) + t5, Bul(3) + t6);
  }

  lemma MidItemLines(t2: string, t3: string, t4: string, t5: string, t6: string)
    requires Plain(t3) && Plain(t5) && Plain(t6)
    ensures ListItemsOk(MidItems(t2, t3, t4, t5, t6))
    ensures ItemLines(false, MidItems(t2, t3, t4, t5, t6), 2, 2)
         == ((Bul(2) + t2) + "\n") + ((Bul(3) + t3) + "\n\n\n")
          + ((Bul(2) + t4) + "\n") + ((Bul(3) + t5) + "\n") + ((Bul(3) + t6) + "\n\n\n")
  {
    var items := MidItems(t2, t3, t4, t5, t6);
    MidFirstLine(t2, t3);
    MidSecondLine(t4, t5, t6);
    forall c | c in items ensures IsParent(c) && WellFormed(c) {
      assert c == items[0] || c == items[1];
    }
    assert ItemLines(false, items, 2, 1) == ItemLine(false, items[0], 0, 2);
    assert ItemLines(false, items, 2, 2) == ItemLines(false, items, 2, 1) + ItemLine(false, items[1], 1, 2);
  }

  lemma MidList(t2: string, t3: string, t4: string, t5: string, t6: string)
    requires Plain(t2) && Plain(t3) && Plain(t4) && Plain(t5) && Plain(t6)
    ensures ListItemsOk(MidItems(t2, t3, t4, t5, t6))
    ensures RenderList(false, MidItems(t2, t3, t4, t5, t6), 1)
         == ((Bul(2) + t2) + "\n") + ((Bul(3) + t3) + "\n\n")
          + ((Bul(2) + t4) + "\n") + ((Bul(3) + t5) + "\n") + ((Bul(3) + t6) + "\n\n") + "\n"
  {
    MidItemLines(t2, t3, t4, t5, t6);
    BulLine(2, t2);
    BulLine(3, t3);
    BulLine(2, t4);
    BulLine(3, t5);
    BulLine(3, t6);
    NewlinePasses();
    var s1 := (Bul(2) + t2) + "\n";
    SegmentPass(Bul(2) + t2, "\n", "\n");
    var s2 := s1 + ((Bul(3) + t3) + "\n\n\n");
    AppendSegment(s1, Bul(3) + t3, "\n\n\n", "\n\n");
    var s3 := s2 + ((Bul(2) + t4) + "\n");
    AppendSegment(s2, Bul(2) + t4, "\n", "\n");
    var s4 := s3 + ((Bul(3) + t5) + "\n");
    AppendSegment(s3, Bul(3) + t5, "\n", "\n");
    AppendSegment(s4, Bul(3) + t6, "\n\n\n", "\n\n");
  }

  lemma TopFirstLine(t1: string, t2: string, t3: string, t4: string, t5: string, t6: string)
    requires Plain(t2) && Plain(t3) && Plain(t4) && Plain(t5) && Plain(t6)
    ensures IsParent(Nest(t1, List(false, MidItems(t2, t3, t4, t5, t6))))
    ensures WellFormed(Nest(t1, List(false, MidItems(t2, t3, t4, t5, t6))))
    ensures ItemLine(false, Nest(t1, List(false, MidItems(t2, t3, t4, t5, t6))), 0, 1)
         == ((Bul(1) + t1) + "\n") + ((Bul(2) + t2) + "\n") + ((Bul(3) + t3) + "\n\n")
          + ((Bul(2) + t4) + "\n") + ((Bul(3) + t5) + "\n") + ((Bul(3) + t6) + "\n\n\n\n")
  {
    MidList(t2, t3, t4, t5, t6);
    NestItemLine(t1, List(false, MidItems(t2, t3, t4, t5, t6)), 0, 1);
    assert RenderNode(List(false, MidItems(t2, t3, t4, t5, t6)), 1) == RenderList(false, MidItems(t2, t3, t4, t5, t6), 1);
    RegroupNested(Bul(1) + t1, (Bul(2) + t2) + "\n", (Bul(3) + t3) + "\n\n", (Bul(2) + t4) + "\n", (Bul(3) + t5) + "\n", Bul(3) + t6);
  }

  lemma TopItemLines(t1: string, t2: string, t3: string, t4: string, t5: string, t6: string, t7: string)
    requires Plain(t2) && Plain(t3) && Plain(t4) && Plain(t5) && Plain(t6)
    ensures ListItemsOk(TopItems(t1, t2, t3, t4, t5, t6, t7))
    ensures ItemLines(false, TopItems(t1, t2, t3, t4, t5, t6, t7), 1, 2)
         == ((Bul(1) + t1) + "\n") + ((Bul(2) + t2) + "\n") + ((Bul(3) + t3) + "\n\n")
          + ((Bul(2) + t4) + "\n") + ((Bul(3) + t5) + "\n") + ((Bul(3) + t6) + "\n\n\n\n")
          + ((Bul(1) + t7) + "\n\n")
  {
    var items := TopItems(t1, t2, t3, t4, t5, t6, t7);
    TopFirstLine(t1, t2, t3, t4, t5, t6);
    BulletItemLine(t7, 1, 1);
    forall c | c in items ensures IsParent(c) && WellFormed(c) {
      assert c == items[0] || c == items[1];
    }
    assert ItemLines(false, items, 1, 1) == ItemLine(false, items[0], 0, 1);
    assert ItemLines(false, items, 1, 2) == ItemLines(false, items, 1, 1) + ItemLine(false, items[1], 1, 1);
  }

  /**
   * The nested list of three levels: one line per item indented four spaces
   * per level, the blank lines the inner lists leave squeezed out by the
   * passes of the enclosing lists, except the one after the second level.
   */
  lemma TopList(t1: string, t2: string, t3: string, t4: string, t5: string, t6: string, t7: string)
    requires Plain(t1) && Plain(t2) && Plain(t3) && Plain(t4) && Plain(t5) && Plain(t6) && Plain(t7)
    ensures ListItemsOk(TopItems(t1, t2, t3, t4, t5, t6, t7))
    ensures RenderList(false, TopItems(t1, t2, t3, t4, t5, t6, t7), 0)
         == ((Bul(1) + t1) + "\n") + ((Bul(2) + t2) + "\n") + ((Bul(3) + t3) + "\n")
          + ((Bul(2) + t4) + "\n") + ((Bul(3) + t5) + "\n") + ((Bul(3) + t6) + "\n\n")
          + ((Bul(1) + t7) + "\n") + "\n"
  {
    TopItemLines(t1, t2, t3, t4, t5, t6, t7);
    BulLine(1, t1);
    BulLine(2, t2);
    BulLine(3, t3);
    BulLine(2, t4);
    BulLine(3, t5);
    BulLine(3, t6);
    BulLine(1, t7);
    NewlinePasses();
    var s1 := (Bul(1) + t1) + "\n";
    SegmentPass(Bul(1) + t1, "\n", "\n");
    var s2 := s1 + ((Bul(2) + t2) + "\n");
    AppendSegment(s1, Bul(2) + t2, "\n", "\n");
    var s3 := s2 + ((Bul(3) + t3) + "\n\n");
    AppendSegment(s2, Bul(3) + t3, "\n\n", "\n");
    var s4 := s3 + ((Bul(2) + t4) + "\n");
    AppendSegment(s3, Bul(2) + t4, "\n", "\n");
    var s5 := s4 + ((Bul(3) + t5) + "\n");
    AppendSegment(s4, Bul(3) + t5, "\n", "\n");
    var s6 := s5 + ((Bul(3) + t6) + "\n\n\n\n");
    AppendSegment(s5, Bul(3) + t6, "\n\n\n\n", "\n\n");
    AppendSegment(s6, Bul(1) + t7, "\n\n", "\n");
  }

  lemma BulPlain(d: nat, t: string)
    requires d >= 1 && Plain(t)
    ensures Plain(Bul(d) + t)
    ensures !IsWhitespace((Bul(d) + t)[0]) || d > 1
  {
    var b := Bul(d);
    assert forall i :: 0 <= i < |b| ==> b[i] == ' ' || b[i] == '\U{2022}';
    PlainAppend(b, t);
    if d == 1 {
      assert Indent(1) == "";
    }
  }

  /** Escaping a line and the newlines after it escapes only the newlines. */
  lemma EscapeAppendSegment(a: string, p: string, nl: string, out: string)
    requires Plain(p) && EscapeText(nl) == out
    ensures EscapeText(a + (p + nl)) == EscapeText(a) + (p + out)
  {
    EscapeTextAppend(a, p + nl);
    EscapeTextAppend(p, nl);
    EscapeTextPlain(p);
  }

  function NestedLines(t1: string, t2: string, t3: string, t4: string, t5: string, t6: string, nl: string, dnl: string): string {
    ((Bul(1) + t1) + nl) + ((Bul(2) + t2) + nl) + ((Bul(3) + t3) + nl)
    + ((Bul(2) + t4) + nl) + ((Bul(3) + t5) + nl) + ((Bul(3) + t6) + dnl)
  }

  lemma NestedRendered(t1: string, t2: string, t3: string, t4: string, t5: string, t6: string, t7: string)
    requires Plain(t1) && Plain(t2) && Plain(t3) && Plain(t4) && Plain(t5) && Plain(t6) && Plain(t7)
    ensures AllWellFormed([List(false, TopItems(t1, t2, t3, t4, t5, t6, t7))])
    ensures Render([List(false, TopItems(t1, t2, t3, t4, t5, t6, t7))], 0)
         == NestedLines(t1, t2, t3, t4, t5, t6, "\n", "\n\n") + ((Bul(1) + t7) + "\n") + "\n"
  {
    TopList(t1, t2, t3, t4, t5, t6, t7);
    RenderOne(List(false, TopItems(t1, t2, t3, t4, t5, t6, t7)), 0);
  }

  /** Trimming drops the two newlines after the last line. */
  lemma TrimLastLine(x: string, y: string)
    requires x != [] && !IsWhitespace(x[0])
    requires y != [] && !IsWhitespace(y[|y| - 1])
    ensures Trim(x + (y + "\n") + "\n") == x + y
  {
    TrimBlankLine(x, y);
    assert x + (y + "\n") + "\n" == x + y + "\n\n";
  }

  lemma TrimBlankLine(x: string, y: string)
    requires x != [] && !IsWhitespace(x[0])
    requires y != [] && !IsWhitespace(y[|y| - 1])
    ensures Trim(x + y + "\n\n") == x + y
  {
    var body := x + y;
    assert body[0] == x[0];
    assert body[|body| - 1] == y[|y| - 1];
    TrimSurrounded("", body, "\n\n");
    assert "" + body + "\n\n" == body + "\n\n";
  }

  lemma NestedTrimmed(t1: string, t2: string, t3: string, t4: string, t5: string, t6: string, t7: string)
    requires Plain(t1) && Plain(t2) && Plain(t3) && Plain(t4) && Plain(t5) && Plain(t6) && Word(t7)
    ensures AllWellFormed([List(false, TopItems(t1, t2, t3, t4, t5, t6, t7))])
    ensures Trim(Render([List(false, TopItems(t1, t2, t3, t4, t5, t6, t7))], 0))
         == NestedLines(t1, t2, t3, t4, t5, t6, "\n", "\n\n") + (Bul(1) + t7)
  {
    NestedRendered(t1, t2, t3, t4, t5, t6, t7);
    var x := NestedLines(t1, t2, t3, t4, t5, t6, "\n", "\n\n");
    var y := Bul(1) + t7;
    BulPlain(1, t1);
    assert x[0] == (Bul(1) + t1)[0];
    assert y[|y| - 1] == t7[|t7| - 1];
    TrimLastLine(x, y);
  }

  lemma EscapeBulletSegment(a: string, d: nat, t: string, nl: string, out: string)
    requires d >= 1 && Plain(t) && EscapeText(nl) == out
    ensures EscapeText(a + ((Bul(d) + t) + nl)) == EscapeText(a) + ((Bul(d) + t) + out)
  {
    BulPlain(d, t);
    EscapeAppendSegment(a, Bul(d) + t, nl, out);
  }

  lemma NestedEscapedLines(t1: string, t2: string, t3: string, t4: string, t5: string, t6: string)
    requires Plain(t1) && Plain(t2) && Plain(t3) && Plain(t4) && Plain(t5) && Plain(t6)
    ensures EscapeText(NestedLines(t1, t2, t3, t4, t5, t6, "\n", "\n\n"))
         == NestedLines(t1, t2, t3, t4, t5, t6, "\\n", "\\n\\n")
  {
    var s3 := ((Bul(1) + t1) + "\n") + ((Bul(2) + t2) + "\n") + ((Bul(3) + t3) + "\n");
    var e3 := ((Bul(1) + t1) + "\\n") + ((Bul(2) + t2) + "\\n") + ((Bul(3) + t3) + "\\n");
    NestedEscapedFirst(t1, t2, t3);
    assert EscapeText("\n") == "\\n";
    assert EscapeText("\n\n") == "\\n\\n";
    var s4 := s3 + ((Bul(2) + t4) + "\n");
    EscapeBulletSegment(s3, 2, t4, "\n", "\\n");
    var s5 := s4 + ((Bul(3) + t5) + "\n");
    EscapeBulletSegment(s4, 3, t5, "\n", "\\n");
    EscapeBulletSegment(s5, 3, t6, "\n\n", "\\n\\n");
  }

  lemma NestedEscapedFirst(t1: string, t2: string, t3: string)
    requires Plain(t1) && Plain(t2) && Plain(t3)
    ensures EscapeText(((Bul(1) + t1) + "\n") + ((Bul(2) + t2) + "\n") + ((Bul(3) + t3) + "\n"))
         == ((Bul(1) + t1) + "\\n") + ((Bul(2) + t2) + "\\n") + ((Bul(3) + t3) + "\\n")
  {
    EscapeNewlines();
    var s1 := (Bul(1) + t1) + "\n";
    EscapeBulletLine(1, t1, "\n", "\\n");
    var s2 := s1 + ((Bul(2) + t2) + "\n");
    EscapeBulletSegment(s1, 2, t2, "\n", "\\n");
    EscapeBulletSegment(s2, 3, t3, "\n", "\\n");
  }

  lemma EscapeNewlines()
    ensures EscapeText("\n") == "\\n"
    ensures EscapeText("\n\n") == "\\n\\n"
  {
    assert EscapeText("\n") == EscapeChar('\n') + EscapeText([]);
  }

  lemma EscapeBulletLine(d: nat, t: string, nl: string, out: string)
    requires d >= 1 && Plain(t) && EscapeText(nl) == out
    ensures EscapeText((Bul(d) + t) + nl) == (Bul(d) + t) + out
  {
    BulPlain(d, t);
    EscapeTextAppend(Bul(d) + t, nl);
    EscapeTextPlain(Bul(d) + t);
  }

  lemma NestedEscapedText(t1: string, t2: string, t3: string, t4: string, t5: string, t6: string, t7: string)
    requires Plain(t1) && Plain(t2) && Plain(t3) && Plain(t4) && Plain(t5) && Plain(t6) && Plain(t7)
    ensures EscapeText(NestedLines(t1, t2, t3, t4, t5, t6, "\n", "\n\n") + (Bul(1) + t7))
         == NestedLines(t1, t2, t3, t4, t5, t6, "\\n", "\\n\\n") + (Bul(1) + t7)
  {
    NestedEscapedLines(t1, t2, t3, t4, t5, t6);
    BulPlain(1, t7);
    EscapeTextAppend(NestedLines(t1, t2, t3, t4, t5, t6, "\n", "\n\n"), Bul(1) + t7);
    EscapeTextPlain(Bul(1) + t7);
  }

  lemma NestedEscape(t1: string, t2: string, t3: string, t4: string, t5: string, t6: string, t7: string)
    requires Plain(t1) && Plain(t2) && Plain(t3) && Plain(t4) && Plain(t5) && Plain(t6) && Word(t7)
    ensures Escape(NestedLines(t1, t2, t3, t4, t5, t6, "\n", "\n\n") + (Bul(1) + t7))
         == NestedLines(t1, t2, t3, t4, t5, t6, "\\n", "\\n\\n") + (Bul(1) + t7)
  {
    var y := NestedLines(t1, t2, t3, t4, t5, t6, "\n", "\n\n") + (Bul(1) + t7);
    var e := NestedLines(t1, t2, t3, t4, t5, t6, "\\n", "\\n\\n") + (Bul(1) + t7);
    ChainIsOnePass(y);
    NestedEscapedText(t1, t2, t3, t4, t5, t6, t7);
    assert e[|e| - 1] == t7[|t7| - 1];
    assert !EndsWith(e, "\\n");
  }

  lemma NestedTextOf(t1: string, t2: string, t3: string, t4: string, t5: string, t6: string, t7: string)
    requires Plain(t1) && Plain(t2) && Plain(t3) && Plain(t4) && Plain(t5) && Plain(t6) && Word(t7)
    ensures AllWellFormed([List(false, TopItems(t1, t2, t3, t4, t5, t6, t7))])
    ensures Mrkdwnify(Doc([List(false, TopItems(t1, t2, t3, t4, t5, t6, t7))]))
         == Success(((Bul(1) + t1) + "\\n") + ((Bul(2) + t2) + "\\n") + ((Bul(3) + t3) + "\\n")
              + ((Bul(2) + t4) + "\\n") + ((Bul(3) + t5) + "\\n") + ((Bul(3) + t6) + "\\n\\n")
              + (Bul(1) + t7))
  {
    NestedTrimmed(t1, t2, t3, t4, t5, t6, t7);
    MrkdwnifyDoc([List(false, TopItems(t1, t2, t3, t4, t5, t6, t7))]);
    NestedEscape(t1, t2, t3, t4, t5, t6, t7);
  }

  lemma NestedBlocksOf(t1: string, t2: string, t3: string, t4: string, t5: string, t6: string, t7: string)
    requires Plain(t1) && Plain(t2) && Plain(t3) && Plain(t4) && Plain(t5) && Plain(t6) && Plain(t7)
    ensures ListItemsOk(TopItems(t1, t2, t3, t4, t5, t6, t7))
    ensures Blockify(Doc([List(false, TopItems(t1, t2, t3, t4, t5, t6, t7))]))
         == Success([Section(
              ((Bul(1) + t1) + "\n") + ((Bul(2) + t2) + "\n") + ((Bul(3) + t3) + "\n")
              + ((Bul(2) + t4) + "\n") + ((Bul(3) + t5) + "\n") + ((Bul(3) + t6) + "\n\n")
              + ((Bul(1) + t7) + "\n") + "\n")])
  {
    TopList(t1, t2, t3, t4, t5, t6, t7);
    ListBlocksOf(false, TopItems(t1, t2, t3, t4, t5, t6, t7));
  }

  lemma BulValues()
    ensures Bul(1) == "\U{2022}   "
    ensures Bul(2) == "    \U{2022}   "
    ensures Bul(3) == "        \U{2022}   "
  {
    assert Repeat("    ", 0) == "";
    assert Repeat("    ", 1) == "" + "    ";
    assert Repeat("    ", 2) == "    " + "    ";
  }

  lemma NestedTexts()
    ensures Plain("First") && Plain("Second") && Plain("Third") && Plain("Fourth")
    ensures Plain("Fifth") && Plain("Sixth") && Plain("Seventh") && Word("Seventh")
  {
  }

  /**
   * `- First\n    - Second\n        - Third\n    - Fourth\n        - Fifth\n        - Sixth\n- Seventh`
   * as one section: four spaces of indent per level, one blank line after
   * the nested lists.
   */
  lemma NestedListsBlocks()
    ensures ListItemsOk(TopItems("First", "Second", "Third", "Fourth", "Fifth", "Sixth", "Seventh"))
    ensures Blockify(Doc([List(false, TopItems("First", "Second", "Third", "Fourth", "Fifth", "Sixth", "Seventh"))]))
         == Success([Section(
              (("\U{2022}   " + "First") + "\n") + (("    \U{2022}   " + "Second") + "\n")
              + (("        \U{2022}   " + "Third") + "\n") + (("    \U{2022}   " + "Fourth") + "\n")
              + (("        \U{2022}   " + "Fifth") + "\n") + (("        \U{2022}   " + "Sixth") + "\n\n")
              + (("\U{2022}   " + "Seventh") + "\n") + "\n")])
  {
    NestedTexts();
    BulValues();
    NestedBlocksOf("First", "Second", "Third", "Fourth", "Fifth", "Sixth", "Seventh");
  }

  /** The same list as flat text: its line breaks escaped and the final blank line trimmed. */
  lemma NestedListsText()
    ensures AllWellFormed([List(false, TopItems("First", "Second", "Third", "Fourth", "Fifth", "Sixth", "Seventh"))])
    ensures Mrkdwnify(Doc([List(false, TopItems("First", "Second", "Third", "Fourth", "Fifth", "Sixth", "Seventh"))]))
         == Success(
              (("\U{2022}   " + "First") + "\\n") + (("    \U{2022}   " + "Second") + "\\n")
              + (("        \U{2022}   " + "Third") + "\\n") + (("    \U{2022}   " + "Fourth") + "\\n")
              + (("        \U{2022}   " + "Fifth") + "\\n") + (("        \U{2022}   " + "Sixth") + "\\n\\n")
              + ("\U{2022}   " + "Seventh"))
  {
    NestedTexts();
    BulValues();
    NestedTextOf("First", "Second", "Third", "Fourth", "Fifth", "Sixth", "Seventh");
  }

  // ---------------------------------------------------------------------------
  // Regrouping steps. These only reassociate concatenations of lines; they are
  // steps for the verifier, not properties of the converter.
  // ---------------------------------------------------------------------------

  lemma Regroup(p1: string, p2: string, p3: string)
    ensures (p1 + "\n") + (p2 + "\n") + (p3 + "\n") + "\n" == p1 + "\n" + p2 + "\n" + p3 + "\n" + "\n"
  {
  }

  lemma RegroupItem(i: string, m: string, t: string, r: string)
    ensures i + m + ((t + "\n") + r) + "\n" == ((i + m) + t) + "\n" + r + "\n"
  {
  }

  lemma RegroupOne(a: string, b: string)
    ensures a + "\n" + (b + "\n" + "\n") + "\n" == (a + "\n") + (b + "\n\n\n")
  {
  }

  lemma RegroupTwo(a: string, b: string, c: string)
    ensures a + "\n" + (b + "\n" + c + "\n" + "\n") + "\n" == (a + "\n") + (b + "\n") + (c + "\n\n\n")
  {
  }

  lemma RegroupNested(a: string, m1: string, m2: string, m3: string, m4: string, c: string)
    ensures a + "\n" + (m1 + m2 + m3 + m4 + (c + "\n\n") + "\n") + "\n"
         == (a + "\n") + m1 + m2 + m3 + m4 + (c + "\n\n\n\n")
  {
  }
}
