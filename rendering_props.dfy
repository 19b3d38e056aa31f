/**
 * What the renderer and the segmenter guarantee, proved about the functions
 * of the Rendering module.
 */
module RenderingProps {
  import opened Wrappers
  import opened RustStr
  import opened Mdast
  import opened Blocks
  import opened Escaping
  import opened Rendering

  // ---------------------------------------------------------------------------
  // The renderer concatenates in document order
  // ---------------------------------------------------------------------------

  /** Rendering a sequence is rendering its parts one after the other. */
  lemma {:induction false} RenderAppend(a: seq<Node>, b: seq<Node>, level: nat)
    requires AllWellFormed(a) && AllWellFormed(b)
    ensures AllWellFormed(a + b)
    ensures Render(a + b, level) == Render(a, level) + Render(b, level)
    decreases |b|
  {
    AllWellFormedAppend(a, b);
    if b == [] {
      assert a + b == a;
    } else {
      var init, last := b[..|b| - 1], b[|b| - 1];
      AllWellFormedInit(b);
      RenderAppend(a, init, level);
      var ab := a + b;
      assert ab[..|ab| - 1] == a + init && ab[|ab| - 1] == last;
      RenderLast(ab, level);
      RenderLast(b, level);
      StringAssoc(Render(a, level), Render(init, level), RenderNode(last, level));
    }
  }

  lemma RenderLast(s: seq<Node>, level: nat)
    requires AllWellFormed(s) && s != []
    ensures AllWellFormed(s[..|s| - 1])
    ensures Render(s, level) == Render(s[..|s| - 1], level) + RenderNode(s[|s| - 1], level)
  {
    AllWellFormedInit(s);
  }

  /** A node of a kind the converter does not support renders to nothing and leaves its siblings as they were. */
  lemma UnsupportedRendersNothing(a: seq<Node>, n: Node, b: seq<Node>, level: nat)
    requires AllWellFormed(a) && AllWellFormed(b) && WellFormed(n)
    requires n.OtherParent? || n.OtherLeaf?
    ensures AllWellFormed(a + [n] + b)
    ensures Render(a + [n] + b, level) == Render(a + b, level)
  {
    RenderAppend(a, [n], level);
    RenderAppend(a + [n], b, level);
    RenderAppend(a, b, level);
    assert Render([n], level) == Render([], level) + RenderNode(n, level);
  }

  /** The node contains no list anywhere below it. */
  predicate NoLists(n: Node)
    decreases n
  {
    !n.List? && (IsParent(n) ==> forall c | c in n.children :: NoLists(c))
  }

  /** The indentation level matters only for lists: without one, every level renders the same text. */
  lemma {:induction false} LevelOnlyAffectsLists(nodes: seq<Node>, l1: nat, l2: nat)
    requires AllWellFormed(nodes)
    requires forall n | n in nodes :: NoLists(n)
    ensures Render(nodes, l1) == Render(nodes, l2)
    decreases nodes
  {
    if nodes != [] {
      var n := nodes[|nodes| - 1];
      assert n in nodes;
      LevelOnlyAffectsLists(nodes[..|nodes| - 1], l1, l2);
      if IsParent(n) {
        LevelOnlyAffectsLists(n.children, l1, l2);
      }
      assert RenderNode(n, l1) == RenderNode(n, l2) by {
        assert !n.List?;
        if IsParent(n) {
          assert SurroundNodesWith(n.children, "", "", l1) == SurroundNodesWith(n.children, "", "", l2);
        }
      }
    }
  }

  // ---------------------------------------------------------------------------
  // List items
  // ---------------------------------------------------------------------------

  /** The run of decimal digits at the start of `s`. */
  function DigitRun(s: string): (r: string)
    ensures |r| <= |s| && r == s[..|r|]
    ensures forall i :: 0 <= i < |r| ==> IsDigit(r[i])
    ensures |r| == |s| || !IsDigit(s[|r|])
  {
    if s != [] && IsDigit(s[0]) then [s[0]] + DigitRun(s[1..]) else []
  }

  lemma {:induction false} DigitRunOf(d: string, rest: string)
    requires forall i :: 0 <= i < |d| ==> IsDigit(d[i])
    requires rest == [] || !IsDigit(rest[0])
    ensures DigitRun(d + rest) == d
  {
    if d != [] {
      assert (d + rest)[1..] == d[1..] + rest;
      DigitRunOf(d[1..], rest);
    } else {
      assert d + rest == rest;
    }
  }

  /** The three checkbox states have three different bullets, so the state reads back from the line. */
  lemma BulletInjective(a: Option<bool>, b: Option<bool>)
    requires Bullet(a) == Bullet(b)
    ensures a == b
  {
  }

  /** After an ordered marker, the digits read back as the item's 1-based position, then ".  " follows. */
  lemma OrderedMarkerReadsBack(index: nat, rest: string)
    ensures var s := Marker(true, OtherLeaf, index) + rest;
            var run := DigitRun(s);
            DecimalValue(run) == index + 1 && StartsWith(s[|run|..], ".  ")
  {
    var digits := NatToDecimal(index + 1);
    var s := Marker(true, OtherLeaf, index) + rest;
    assert s == digits + (".  " + rest);
    DigitRunOf(digits, ".  " + rest);
    DecimalRoundTrip(index + 1);
    assert s[|digits|..] == ".  " + rest;
  }

  /**
   * One item line of a list at depth `depth`: exactly 4·(depth−1) spaces,
   * then for an ordered list the number index+1 followed by ".  ", for an
   * unordered one the checkbox bullet followed by three spaces; the line
   * ends with a newline.
   */
  lemma ItemLineShape(ordered: bool, item: Node, index: nat, depth: nat)
    requires depth >= 1 && IsParent(item) && WellFormed(item)
    ensures var line := ItemLine(ordered, item, index, depth);
            var w := 4 * (depth - 1);
            && |line| > w + 1
            && (forall i :: 0 <= i < w ==> line[i] == ' ')
            && line[w] != ' '
            && line[|line| - 1] == '\n'
            && (ordered ==>
                  var run := DigitRun(line[w..]);
                  DecimalValue(run) == index + 1 && StartsWith(line[w + |run|..], ".  "))
            && (!ordered ==> [line[w]] == Bullet(CheckedState(item)) && line[w + 1..w + 4] == "   ")
  {
    var line := ItemLine(ordered, item, index, depth);
    var w := 4 * (depth - 1);
    var indent := Indent(depth);
    var marker := Marker(ordered, item, index);
    var body := Render(item.children, depth);
    var rest := body + "\n";
    RegroupLine(indent, marker, body);
    SpacesThen(indent, marker + rest);
    if ordered {
      assert marker == Marker(true, OtherLeaf, index);
      OrderedLineShape(line, w, index, rest);
    } else {
      BulletLineShape(line, w, Bullet(CheckedState(item)), rest);
    }
  }

  /** The part of an ordered item line after its indentation. */
  lemma OrderedLineShape(line: string, w: nat, index: nat, rest: string)
    requires w <= |line| && line[w..] == Marker(true, OtherLeaf, index) + rest
    ensures |line| > w + 1 && line[w] != ' '
    ensures var run := DigitRun(line[w..]);
            DecimalValue(run) == index + 1 && StartsWith(line[w + |run|..], ".  ")
  {
    var tail := line[w..];
    OrderedMarkerReadsBack(index, rest);
    var run := DigitRun(tail);
    assert line[w + |run|..] == tail[|run|..];
    assert line[w] == tail[0] == run[0];
  }

  /** The part of an unordered item line after its indentation. */
  lemma BulletLineShape(line: string, w: nat, bullet: string, rest: string)
    requires |bullet| == 1 && bullet[0] != ' '
    requires w <= |line| && line[w..] == bullet + "   " + rest
    ensures |line| > w + 1 && line[w] != ' '
    ensures [line[w]] == bullet && line[w + 1..w + 4] == "   "
  {
    var tail := line[w..];
    assert line[w] == tail[0] == bullet[0];
    assert line[w + 1..w + 4] == tail[1..4];
  }

  /** The fold visits the items in order: the line of item k follows the lines of items 0..k−1. */
  lemma {:induction false} ItemLinesInOrder(ordered: bool, items: seq<Node>, depth: nat, k: nat, n: nat)
    requires depth >= 1 && ListItemsOk(items) && k < n <= |items|
    ensures StartsWith(ItemLines(ordered, items, depth, n),
                       ItemLines(ordered, items, depth, k) + ItemLine(ordered, items[k], k, depth))
    decreases n
  {
    if n > k + 1 {
      ItemLinesInOrder(ordered, items, depth, k, n - 1);
      var p := ItemLines(ordered, items, depth, k) + ItemLine(ordered, items[k], k, depth);
      var prev := ItemLines(ordered, items, depth, n - 1);
      assert ItemLines(ordered, items, depth, n) == prev + ItemLine(ordered, items[n - 1], n - 1, depth);
      PrefixExtends(p, prev, ItemLine(ordered, items[n - 1], n - 1, depth));
    } else {
      var p := ItemLines(ordered, items, depth, k) + ItemLine(ordered, items[k], k, depth);
      assert ItemLines(ordered, items, depth, n) == p;
      assert p[..|p|] == p;
    }
  }

  // ---------------------------------------------------------------------------
  // Segmentation
  // ---------------------------------------------------------------------------

  lemma AllWellFormedAppend(a: seq<Node>, b: seq<Node>)
    requires AllWellFormed(a) && AllWellFormed(b)
    ensures AllWellFormed(a + b)
  {
  }

  lemma AllWellFormedInit(b: seq<Node>)
    requires AllWellFormed(b) && b != []
    ensures AllWellFormed(b[..|b| - 1])
  {
    forall n | n in b[..|b| - 1] ensures WellFormed(n) { assert n in b; }
  }

  lemma SegmentLast(s: seq<Node>)
    requires AllWellFormed(s) && s != []
    ensures AllWellFormed(s[..|s| - 1])
    ensures Segment(s) == Segment(s[..|s| - 1]) + ChildBlocks(s[|s| - 1])
  {
    AllWellFormedInit(s);
  }

  /** Segmenting a sequence of children is segmenting its parts one after the other. */
  lemma {:induction false} SegmentAppend(a: seq<Node>, b: seq<Node>)
    requires AllWellFormed(a) && AllWellFormed(b)
    ensures AllWellFormed(a + b)
    ensures Segment(a + b) == Segment(a) + Segment(b)
    decreases |b|
  {
    AllWellFormedAppend(a, b);
    if b == [] {
      assert a + b == a;
    } else {
      var init, last := b[..|b| - 1], b[|b| - 1];
      AllWellFormedInit(b);
      SegmentAppend(a, init);
      var ab := a + b;
      assert ab[..|ab| - 1] == a + init && ab[|ab| - 1] == last;
      SegmentLast(ab);
      SegmentLast(b);
      SeqAssoc(Segment(a), Segment(init), ChildBlocks(last));
    }
  }

  /** Each child's blocks sit exactly between the blocks of the children before it and those after it. */
  lemma SegmentAround(a: seq<Node>, c: Node, b: seq<Node>)
    requires AllWellFormed(a) && AllWellFormed(b) && WellFormed(c)
    ensures AllWellFormed(a + [c] + b)
    ensures Segment(a + [c] + b) == Segment(a) + ChildBlocks(c) + Segment(b)
  {
    SegmentAppend(a, [c]);
    SegmentAppend(a + [c], b);
    assert Segment([c]) == Segment([]) + ChildBlocks(c);
  }

  /**
   * The segmenter and the renderer agree: a heading gives a header with its
   * rendered children, followed by a divider only at depth 1; a thematic
   * break gives a divider; any other child gives one section holding exactly
   * the text the renderer produces for it at the top level, not escaped.
   */
  lemma ChildBlocksAgreeWithRenderer(c: Node)
    requires WellFormed(c)
    ensures c.Heading? ==> ChildBlocks(c) == [Header(Render(c.children, 0))] + (if c.depth == 1 then [Divider] else [])
    ensures c.ThematicBreak? ==> ChildBlocks(c) == [Divider]
    ensures !c.Heading? && !c.ThematicBreak? ==> ChildBlocks(c) == [Section(RenderNode(c, 0))]
  {
  }

  /** The number of depth-1 headings among the children. */
  function TitleCount(children: seq<Node>): nat {
    if children == [] then 0
    else TitleCount(children[..|children| - 1])
         + (if children[|children| - 1].Heading? && children[|children| - 1].depth == 1 then 1 else 0)
  }

  /** Every child gives one block, and a depth-1 heading one more (its divider). */
  lemma {:induction false} SegmentLength(children: seq<Node>)
    requires AllWellFormed(children)
    ensures |Segment(children)| == |children| + TitleCount(children)
  {
    if children != [] {
      SegmentLength(children[..|children| - 1]);
    }
  }

  // ---------------------------------------------------------------------------
  // The flat text
  // ---------------------------------------------------------------------------

  /** `trim` adds no character. */
  lemma TrimKeepsOut(s: string, c: char)
    requires c !in s
    ensures c !in Trim(s)
  {
    var i := |s| - |TrimStart(s)|;
    assert Trim(s) == s[i..i + |Trim(s)|];
  }

  /**
   * When the rendered text holds no backslash, the escaped text loses
   * nothing: reading it back gives the trimmed rendering.
   */
  lemma MrkdwnifyLossless(parsed: Result<Node, string>)
    requires parsed.Success? && WellFormed(parsed.value) && IsParent(parsed.value)
    requires '\\' !in Render(parsed.value.children, 0)
    ensures Mrkdwnify(parsed).Success?
    ensures Unescape(Mrkdwnify(parsed).value) == Trim(Render(parsed.value.children, 0))
  {
    var t := Trim(Render(parsed.value.children, 0));
    TrimKeepsOut(Render(parsed.value.children, 0), '\\');
    assert t == [] || t[|t| - 1] != '\n';
    ChainIsOnePass(t);
    EscapeTextNoTrailingLiteral(t);
    var e := EscapeText(t);
    assert TrimEndMatches(e, "\\n") == e;
    UnescapeEscapeText(t);
  }

  // ---------------------------------------------------------------------------
  // Regrouping steps. These only reassociate concatenations or index into
  // them; they are steps for the verifier, not properties of the converter.
  // ---------------------------------------------------------------------------

  lemma StringAssoc(x: string, y: string, z: string)
    ensures (x + y) + z == x + (y + z)
  {
  }

  lemma RegroupLine(indent: string, marker: string, body: string)
    ensures indent + marker + body + "\n" == indent + (marker + (body + "\n"))
  {
  }

  lemma SpacesThen(indent: string, tail: string)
    requires forall i :: 0 <= i < |indent| ==> indent[i] == ' '
    ensures forall i :: 0 <= i < |indent| ==> (indent + tail)[i] == ' '
    ensures (indent + tail)[|indent|..] == tail
  {
  }

  lemma PrefixExtends(p: string, s: string, t: string)
    requires StartsWith(s, p)
    ensures StartsWith(s + t, p)
  {
    assert (s + t)[..|p|] == s[..|p|];
  }

  lemma SeqAssoc(x: seq<Block>, y: seq<Block>, z: seq<Block>)
    ensures (x + y) + z == x + (y + z)
  {
  }
}
