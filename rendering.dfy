/**
 * The rendering of an mdast tree into Slack mrkdwn text, as a function of the
 * tree and of the list-indentation level in force when rendering starts (the
 * value of the converter's `indent_level` counter). The class in
 * converter.dfy, which keeps that counter as a field, is proved to compute
 * exactly these functions.
 */
module Rendering {
  import opened Wrappers
  import opened RustStr
  import opened Mdast
  import opened Blocks
  import opened Escaping

  /** The children of a list: the converter unwraps each one's children. */
  predicate ListItemsOk(items: seq<Node>) {
    forall c | c in items :: IsParent(c) && WellFormed(c)
  }

  /** `surround_with`: `s` between `prefix` and `suffix`. */
  function SurroundWith(s: string, prefix: string, suffix: string): (r: string)
    ensures |r| == |prefix| + |s| + |suffix|
    ensures StartsWith(r, prefix) && EndsWith(r, suffix)
    ensures r[|prefix|..|r| - |suffix|] == s
  {
    prefix + s + suffix
  }

  /** `parse`: the nodes rendered one after the other, in document order. */
  function Render(nodes: seq<Node>, level: nat): string
    requires AllWellFormed(nodes)
    decreases nodes, 1
  {
    if nodes == [] then ""
    else Render(nodes[..|nodes| - 1], level) + RenderNode(nodes[|nodes| - 1], level)
  }

  /** `surround_nodes_with`: the rendered nodes between `prefix` and `suffix`. */
  function SurroundNodesWith(nodes: seq<Node>, prefix: string, suffix: string, level: nat): (r: string)
    requires AllWellFormed(nodes)
    ensures |r| == |prefix| + |Render(nodes, level)| + |suffix|
    ensures StartsWith(r, prefix) && EndsWith(r, suffix)
    ensures r[|prefix|..|r| - |suffix|] == Render(nodes, level)
    decreases nodes, 2
  {
    SurroundWith(Render(nodes, level), prefix, suffix)
  }

  /** The text `parse` produces for one node (the arms of its `match`). */
  function RenderNode(n: Node, level: nat): string
    requires WellFormed(n)
    decreases n, 0
  {
    match n
    case BlockQuote(cs) => SurroundNodesWith(cs, "> ", "", level)
    case Break => "\n"
    case Code(v) => SurroundWith(v, "```\n", "\n```\n")
    case Delete(cs) => SurroundNodesWith(cs, "~", "~", level)
    case Emphasis(cs) => SurroundNodesWith(cs, "_", "_", level)
    case Heading(_, cs) => SurroundNodesWith(cs, "*", "*\n\n", level)
    case InlineCode(v) => SurroundWith(v, "`", "`")
    case Link(url, cs) => "<" + url + "|" + Render(cs, level) + ">"
    case List(ordered, items) => RenderList(ordered, items, level)
    case ListItem(_, cs) => Render(cs, level)
    case Paragraph(cs) => SurroundNodesWith(cs, "", "\n", level)
    case Strong(cs) => SurroundNodesWith(cs, "*", "*", level)
    case Text(v) => v
    case ThematicBreak => "\n----------\n"
    case OtherParent(_) => ""
    case OtherLeaf => ""
  }

  // ---------------------------------------------------------------------------
  // Lists
  // ---------------------------------------------------------------------------

  /** Four spaces per list level above the first. */
  function Indent(depth: nat): (r: string)
    requires depth >= 1
    ensures |r| == 4 * (depth - 1)
    ensures forall i :: 0 <= i < |r| ==> r[i] == ' '
  {
    RepeatSpaces("    ", depth - 1);
    Repeat("    ", depth - 1)
  }

  /** The checkbox state of an item; only a `ListItem` has one. */
  function CheckedState(item: Node): Option<bool> {
    if item.ListItem? then item.checked else None
  }

  /** The decoration of an unordered item. */
  function Bullet(checked: Option<bool>): (r: string)
    ensures |r| == 1 && !IsWhitespace(r[0]) && !IsDigit(r[0])
  {
    match checked
    case None => "\U{2022}"
    case Some(true) => "\U{2611}"
    case Some(false) => "\U{2610}"
  }

  /** The decoration of the item at position `index` (from 0). */
  function Marker(ordered: bool, item: Node, index: nat): (r: string)
    ensures |r| >= 4 && !IsWhitespace(r[0]) && '\n' !in r
    ensures r[|r| - 3..] == if ordered then ".  " else "   "
  {
    if ordered then NatToDecimal(index + 1) + ".  " else Bullet(CheckedState(item)) + "   "
  }

  /** The line one item contributes to a list whose items sit at nesting depth `depth`. */
  function ItemLine(ordered: bool, item: Node, index: nat, depth: nat): string
    requires depth >= 1 && IsParent(item) && WellFormed(item)
    decreases item, 0
  {
    Indent(depth) + Marker(ordered, item, index) + Render(item.children, depth) + "\n"
  }

  /** The accumulator of `handle_list`'s fold after the first `n` items. */
  function ItemLines(ordered: bool, items: seq<Node>, depth: nat, n: nat): string
    requires depth >= 1 && n <= |items| && ListItemsOk(items)
    decreases items, 2, n
  {
    if n == 0 then ""
    else ItemLines(ordered, items, depth, n - 1) + ItemLine(ordered, items[n - 1], n - 1, depth)
  }

  /**
   * `handle_list` entered with the counter at `level`: the items sit at depth
   * `level + 1`; their lines pass once through `replace("\n\n", "\n")` and a
   * final newline is appended.
   */
  function RenderList(ordered: bool, items: seq<Node>, level: nat): (r: string)
    requires ListItemsOk(items)
    ensures EndsWith(r, "\n")
    decreases items, 3
  {
    Replace(ItemLines(ordered, items, level + 1, |items|), "\n\n", "\n") + "\n"
  }

  // ---------------------------------------------------------------------------
  // Segmentation into blocks
  // ---------------------------------------------------------------------------

  /** The blocks `blockify` emits for one top-level child (the arms of its `flat_map`). */
  function ChildBlocks(child: Node): (r: seq<Block>)
    requires WellFormed(child)
    ensures |r| == if child.Heading? && child.depth == 1 then 2 else 1
    ensures r[0].Header? <==> child.Heading?
    ensures r[0].Divider? <==> child.ThematicBreak?
    ensures |r| == 2 ==> r[1] == Divider
  {
    match child
    case BlockQuote(cs) => [Section(SurroundNodesWith(cs, "> ", "", 0))]
    case Break => [Section("\n")]
    case Code(v) => [Section(SurroundWith(v, "```\n", "\n```\n"))]
    case Delete(cs) => [Section(SurroundNodesWith(cs, "~", "~", 0))]
    case Emphasis(cs) => [Section(SurroundNodesWith(cs, "_", "_", 0))]
    case Heading(depth, cs) =>
      if depth == 1 then [Header(Render(cs, 0)), Divider] else [Header(Render(cs, 0))]
    case InlineCode(v) => [Section(SurroundWith(v, "`", "`"))]
    case Link(url, cs) => [Section("<" + url + "|" + Render(cs, 0) + ">")]
    case List(ordered, items) => [Section(RenderList(ordered, items, 0))]
    case ListItem(_, cs) => [Section(Render(cs, 0))]
    case Paragraph(cs) => [Section(SurroundNodesWith(cs, "", "\n", 0))]
    case Strong(cs) => [Section(SurroundNodesWith(cs, "*", "*", 0))]
    case Text(v) => [Section(v)]
    case ThematicBreak => [Divider]
    case OtherParent(_) => [Section("")]
    case OtherLeaf => [Section("")]
  }

  /** The `flat_map` of `blockify` over the top-level children. */
  function Segment(children: seq<Node>): seq<Block>
    requires AllWellFormed(children)
  {
    if children == [] then []
    else Segment(children[..|children| - 1]) + ChildBlocks(children[|children| - 1])
  }

  const NoInput: string := "no input?"

  /**
   * `blockify` up to the JSON document: the parser's failure message, or
   * "no input?" when the root has no children, or the blocks of the root's
   * children.
   */
  function Blockify(parsed: Result<Node, string>): (r: Result<seq<Block>, string>)
    requires parsed.Success? ==> WellFormed(parsed.value)
    ensures parsed.Failure? ==> r == Failure(parsed.error)
    ensures parsed.Success? && !IsParent(parsed.value) ==> r == Failure(NoInput)
    ensures parsed.Success? && IsParent(parsed.value) ==> r.Success?
  {
    match parsed
    case Failure(e) => Failure(e)
    case Success(root) =>
      match Children(root)
      case None => Failure(NoInput)
      case Some(children) => Success(Segment(children))
  }

  /**
   * `mrkdwnify`: the parser's failure message, or "no input?" when the root
   * has no children, or the rendered children, trimmed and escaped. The text
   * has no real newline, every `"` follows a backslash, every `&` begins
   * `&amp;`, and it never ends with the literal `\n`.
   */
  function Mrkdwnify(parsed: Result<Node, string>): (r: Result<string, string>)
    requires parsed.Success? ==> WellFormed(parsed.value)
    ensures parsed.Failure? ==> r == Failure(parsed.error)
    ensures parsed.Success? && !IsParent(parsed.value) ==> r == Failure(NoInput)
    ensures parsed.Success? && IsParent(parsed.value) ==> r.Success?
    ensures r.Success? ==> Escaped(r.value) && !EndsWith(r.value, "\\n")
  {
    match parsed
    case Failure(e) => Failure(e)
    case Success(root) =>
      match Children(root)
      case None => Failure(NoInput)
      case Some(children) => Success(Escape(Trim(Render(children, 0))))
  }
}
