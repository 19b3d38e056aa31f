/**
 * The converter object of src/mrkdwn.rs. It owns the list-nesting counter
 * `indent_level`, which `handle_list` raises on entry and lowers on exit;
 * `parse` and `handle_list` call each other and build their text with
 * accumulating loops. Each method is proved to compute the corresponding
 * function of the Rendering module and to leave the counter as it found it.
 */
module Converter {
  import opened Wrappers
  import opened RustStr
  import opened Mdast
  import opened Blocks
  import Rendering
  import RenderingProps

  class Mrkdwn {
    /** The parser's output for the markdown text: the root node, or the parser's message. */
    const parsed: Result<Node, string>

    /** The current list nesting depth. */
    var indentLevel: nat

    /** Between public calls no list is open. */
    ghost predicate Valid()
      reads this
    {
      indentLevel == 0
    }

    /** `Mrkdwn::from`. */
    constructor From(parsed: Result<Node, string>)
      ensures Valid() && this.parsed == parsed
    {
      this.parsed := parsed;
      indentLevel := 0;
    }

    /** `mrkdwnify`: render the root's children, trim, escape. */
    method Mrkdwnify() returns (r: Result<string, string>)
      requires Valid()
      requires parsed.Success? ==> WellFormed(parsed.value)
      modifies this
      ensures Valid()
      ensures r == Rendering.Mrkdwnify(parsed)
    {
      match parsed {
        case Failure(e) =>
          r := Failure(e);
        case Success(root) =>
          match Children(root) {
            case None =>
              r := Failure(Rendering.NoInput);
            case Some(children) =>
              var text := Parse(children);
              var t := Trim(text);
              var escaped := ReplaceChar(ReplaceChar(ReplaceChar(t, '"', "\\\""), '&', "&amp;"), '\n', "\\n");
              r := Success(TrimEndMatches(escaped, "\\n"));
          }
      }
    }

    /** `blockify`: the blocks of each top-level child, in order, as a `{ "blocks": [...] }` document. */
    method Blockify() returns (r: Result<Json, string>)
      requires Valid()
      requires parsed.Success? ==> WellFormed(parsed.value)
      modifies this
      ensures Valid()
      ensures r == match Rendering.Blockify(parsed)
                   case Success(bs) => Success(Document(bs))
                   case Failure(e) => Failure(e)
    {
      match parsed {
        case Failure(e) =>
          r := Failure(e);
        case Success(root) =>
          match Children(root) {
            case None =>
              r := Failure(Rendering.NoInput);
            case Some(children) =>
              var blocks: seq<Block> := [];
              var i := 0;
              while i < |children|
                invariant 0 <= i <= |children|
                invariant indentLevel == 0
                invariant blocks == Rendering.Segment(children[..i])
              {
                assert children[i] in children;
                var emitted := ChildBlocks(children[i]);
                assert children[..i + 1][..i] == children[..i];
                blocks := blocks + emitted;
                i := i + 1;
              }
              assert children[..|children|] == children;
              r := Success(Document(blocks));
          }
      }
    }

    /**
     * The closure `blockify` maps over the top-level children: a heading
     * becomes a header (followed by a divider at depth 1), a thematic break a
     * divider, and every other child one section holding the text `parse`
     * gives it.
     */
    method ChildBlocks(child: Node) returns (emitted: seq<Block>)
      requires WellFormed(child) && indentLevel == 0
      modifies this
      ensures indentLevel == 0
      ensures emitted == Rendering.ChildBlocks(child)
    {
      RenderingProps.ChildBlocksAgreeWithRenderer(child);
      match child {
        case Heading(depth, cs) =>
          var t := Parse(cs);
          emitted := if depth == 1 then [Header(t), Divider] else [Header(t)];
        case ThematicBreak =>
          emitted := [Divider];
        case _ =>
          var t := ParseNode(child);
          emitted := [Section(t)];
      }
    }

    /** `parse`: each node's text, appended in document order. */
    method Parse(nodes: seq<Node>) returns (s: string)
      requires AllWellFormed(nodes)
      modifies this
      ensures indentLevel == old(indentLevel)
      ensures s == Rendering.Render(nodes, old(indentLevel))
      decreases nodes, 1
    {
      s := "";
      var i := 0;
      while i < |nodes|
        invariant 0 <= i <= |nodes|
        invariant indentLevel == old(indentLevel)
        invariant s == Rendering.Render(nodes[..i], indentLevel)
      {
        assert nodes[i] in nodes;
        var part := ParseNode(nodes[i]);
        assert nodes[..i + 1][..i] == nodes[..i];
        s := s + part;
        i := i + 1;
      }
      assert nodes[..|nodes|] == nodes;
    }

    /** The match arm of `parse` for one node: that node's text. */
    method ParseNode(child: Node) returns (part: string)
      requires WellFormed(child)
      modifies this
      ensures indentLevel == old(indentLevel)
      ensures part == Rendering.RenderNode(child, old(indentLevel))
      decreases child, 0
    {
      match child {
        case BlockQuote(cs) =>
          part := SurroundNodesWith(cs, "> ", "");
        case Break =>
          part := "\n";
        case Code(v) =>
          part := Rendering.SurroundWith(v, "```\n", "\n```\n");
        case Delete(cs) =>
          part := SurroundNodesWith(cs, "~", "~");
        case Emphasis(cs) =>
          part := SurroundNodesWith(cs, "_", "_");
        case Heading(_, cs) =>
          part := SurroundNodesWith(cs, "*", "*\n\n");
        case InlineCode(v) =>
          part := Rendering.SurroundWith(v, "`", "`");
        case Link(url, cs) =>
          var inner := Parse(cs);
          part := "<" + url + "|" + inner + ">";
        case List(ordered, items) =>
          part := HandleList(ordered, items);
        case ListItem(_, cs) =>
          part := Parse(cs);
        case Paragraph(cs) =>
          part := SurroundNodesWith(cs, "", "\n");
        case Strong(cs) =>
          part := SurroundNodesWith(cs, "*", "*");
        case Text(v) =>
          part := v;
        case ThematicBreak =>
          part := "\n----------\n";
        case OtherParent(_) =>
          part := "";
        case OtherLeaf =>
          part := "";
      }
    }

    /** `surround_nodes_with`. */
    method SurroundNodesWith(nodes: seq<Node>, prefix: string, suffix: string) returns (s: string)
      requires AllWellFormed(nodes)
      modifies this
      ensures indentLevel == old(indentLevel)
      ensures s == Rendering.SurroundNodesWith(nodes, prefix, suffix, old(indentLevel))
      decreases nodes, 2
    {
      var inner := Parse(nodes);
      s := Rendering.SurroundWith(inner, prefix, suffix);
    }

    /**
     * `handle_list`: raise the counter, fold the items into lines indented
     * for the new depth, lower the counter, collapse doubled newlines once
     * and append a newline.
     */
    method HandleList(ordered: bool, items: seq<Node>) returns (s: string)
      requires Rendering.ListItemsOk(items)
      modifies this
      ensures indentLevel == old(indentLevel)
      ensures s == Rendering.RenderList(ordered, items, old(indentLevel))
      decreases items, 3
    {
      indentLevel := indentLevel + 1;
      var current := indentLevel;
      var acc;
      if ordered {
        acc := OrderedLines(items, current);
      } else {
        acc := UnorderedLines(items, current);
      }
      assert acc == Rendering.ItemLines(ordered, items, old(indentLevel) + 1, |items|);
      indentLevel := SaturatingSub(indentLevel, 1);
      s := Replace(acc, "\n\n", "\n") + "\n";
    }

    /** The fold of `handle_list` over the items of an ordered list: numbered 1, 2, … in item order. */
    method OrderedLines(items: seq<Node>, depth: nat) returns (acc: string)
      requires Rendering.ListItemsOk(items) && depth >= 1 && indentLevel == depth
      modifies this
      ensures indentLevel == depth
      ensures acc == Rendering.ItemLines(true, items, depth, |items|)
      decreases items, 2
    {
      acc := "";
      var i := 0;
      while i < |items|
        invariant 0 <= i <= |items|
        invariant indentLevel == depth
        invariant acc == Rendering.ItemLines(true, items, depth, i)
      {
        assert items[i] in items;
        var body := Parse(items[i].children);
        var line := Rendering.Indent(depth) + NatToDecimal(i + 1) + ".  " + body + "\n";
        assert line == Rendering.ItemLine(true, items[i], i, depth);
        assert Rendering.ItemLines(true, items, depth, i + 1) == acc + line;
        acc := acc + line;
        i := i + 1;
      }
    }

    /** The fold of `handle_list` over the items of an unordered list: each decorated by its checkbox state. */
    method UnorderedLines(items: seq<Node>, depth: nat) returns (acc: string)
      requires Rendering.ListItemsOk(items) && depth >= 1 && indentLevel == depth
      modifies this
      ensures indentLevel == depth
      ensures acc == Rendering.ItemLines(false, items, depth, |items|)
      decreases items, 2
    {
      acc := "";
      var i := 0;
      while i < |items|
        invariant 0 <= i <= |items|
        invariant indentLevel == depth
        invariant acc == Rendering.ItemLines(false, items, depth, i)
      {
        assert items[i] in items;
        var bullet := Rendering.Bullet(Rendering.CheckedState(items[i]));
        var body := Parse(items[i].children);
        var line := Rendering.Indent(depth) + bullet + "   " + body + "\n";
        assert line == Rendering.ItemLine(false, items[i], i, depth);
        assert Rendering.ItemLines(false, items, depth, i + 1) == acc + line;
        acc := acc + line;
        i := i + 1;
      }
    }
  }
}
