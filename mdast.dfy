/**
 * The Markdown abstract syntax tree (mdast) that the external GFM parser
 * hands to the converter. Only the fields the converter reads are kept.
 */
module Mdast {
  import opened Wrappers

  /**
   * One mdast node. The kinds the converter renders have their own variant;
   * every other kind is `OtherParent` when mdast gives it children (Root,
   * Table, TableRow, TableCell, FootnoteDefinition, LinkReference and the
   * MDX JSX elements) and `OtherLeaf` when it does not (Definition,
   * FootnoteReference, Html, Image, ImageReference, InlineMath, Math, the
   * MDX expressions and ESM, Toml, Yaml).
   */
  datatype Node =
    | BlockQuote(children: seq<Node>)
    | Break
    | Code(value: string)
    | Delete(children: seq<Node>)
    | Emphasis(children: seq<Node>)
    | Heading(depth: nat, children: seq<Node>)
    | InlineCode(value: string)
    | Link(url: string, children: seq<Node>)
    | List(ordered: bool, children: seq<Node>)
    | ListItem(checked: Option<bool>, children: seq<Node>)
    | Paragraph(children: seq<Node>)
    | Strong(children: seq<Node>)
    | Text(value: string)
    | ThematicBreak
    | OtherParent(children: seq<Node>)
    | OtherLeaf

  /** `Node::children()` is `Some` exactly for these kinds. */
  predicate IsParent(n: Node) {
    !(n.Break? || n.Code? || n.InlineCode? || n.Text? || n.ThematicBreak? || n.OtherLeaf?)
  }

  /** mdast's `Node::children()`. */
  function Children(n: Node): (r: Option<seq<Node>>)
    ensures r.Some? <==> IsParent(n)
    ensures r.Some? ==> r.value == n.children
  {
    if IsParent(n) then Some(n.children) else None
  }

  /**
   * The trees the converter can render without panicking: it calls
   * `children().unwrap()` on every child of a list, so each of those must
   * be a parent node (the parser only ever puts list items there).
   */
  predicate WellFormed(n: Node)
    decreases n
  {
    && (n.List? ==> forall c | c in n.children :: IsParent(c))
    && (IsParent(n) ==> forall c | c in n.children :: WellFormed(c))
  }

  predicate AllWellFormed(nodes: seq<Node>) {
    forall n | n in nodes :: WellFormed(n)
  }
}
