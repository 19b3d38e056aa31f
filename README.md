# markdown2mrkdwn, modelled in Dafny

markdown2mrkdwn turns GitHub Flavored Markdown into Slack's formats. It offers
two conversions:

- `mrkdwnify` produces one escaped *mrkdwn* string.
- `blockify` produces a Block Kit document (`{ "blocks": [...] }`) of header,
  divider and section blocks.

Both conversions go through the same parts. The external parser gives an mdast
tree. `parse` renders that tree node by node. `handle_list` turns lists into
indented, numbered or bulleted lines, using a nesting counter kept in the
converter object. `mrkdwnify` then trims and escapes the text with a chain of
`replace` calls and strips trailing literal `\n` with `trim_end_matches`.
`blockify` instead cuts the top-level children into blocks and maps each
block to JSON.

The model has these modules, one per file:

- `Wrappers` (wrappers.dfy): `Option` and `Result`.
- `RustStr` (rust_str.dfy): the Rust string operations the converter relies
  on, written out with their exact semantics:
  - `str::replace`: a left-to-right, non-overlapping pass;
  - `trim` over the Unicode White_Space set;
  - `trim_end_matches`, which strips repeatedly;
  - `saturating_sub`, `repeat`, and the decimal formatting of `usize`.
- `Mdast` (mdast.dfy): the mdast nodes the converter reads. Every node kind it
  does not support becomes `OtherParent` or `OtherLeaf`. `Children` is mdast's
  `Node::children()`.
- `Blocks` (block.dfy): the `Block` enum and its `From<Block> for Value`
  mapping into a small JSON value type. A decoder is proved to invert it.
- `Escaping` (escaping.dfy): the escaping tail of `mrkdwnify`. It is proved to
  be a one-pass character substitution. The result is proved to be escaped.
  For text without backslashes, an unescaper is proved to undo it.
- `Rendering` (rendering.dfy): `parse`, `surround_with`, `surround_nodes_with`,
  `handle_list`, `blockify` and `mrkdwnify` as pure functions. The nesting
  counter is an explicit `level` parameter.
- `RenderingProps` (rendering_props.dfy): properties of the rendering:
  - appending nodes appends text;
  - unsupported nodes vanish;
  - the level matters only for lists;
  - the shape of each list line;
  - how blocks are segmented;
  - that `mrkdwnify` loses nothing but outer white space and trailing line
    breaks, when the rendered text has no backslash.
- `Converter` (converter.dfy): the converter object itself. The class `Mrkdwn`
  has the mutable `indentLevel` field. Its methods `Parse`, `ParseNode`,
  `SurroundNodesWith` and `HandleList` call each other and fold with loops.
  They are proved to compute the `Rendering` functions and to leave the counter
  as they found it.
- `Examples` (examples.dfy): the repository's own unit tests in src/lib.rs,
  stated over the mdast trees the parser produces for their inputs. The
  heading, paragraph and list tests also have a general form, quantified over
  the item texts. The thematic-break and escaping tests have fixed inputs and
  are stated only for those.

Two points of the code are easy to misread:

- The doc comment at src/mrkdwn.rs:50-53 says that `mrkdwnify` fails when the
  root node has no children elements. The code at src/mrkdwn.rs:59-60 fails
  only when `children()` is `None`. An empty document therefore gives the empty
  string from `mrkdwnify` and no blocks from `blockify`. The error "no input?"
  arises only for a root with no children list at all (`EmptyDocumentText`,
  `EmptyDocumentBlocks`).
- `trim_end_matches("\\n")` at src/mrkdwn.rs:66 strips every trailing
  two-character sequence backslash-n, not just one. This includes one the
  author typed literally (`TrailingLiteralNewlineDropped`).

The escaping does not lose information on text without backslashes
(`UnescapeEscapeText`, `MrkdwnifyLossless`). In general it does, in three ways:

- A real newline and a typed backslash-n give the same output
  (`NewlineConflated`).
- Typed backslash-n sequences at the end of the text are dropped together with
  the escaped line breaks (`TrailingLiteralNewlineDropped`).
- `trim` drops the white space at both ends of the rendering.

## Model

| member | source | states |
|---|---|---|
| Mdast.Children | src/mrkdwn.rs:59-60 | `children()` is `Some` exactly for the parent kinds, and then it is the node's own children |
| Blocks.ToRecord | src/block.rs:8-31 | Every block becomes an object with its `type` tag. A divider has only that key. A header or section also has a `text` object that carries the block's text unchanged |
| Blocks.FromRecord | src/block.rs:8-31 | The decoder accepts only an object whose `type` tag names the decoded block, with exactly the keys that block's JSON has |
| Blocks.RecordRoundTrip | src/block.rs:8-31 | Decoding the JSON of any block gives that block back |
| Blocks.RecordDecodeExact | src/block.rs:8-31 | A JSON value decodes to a block only if it is exactly that block's JSON |
| Blocks.RecordInjective | src/block.rs:8-31 | Different blocks never map to the same JSON |
| Blocks.Records | src/mrkdwn.rs:113-114 | The collected JSON list has one entry per block, in the same order, each the mapping of its block |
| Blocks.RecordsRoundTrip | src/mrkdwn.rs:113-114 | The list of block records decodes back to the blocks |
| Blocks.Document | src/mrkdwn.rs:115-118 | The `{ "blocks": [...] }` object around the collected block records. It decodes back to exactly its blocks (`DocumentRoundTrip`) |
| Blocks.DocumentRoundTrip | src/mrkdwn.rs:113-118 | The `{ "blocks": [...] }` document decodes back to exactly the blocks it was made from |
| RustStr.ReplaceChar | src/mrkdwn.rs:63-65 | Replacing a character leaves no occurrence of it, unless the replacement contains it. Every character of the result came from the input, other than the replaced one, or from the replacement |
| RustStr.Replace | src/mrkdwn.rs:226 | `str::replace` as a left-to-right pass that rewrites each non-overlapping match. A replacement no longer than a non-empty pattern never lengthens the text |
| RustStr.ReplaceCharAppend | src/mrkdwn.rs:63-65 | Replacing a character distributes over concatenation |
| RustStr.ReplaceCharIsReplace | src/mrkdwn.rs:63-65 | `replace` with a `char` pattern is `replace` with the one-character string pattern |
| RustStr.ReplaceSplit | src/mrkdwn.rs:226 | When the second part cannot start a match, `replace` of a concatenation is the concatenation of the two replacements. No match straddles the seam |
| RustStr.ReplaceSkip | src/mrkdwn.rs:226 | A prefix without the pattern's first character passes through `replace` unchanged |
| RustStr.ReplaceWithoutMatch | src/mrkdwn.rs:226 | A string with no occurrence of the pattern is left unchanged by `replace` |
| RustStr.TrimStart | src/mrkdwn.rs:62 | The result is a suffix of the input. Everything removed is white space. The result does not start with white space |
| RustStr.TrimEnd | src/mrkdwn.rs:62 | The result is a prefix of the input. Everything removed is white space. The result does not end with white space |
| RustStr.Trim | src/mrkdwn.rs:62 | The result is a contiguous piece of the input, and everything before and after it is white space. The result has white space at neither end. It is empty exactly when the input is all white space |
| RustStr.TrimSurrounded | src/mrkdwn.rs:62 | `trim` of white space + s + white space is s when s has no white space at either end |
| RustStr.TrimEndMatches | src/mrkdwn.rs:66 | The result is a prefix of the input. What was removed is a whole number of copies of the pattern. The result no longer ends with the pattern |
| RustStr.RepetitionStarts | src/mrkdwn.rs:66 | A non-empty run of copies of the pattern starts with the pattern |
| RustStr.RepetitionChars | src/mrkdwn.rs:66 | A run of copies of the pattern contains only the pattern's characters |
| RustStr.SaturatingSub | src/mrkdwn.rs:222-225 | The difference is exact when x >= y and 0 otherwise, never negative |
| RustStr.Repeat | src/mrkdwn.rs:189 | `repeat(n)` is n times as long as its argument |
| RustStr.RepeatSpaces | src/mrkdwn.rs:189 | Repeating spaces gives only spaces |
| RustStr.DigitChar | src/mrkdwn.rs:190 | A decimal digit character encodes its value |
| RustStr.NatToDecimal | src/mrkdwn.rs:187-190 | The formatted number is non-empty, all digits, and has no leading zero unless it is 0 |
| RustStr.DecimalRoundTrip | src/mrkdwn.rs:187-190 | Reading back the formatted number gives the number |
| Escaping.EscapeChain | src/mrkdwn.rs:63-65 | The three chained `replace` calls of `mrkdwnify`. No real newline is left in the result |
| Escaping.EscapeTextAppend | src/mrkdwn.rs:63-65 | The one-pass escaping distributes over concatenation |
| Escaping.ChainIsOnePass | src/mrkdwn.rs:63-65 | The three chained `replace` calls equal one pass that maps `"` to `\"`, `&` to `&amp;` and a newline to the literal `\n`. The later replacements never touch what the earlier ones inserted |
| Escaping.EscapedAppend | src/mrkdwn.rs:63-65 | Concatenating two escaped texts gives an escaped text |
| Escaping.EscapeTextEscaped | src/mrkdwn.rs:63-65 | The escaped text has no real newline, every `"` is preceded by a backslash, and every `&` begins `&amp;` |
| Escaping.TrimLiteralNewlinesKeepsEscaped | src/mrkdwn.rs:66 | Stripping trailing literal `\n` keeps the text escaped. It never cuts an `&amp;` or separates a quote from its backslash |
| Escaping.AmpersandInPrefix | src/mrkdwn.rs:66 | An `&amp;` that starts in the kept prefix lies wholly inside it |
| Escaping.Escape | src/mrkdwn.rs:63-66 | The tail of `mrkdwnify` yields an escaped text that never ends with the literal `\n` |
| Escaping.UnescapeEscapeText | src/mrkdwn.rs:63-65 | On text without backslashes, unescaping inverts the escaping, so it loses nothing |
| Escaping.EscapeTextNoTrailingLiteral | src/mrkdwn.rs:63-66 | Text without backslashes and without a final newline never escapes to a text ending in the literal `\n`, so `trim_end_matches` leaves it alone |
| Rendering.SurroundWith | src/mrkdwn.rs:166-168 | The result starts with the prefix, ends with the suffix, and holds exactly the text between them |
| Rendering.SurroundNodesWith | src/mrkdwn.rs:170-172 | The result starts with the prefix, ends with the suffix, and holds exactly the rendering of the nodes between them |
| Rendering.Render | src/mrkdwn.rs:121-164 | `parse`: the renderings of the nodes, concatenated in order, at the given nesting level. Its properties are the `RenderingProps` lemmas |
| Rendering.RenderNode | src/mrkdwn.rs:126-161 | One arm of the `match` per node kind. Unsupported kinds give the empty string (`UnsupportedRendersNothing`) |
| Rendering.Indent | src/mrkdwn.rs:189 | The indentation of a line at nesting depth d is 4·(d−1) spaces |
| Rendering.Bullet | src/mrkdwn.rs:210-214 | The bullet is one visible character that is not a digit: •, ☑ or ☐ by the checkbox state |
| Rendering.CheckedState | src/mrkdwn.rs:202-205 | The checkbox state of a list item, and none for any other node. It picks the bullet (`ItemLineShape`), and different states give different bullets (`BulletInjective`) |
| Rendering.Marker | src/mrkdwn.rs:187-190 | The marker of an item starts with a visible character, has no newline, and ends with `.  ` for an ordered list or three spaces for an unordered one |
| Rendering.ItemLine | src/mrkdwn.rs:187-191 | One item's line: indentation, marker, the item's rendered children, a newline. Its shape is `ItemLineShape` |
| Rendering.ItemLines | src/mrkdwn.rs:180-220 | The fold over the first n items, one line each in list order (`ItemLinesInOrder`) |
| Rendering.RenderList | src/mrkdwn.rs:174-227 | `handle_list` at one level deeper than the caller's. Every rendered list ends with a newline |
| Rendering.ChildBlocks | src/mrkdwn.rs:93-112 | One top-level child gives one block, or two for a level-1 heading. The first is a header exactly for a heading and a divider exactly for a thematic break. The second is always a divider |
| Rendering.Segment | src/mrkdwn.rs:88-114 | The `flat_map` over the top-level children: their blocks, concatenated in order (`SegmentAppend`, `SegmentLength`) |
| Rendering.Blockify | src/mrkdwn.rs:85-119 | Fails with the parser's message when parsing fails. Fails with "no input?" when the root has no children list. Succeeds otherwise |
| Rendering.Mrkdwnify | src/mrkdwn.rs:54-68 | Has the same three outcomes as `blockify`. On success the text is escaped and does not end with the literal `\n` |
| RenderingProps.RenderAppend | src/mrkdwn.rs:121-164 | `parse` of two node lists, one after the other, is the concatenation of their renderings |
| RenderingProps.UnsupportedRendersNothing | src/mrkdwn.rs:141-161 | An unsupported node contributes nothing, wherever it sits |
| RenderingProps.LevelOnlyAffectsLists | src/mrkdwn.rs:121-164 | With no list anywhere in the nodes, the nesting counter has no effect on the text |
| RenderingProps.DigitRun | src/mrkdwn.rs:187-190 | The leading digits of a string are a prefix made only of digits, and they are followed by a non-digit or the end |
| RenderingProps.OrderedMarkerReadsBack | src/mrkdwn.rs:187-190 | The number in front of an ordered item reads back as its 1-based position and is followed by `.  ` |
| RenderingProps.ItemLineShape | src/mrkdwn.rs:180-220 | Every item line has 4·(depth−1) spaces, then its marker, and ends with a newline. For an ordered list the marker is the position from 1 then `.  `. For an unordered list it is the item's bullet (•, ☑ or ☐ by the checkbox state) then three spaces |
| RenderingProps.BulletInjective | src/mrkdwn.rs:210-214 | Different checkbox states give different bullets |
| RenderingProps.ItemLinesInOrder | src/mrkdwn.rs:180-220 | The fold emits the items in list order: item k's line follows the lines of items 0..k−1 |
| RenderingProps.SegmentAppend | src/mrkdwn.rs:88-114 | The blocks of two child lists, one after the other, are the concatenation of their blocks |
| RenderingProps.SegmentAround | src/mrkdwn.rs:93-112 | A child contributes its own blocks in its own place, between the blocks of the children before and after it |
| RenderingProps.ChildBlocksAgreeWithRenderer | src/mrkdwn.rs:93-140 | A heading's block is a header holding its rendered children, plus a divider after a level-1 heading. A thematic break is a divider. Every other child is one section holding exactly what `parse` renders for it at level 0 |
| RenderingProps.SegmentLength | src/mrkdwn.rs:93-112 | The number of blocks is the number of children plus the number of level-1 headings |
| RenderingProps.MrkdwnifyLossless | src/mrkdwn.rs:54-68 | When the rendered text has no backslash, unescaping the `mrkdwnify` result gives back the trimmed rendering. Nothing but white space and trailing newlines is lost |
| Converter.Mrkdwn.From | src/mrkdwn.rs:34-39 | A new converter holds the parser's output with the nesting counter at 0 |
| Converter.Mrkdwn.Mrkdwnify | src/mrkdwn.rs:54-68 | The method computes `Rendering.Mrkdwnify` of the parsed tree and leaves the counter at 0 |
| Converter.Mrkdwn.Blockify | src/mrkdwn.rs:85-119 | The method's loop builds the document of exactly `Rendering.Blockify`'s blocks, or the same failure, and leaves the counter at 0 |
| Converter.Mrkdwn.ChildBlocks | src/mrkdwn.rs:93-112 | The blocks for one top-level child equal `Rendering.ChildBlocks`, with the counter left at 0 |
| Converter.Mrkdwn.Parse | src/mrkdwn.rs:121-164 | The loop's text equals `Rendering.Render` at the counter's value on entry. The counter is restored |
| Converter.Mrkdwn.ParseNode | src/mrkdwn.rs:126-161 | One node's text equals `Rendering.RenderNode` at the counter's value on entry. The counter is restored |
| Converter.Mrkdwn.SurroundNodesWith | src/mrkdwn.rs:170-172 | The method equals `Rendering.SurroundNodesWith` and restores the counter |
| Converter.Mrkdwn.HandleList | src/mrkdwn.rs:174-227 | The counter is raised for the items and lowered afterwards. The text equals `Rendering.RenderList` at the entry level |
| Converter.Mrkdwn.OrderedLines | src/mrkdwn.rs:180-195 | The fold over an ordered list builds `Rendering.ItemLines` for all items at the current depth |
| Converter.Mrkdwn.UnorderedLines | src/mrkdwn.rs:196-220 | The fold over an unordered list builds `Rendering.ItemLines` for all items, with each bullet taken from the item's checkbox state |
| Examples.ParagraphBlocks | src/mrkdwn.rs:107 | A document of one paragraph gives one section holding the paragraph's text and a newline |
| Examples.ParagraphTrimmed | src/mrkdwn.rs:54-68 | A paragraph with no white space at either end converts to its escaped text |
| Examples.EscapingAmpersandBlocks | src/lib.rs:25-29 | `&` gives the section `&` followed by a newline. Blocks are not escaped |
| Examples.EscapingQuoteBlocks | src/lib.rs:30-34 | `"` gives the section `"` followed by a newline |
| Examples.HeadingsBlocksOf | src/mrkdwn.rs:99-102 | Three headings of depths 1, 2 and 3 give a header, a divider, then a header and a header |
| Examples.HeadingsBlocks | src/lib.rs:75-79 | The headings test gives header "Heading 1", divider, header "Heading 2", header "Heading 3" |
| Examples.FlatListOf | src/mrkdwn.rs:174-227 | A top-level list of three one-paragraph items renders as three marker lines and a blank line. The paragraphs' newlines collapse with the line ends |
| Examples.ListsBlocks | src/lib.rs:85-89 | The bullet list test gives one section of three • lines and a blank line |
| Examples.OrderedListsBlocks | src/lib.rs:90-94 | The ordered list test is numbered 1, 2, 3 |
| Examples.NestedBlocksOf | src/mrkdwn.rs:174-227 | For any plain item texts, a three-level nested list is indented four spaces per level. The blank line is kept where an inner list closes just before an outer item |
| Examples.NestedListsBlocks | src/lib.rs:95-99 | The nested list test's section text |
| Examples.ThematicBreakBlocks | src/lib.rs:100 | `---` gives a single divider |
| Examples.TaskListsBlocks | src/lib.rs:101-105 | The task list test gives ☐, ☑, ☐ bullets |
| Examples.EscapingAmpersandText | src/lib.rs:162 | `&` converts to `&amp;` |
| Examples.EscapingQuoteText | src/lib.rs:163 | `"` converts to `\"` |
| Examples.HeadingsTextOf | src/mrkdwn.rs:132 | Three plain headings become bold lines separated by a literal `\n\n` |
| Examples.HeadingsText | src/lib.rs:184-188 | The headings test's text |
| Examples.FlatListTextOf | src/mrkdwn.rs:54-68 | A three-item list converts to marker lines joined by the literal `\n`, with the trailing newlines stripped |
| Examples.ListsText | src/lib.rs:190-194 | The bullet list test's text |
| Examples.OrderedListsText | src/lib.rs:195-199 | The ordered list test's text |
| Examples.NestedTextOf | src/mrkdwn.rs:54-68 | For any plain item texts, the nested list converts to indented lines joined by the literal `\n`. A literal `\n\n` sits where the inner list closes |
| Examples.NestedListsText | src/lib.rs:200-204 | The nested list test's text |
| Examples.ThematicBreakText | src/lib.rs:205 | `---` converts to ten dashes |
| Examples.TaskListsText | src/lib.rs:206-210 | The task list test's text |
| Examples.EmptyDocumentText | src/mrkdwn.rs:54-68 | A root with no children converts to the empty string, not an error |
| Examples.EmptyDocumentBlocks | src/mrkdwn.rs:85-119 | A root with no children gives no blocks, not an error |
| Examples.NewlineConflated | src/mrkdwn.rs:65 | A real newline and a typed backslash-n give the same output, so the escaping cannot be undone in general |
| Examples.EscapeStripsTrailing | src/mrkdwn.rs:66 | A literal `\n` the author typed at the end of plain text is stripped along with the escaped line breaks |
| Examples.TrailingLiteralNewlineDropped | src/mrkdwn.rs:66 | `done\n` typed literally converts to `done` |

## Left out

- The GFM parser (`to_mdast`) is a call into the `markdown` crate. The converter
  is given its output as a parameter: the root node, or the parser's error
  message.
- Only the node fields the converter reads are modelled. These are list
  `ordered`, item `checked`, heading `depth`, link `url`, and the text values.
  List `start` and `spread`, positions, titles and the like are not.
- The JSON text that `serde_json::to_string` writes is not modelled: key order,
  spacing and string quoting. The document is a JSON value, and the tests'
  expected JSON is stated as the block sequence it encodes.
- The `RwLock` around the counter is not modelled. The model is
  single-threaded, and lock poisoning (the `unwrap` of `write()`/`read()`) is not
  represented.
- Converter.Mrkdwn.HandleList: raises the counter with an unbounded `+ 1`. It
  does not model `saturating_add` capping at `usize::MAX`, which needs
  2^64 − 1 nested lists.
- The `unwrap` on `children()` of a list's children panics on a childless
  node. The model requires instead that every child of a list be a parent node
  (`WellFormed`), which the parser always provides.
- The command-line program in src/main.rs and the demo programs are not part of
  this model.
- The blocks tests in src/lib.rs call a method named `blocks_stringify`. It
  plays the role of `blockify` and is modelled as `Rendering.Blockify`.
- The lib.rs tests for emphasis, italic, bold, strikethrough, line breaks,
  block quotes, inline code, code blocks, links and the long text are not
  stated as lemmas. The text they expect is fixed by the arms of
  `Rendering.RenderNode` for those node kinds, which no separate lemma restates.
