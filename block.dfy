/**
 * The Block Kit blocks the segmenter emits, and the `From<Block>` mapping of
 * each block to the JSON record the Slack API expects.
 */
module Blocks {
  import opened Wrappers

  datatype Block = Header(text: string) | Divider | Section(text: string)

  /** The JSON values that `serde_json::json!` builds here; an object is a map from keys to values. */
  datatype Json =
    | JString(str: string)
    | JBool(b: bool)
    | JArray(elems: seq<Json>)
    | JObject(fields: map<string, Json>)

  /** The `"type"` tag of each block's record. */
  function TypeTag(b: Block): string {
    match b
    case Header(_) => "header"
    case Divider => "divider"
    case Section(_) => "section"
  }

  /** `From<Block> for serde_json::Value`. */
  function ToRecord(b: Block): (j: Json)
    ensures j.JObject? && "type" in j.fields && j.fields["type"] == JString(TypeTag(b))
    ensures j.fields.Keys == if b.Divider? then {"type"} else {"type", "text"}
    ensures !b.Divider? ==>
      && "text" in j.fields && j.fields["text"].JObject?
      && "text" in j.fields["text"].fields
      && j.fields["text"].fields["text"] == JString(b.text)
  {
    match b
    case Header(t) =>
      JObject(map["type" := JString("header"),
                  "text" := JObject(map["type" := JString("plain_text"), "text" := JString(t), "emoji" := JBool(true)])])
    case Divider =>
      JObject(map["type" := JString("divider")])
    case Section(t) =>
      JObject(map["type" := JString("section"),
                  "text" := JObject(map["type" := JString("mrkdwn"), "text" := JString(t)])])
  }

  /** The text of a `{"type": kind, "text": t}` object, with `"emoji": true` as well when `emoji` is set. */
  function TextObject(j: Json, kind: string, emoji: bool): Option<string> {
    if && j.JObject?
       && j.fields.Keys == (if emoji then {"type", "text", "emoji"} else {"type", "text"})
       && j.fields["type"] == JString(kind)
       && j.fields["text"].JString?
       && (emoji ==> j.fields["emoji"] == JBool(true))
    then Some(j.fields["text"].str)
    else None
  }

  /** Reads a block back from its record; `None` for any other JSON value. */
  function FromRecord(j: Json): (r: Option<Block>)
    ensures r.Some? ==> j.JObject? && "type" in j.fields && j.fields["type"] == JString(TypeTag(r.value))
    ensures r.Some? ==> j.fields.Keys == if r.value.Divider? then {"type"} else {"type", "text"}
  {
    if !j.JObject? || "type" !in j.fields then None
    else
      var f := j.fields;
      if f["type"] == JString("divider") && f.Keys == {"type"} then Some(Divider)
      else if f["type"] == JString("header") && f.Keys == {"type", "text"} then
        match TextObject(f["text"], "plain_text", true)
        case Some(t) => Some(Header(t))
        case None => None
      else if f["type"] == JString("section") && f.Keys == {"type", "text"} then
        match TextObject(f["text"], "mrkdwn", false)
        case Some(t) => Some(Section(t))
        case None => None
      else None
  }

  /** Every block is read back from its record, text unchanged. */
  lemma RecordRoundTrip(b: Block)
    ensures FromRecord(ToRecord(b)) == Some(b)
  {
    var j := ToRecord(b);
    match b
    case Header(t) =>
      assert j.fields.Keys == {"type", "text"};
      assert j.fields["text"].fields.Keys == {"type", "text", "emoji"};
    case Divider =>
    case Section(t) =>
      assert j.fields.Keys == {"type", "text"};
      assert j.fields["text"].fields.Keys == {"type", "text"};
  }

  /** Only a block's own record is read back as that block. */
  lemma RecordDecodeExact(j: Json, b: Block)
    requires FromRecord(j) == Some(b)
    ensures ToRecord(b) == j
  {
    var f := j.fields;
    match b
    case Header(t) =>
      var g := f["text"].fields;
      assert g == map["type" := JString("plain_text"), "text" := JString(t), "emoji" := JBool(true)];
      assert f == map["type" := JString("header"), "text" := f["text"]];
    case Divider =>
      assert f == map["type" := JString("divider")];
    case Section(t) =>
      var g := f["text"].fields;
      assert g == map["type" := JString("mrkdwn"), "text" := JString(t)];
      assert f == map["type" := JString("section"), "text" := f["text"]];
  }

  /** Different blocks never share a record. */
  lemma RecordInjective(a: Block, b: Block)
    requires ToRecord(a) == ToRecord(b)
    ensures a == b
  {
    RecordRoundTrip(a);
    RecordRoundTrip(b);
  }

  /** The records of a block sequence, in order. */
  function Records(bs: seq<Block>): (js: seq<Json>)
    ensures |js| == |bs|
    ensures forall i :: 0 <= i < |bs| ==> js[i] == ToRecord(bs[i])
  {
    if bs == [] then [] else [ToRecord(bs[0])] + Records(bs[1..])
  }

  /** The `{ "blocks": [...] }` document the converter prints. */
  function Document(bs: seq<Block>): Json {
    JObject(map["blocks" := JArray(Records(bs))])
  }

  function FromRecords(js: seq<Json>): Option<seq<Block>> {
    if js == [] then Some([])
    else match (FromRecord(js[0]), FromRecords(js[1..]))
      case (Some(b), Some(rest)) => Some([b] + rest)
      case _ => None
  }

  /** Reads the block sequence back from a document. */
  function FromDocument(j: Json): Option<seq<Block>> {
    if j.JObject? && j.fields.Keys == {"blocks"} && j.fields["blocks"].JArray? then
      FromRecords(j.fields["blocks"].elems)
    else None
  }

  /** The document keeps every block and their order. */
  lemma {:induction false} DocumentRoundTrip(bs: seq<Block>)
    ensures FromDocument(Document(bs)) == Some(bs)
  {
    RecordsRoundTrip(bs);
    assert Document(bs).fields.Keys == {"blocks"};
  }

  lemma {:induction false} RecordsRoundTrip(bs: seq<Block>)
    ensures FromRecords(Records(bs)) == Some(bs)
  {
    if bs != [] {
      RecordRoundTrip(bs[0]);
      RecordsRoundTrip(bs[1..]);
      assert Records(bs)[1..] == Records(bs[1..]);
      assert [bs[0]] + bs[1..] == bs;
    }
  }
}
