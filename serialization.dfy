/**
 * Turning stored documents into JSON-safe ones: the `_id` object id becomes
 * its string form and every top-level timestamp becomes its ISO text. The
 * textual renderings of a timestamp are supplied by the caller.
 */
module Serialization {
  import opened Records

  /** A top-level field value of a stored document. */
  datatype Value =
    | ObjectId(hex: string)
    | Timestamp(t: Time)
    | Text(s: string)
    | Scalar(repr: string)  // numbers, booleans and None, by their printed form

  type Doc = map<string, Value>

  /** How the runtime renders a timestamp: ISO text, and its plain string form. */
  datatype TimeFormat = TimeFormat(isoformat: Time -> string, str: Time -> string)

  /** The string form of a value: an object id prints as its hex digits. */
  function PyStr(v: Value, fmt: TimeFormat): string {
    match v
    case ObjectId(h) => h
    case Timestamp(t) => fmt.str(t)
    case Text(s) => s
    case Scalar(r) => r
  }

  /** What one field becomes: `_id` is stringified first, then timestamps become ISO text. */
  function SerializedValue(key: string, v: Value, fmt: TimeFormat): Value {
    if key == "_id" then Text(PyStr(v, fmt))
    else if v.Timestamp? then Text(fmt.isoformat(v.t))
    else v
  }

  /** The document after serialisation; a missing document stays missing. */
  function Serialized(doc: Option<Doc>, fmt: TimeFormat): Option<Doc> {
    match doc
    case None => None
    case Some(d) => Some(map k | k in d :: SerializedValue(k, d[k], fmt))
  }

  /**
   * Rewrites one document field by field. The result has the same keys, no
   * timestamp is left at the top level, `_id` holds text, and every other
   * non-timestamp value is untouched.
   */
  method SerializeDoc(doc: Option<Doc>, fmt: TimeFormat) returns (r: Option<Doc>)
    ensures r == Serialized(doc, fmt)
    ensures doc.None? <==> r.None?
    ensures doc.Some? ==> r.value.Keys == doc.value.Keys
    ensures doc.Some? ==> forall k :: k in r.value ==> !r.value[k].Timestamp?
    ensures doc.Some? && "_id" in doc.value ==> r.value["_id"] == Text(PyStr(doc.value["_id"], fmt))
    ensures doc.Some? ==> forall k :: k in doc.value && k != "_id" && !doc.value[k].Timestamp? ==> r.value[k] == doc.value[k]
  {
    if doc.None? {
      return None;
    }
    var d := doc.value;
    if "_id" in d {
      d := d["_id" := Text(PyStr(d["_id"], fmt))];
    }
    var pending := d.Keys;
    while pending != {}
      invariant pending <= d.Keys
      invariant d.Keys == doc.value.Keys
      invariant forall k :: k in d && k !in pending ==> d[k] == SerializedValue(k, doc.value[k], fmt)
      invariant forall k :: k in pending ==> d[k] == if k == "_id" then SerializedValue(k, doc.value[k], fmt) else doc.value[k]
      decreases pending
    {
      var k :| k in pending;
      if d[k].Timestamp? {
        d := d[k := Text(fmt.isoformat(d[k].t))];
      }
      pending := pending - {k};
    }
    assert d == map k | k in doc.value :: SerializedValue(k, doc.value[k], fmt);
    r := Some(d);
  }

  /**
   * Serialises a list of documents: nothing (or an empty list) gives the empty
   * list, otherwise each document is serialised in place of itself.
   */
  method SerializeDocs(docs: Option<seq<Option<Doc>>>, fmt: TimeFormat) returns (r: seq<Option<Doc>>)
    ensures docs.None? ==> r == []
    ensures docs.Some? ==> |r| == |docs.value|
    ensures docs.Some? ==> forall i :: 0 <= i < |r| ==> r[i] == Serialized(docs.value[i], fmt)
  {
    if docs.None? || docs.value == [] {
      return [];
    }
    var src := docs.value;
    r := [];
    for i := 0 to |src|
      invariant |r| == i
      invariant forall j :: 0 <= j < i ==> r[j] == Serialized(src[j], fmt)
    {
      var one := SerializeDoc(src[i], fmt);
      r := r + [one];
    }
  }

  /** Serialising an already serialised document changes nothing. */
  lemma SerializedIdempotent(doc: Option<Doc>, fmt: TimeFormat)
    ensures Serialized(Serialized(doc, fmt), fmt) == Serialized(doc, fmt)
  {
    if doc.Some? {
      var once := Serialized(doc, fmt).value;
      var twice := Serialized(Some(once), fmt).value;
      assert twice.Keys == once.Keys;
      forall k | k in once ensures twice[k] == once[k] {
        assert !once[k].Timestamp?;
      }
      assert twice == once;
    }
  }
}
