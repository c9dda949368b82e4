/**
 * Firestore documents as the Android client sees them: maps from field
 * names to values. Writes with `SetOptions.merge()` overwrite the fields
 * they name and keep every other field of the stored document.
 */
module Firestore {
  import opened Wrappers
  import opened KotlinInts
  import opened Timestamps

  /** A field value as the client hands it back (integers come back as `Long`, decimals as `Double`). */
  datatype Value =
    | VNull
    | VString(s: string)
    | VLong(n: Int64)
    | VDouble(x: real)
    | VTimestamp(t: Timestamp)
    | VList(items: seq<Value>)
    | VMap(fields: map<string, Value>)
    | VOther

  type Document = map<string, Value>

  /** `doc.set(fields, SetOptions.merge())` on a document that may not exist yet. */
  function MergeSet(stored: Option<Document>, fields: Document): (r: Document)
    ensures r.Keys == fields.Keys + (if stored.Some? then stored.value.Keys else {})
    ensures forall f :: f in fields ==> r[f] == fields[f]
    ensures forall f :: f !in fields && stored.Some? && f in stored.value ==> r[f] == stored.value[f]
  {
    stored.GetOr(map[]) + fields
  }
}
