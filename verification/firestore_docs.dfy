/** What the live-subscription hooks hand to their callers: document fields
    with the document id merged in, and the permission error they report. */
module FirestoreDocs {

  /** A stored field value. */
  datatype Value = Str(s: string) | Num(n: int) | Bool(b: bool) | Null

  type Fields = map<string, Value>

  /** A document as a snapshot delivers it: its id and its stored fields. */
  datatype DocSnapshot = DocSnapshot(id: string, fields: Fields)

  /** `{ ...doc.data(), id: doc.id }`: the stored fields plus `id`, where
      the document's id wins over any stored `id` field. */
  function WithId(d: DocSnapshot): (r: Fields)
    ensures "id" in r && r["id"] == Str(d.id)
    ensures forall k :: k in r <==> k in d.fields || k == "id"
    ensures forall k :: k in d.fields && k != "id" ==> r[k] == d.fields[k]
  {
    d.fields["id" := Str(d.id)]
  }

  /** Merging the id is idempotent: a document whose stored `id` already
      equals its id is returned as stored. */
  lemma WithIdKeepsMatchingId(d: DocSnapshot)
    requires "id" in d.fields && d.fields["id"] == Str(d.id)
    ensures WithId(d) == d.fields
  {
  }

  datatype Operation = List | Get

  /** The contextual error raised when a listener is refused. */
  datatype PermissionError = PermissionError(operation: Operation, path: string)
}
