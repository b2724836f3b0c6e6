/** `useDoc`: the state a component sees while subscribed to one document.
    Like the collection hook, but a snapshot may report the document as
    absent, there is no `disabled` option and no memoisation check. */
module UseDoc {
  import opened Wrappers
  import opened FirestoreDocs

  /** The hook's return value `{data, isLoading, error}`. */
  datatype DocResult = DocResult(
    data: Option<Fields>,
    isLoading: bool,
    error: Option<PermissionError>)

  /** A document reference, identified by its path. */
  datatype DocRef = DocRef(path: string)

  datatype Hook = Hook(result: DocResult, listening: Option<DocRef>)

  /** What a snapshot says about the document. */
  datatype Snap = Exists(doc: DocSnapshot) | Absent

  predicate Coherent(r: DocResult) {
    r.error.Some? ==> r.data.None? && !r.isLoading
  }

  /** The first render: not loading, nothing attached yet. */
  function Init(): (h: Hook)
    ensures h.result == DocResult(None, false, None) && h.listening.None?
    ensures Coherent(h.result)
  {
    Hook(DocResult(None, false, None), None)
  }

  /** The effect, run when the reference changes: the previous listener is
      detached; a null reference clears the state, otherwise a listener is
      attached and loading starts with the previous data kept. */
  function RunEffect(h: Hook, ref: Option<DocRef>): (r: Hook)
    ensures ref.None? ==> r == Hook(DocResult(None, false, None), None)
    ensures ref.Some? ==>
      r.listening == ref && r.result.isLoading && r.result.error.None?
      && r.result.data == h.result.data
    ensures Coherent(r.result)
  {
    match ref
    case None => Hook(DocResult(None, false, None), None)
    case Some(_) => Hook(DocResult(h.result.data, true, None), ref)
  }

  /** A snapshot: an existing document becomes its fields with the id merged
      in, an absent one becomes null; loading ends, any error is cleared. */
  function OnSnapshot(h: Hook, snap: Snap): (r: Hook)
    ensures h.listening.None? ==> r == h
    ensures h.listening.Some? ==>
      && r.listening == h.listening
      && !r.result.isLoading && r.result.error.None?
      && (snap.Absent? ==> r.result.data.None?)
      && (snap.Exists? ==> r.result.data == Some(WithId(snap.doc)))
  {
    if h.listening.None? then h
    else
      var data := match snap
        case Exists(d) => Some(WithId(d))
        case Absent => None;
      Hook(DocResult(data, false, None), h.listening)
  }

  /** A listener error: a `get` permission error for the document's path
      replaces the data, ends loading, and is emitted once. The listener is
      gone afterwards: Firestore cancels a listener once it has reported an
      error. */
  function OnError(h: Hook): (r: (Hook, Option<PermissionError>))
    ensures h.listening.None? ==> r == (h, None)
    ensures h.listening.Some? ==>
      && r.1 == Some(PermissionError(Get, h.listening.value.path))
      && r.0.result == DocResult(None, false, r.1)
      && r.0.listening.None?
  {
    match h.listening
    case None => (h, None)
    case Some(ref) =>
      var e := PermissionError(Get, ref.path);
      (Hook(DocResult(None, false, Some(e)), None), Some(e))
  }

  datatype Event = Effect(ref: Option<DocRef>) | Snapshot(snap: Snap) | ListenerError

  function Step(h: Hook, e: Event): Hook {
    match e
    case Effect(ref) => RunEffect(h, ref)
    case Snapshot(snap) => OnSnapshot(h, snap)
    case ListenerError => OnError(h).0
  }

  function Run(h: Hook, events: seq<Event>): Hook {
    if events == [] then h else Step(Run(h, events[..|events| - 1]), events[|events| - 1])
  }

  /** Whatever events arrive, an error is never shown with data or while
      loading, and nothing loads without an attached listener. */
  lemma {:induction false} RunKeepsCoherent(events: seq<Event>)
    ensures Coherent(Run(Init(), events).result)
    ensures Run(Init(), events).result.isLoading ==> Run(Init(), events).listening.Some?
  {
    if events != [] {
      RunKeepsCoherent(events[..|events| - 1]);
    }
  }

  /** The data shown is always a whole document with its own id, or
      nothing: a snapshot never leaves a document under another id. */
  lemma DataCarriesDocId(h: Hook, d: DocSnapshot)
    requires h.listening.Some?
    ensures OnSnapshot(h, Exists(d)).result.data.value["id"] == Str(d.id)
  {
  }

  /** An error is final until the effect runs again: later snapshots and
      errors from the cancelled listener change nothing. */
  lemma {:induction false} ErrorIsFinal(h: Hook, events: seq<Event>)
    requires forall i :: 0 <= i < |events| ==> !events[i].Effect?
    ensures Run(OnError(h).0, events) == OnError(h).0
  {
    if events != [] {
      ErrorIsFinal(h, events[..|events| - 1]);
    }
  }
}
