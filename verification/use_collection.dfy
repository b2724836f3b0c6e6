/** `useCollection`: the state a component sees while subscribed to a
    collection or query. The hook's state changes through four events: the
    effect run (which resets or starts a subscription), a snapshot, an error,
    and the render-time check that the query was memoised. */
module UseCollection {
  import opened Wrappers
  import opened FirestoreDocs

  /** The hook's return value `{data, isLoading, error}`. */
  datatype CollectionResult = CollectionResult(
    data: Option<seq<Fields>>,
    isLoading: bool,
    error: Option<PermissionError>)

  datatype TargetKind = CollectionTarget | QueryTarget

  /** The collection reference or query passed in; `memoized` is its
      `__memo` mark. The kind matters to the hook only for reading the path
      (a collection's own path, a query's canonical path), so `path` is
      already that string. */
  datatype Target = Target(kind: TargetKind, path: string, memoized: bool)

  /** The hook's state plus the listener currently attached, if any. */
  datatype Hook = Hook(result: CollectionResult, listening: Option<Target>)

  /** An error is never shown together with data or while loading. */
  predicate Coherent(r: CollectionResult) {
    r.error.Some? ==> r.data.None? && !r.isLoading
  }

  /** The first render: loading unless disabled, nothing attached yet. */
  function Init(disabled: bool): (h: Hook)
    ensures h.result.isLoading == !disabled
    ensures h.result.data.None? && h.result.error.None?
    ensures h.listening.None? && Coherent(h.result)
  {
    Hook(CollectionResult(None, !disabled, None), None)
  }

  /** The effect, run when the target or `disabled` changes: the previous
      listener is detached; when disabled or without a target the state is
      cleared, otherwise a listener is attached and loading starts with the
      previous data kept. */
  function RunEffect(h: Hook, target: Option<Target>, disabled: bool): (r: Hook)
    ensures disabled || target.None? ==>
      r == Hook(CollectionResult(None, false, None), None)
    ensures !disabled && target.Some? ==>
      r.listening == target && r.result.isLoading && r.result.error.None?
      && r.result.data == h.result.data
    ensures Coherent(r.result)
  {
    if disabled || target.None? then Hook(CollectionResult(None, false, None), None)
    else Hook(CollectionResult(h.result.data, true, None), target)
  }

  /** A snapshot from the attached listener: the documents in snapshot
      order, each with its id merged in; loading ends and any error is
      cleared. Without a listener nothing is delivered. */
  function OnSnapshot(h: Hook, docs: seq<DocSnapshot>): (r: Hook)
    ensures h.listening.None? ==> r == h
    ensures h.listening.Some? ==>
      && r.listening == h.listening
      && r.result.data.Some? && |r.result.data.value| == |docs|
      && (forall i :: 0 <= i < |docs| ==> r.result.data.value[i] == WithId(docs[i]))
      && !r.result.isLoading && r.result.error.None?
  {
    if h.listening.None? then h
    else Hook(CollectionResult(Some(seq(|docs|, i requires 0 <= i < |docs| => WithId(docs[i]))), false, None), h.listening)
  }

  /** A listener error: a `list` permission error for the target's path
      replaces the data, ends loading, and is emitted once. The listener is
      gone afterwards: Firestore cancels a listener once it has reported an
      error. */
  function OnError(h: Hook): (r: (Hook, Option<PermissionError>))
    ensures h.listening.None? ==> r == (h, None)
    ensures h.listening.Some? ==>
      && r.1 == Some(PermissionError(List, h.listening.value.path))
      && r.0.result == CollectionResult(None, false, r.1)
      && r.0.listening.None?
  {
    match h.listening
    case None => (h, None)
    case Some(t) =>
      var e := PermissionError(List, t.path);
      (Hook(CollectionResult(None, false, Some(e)), None), Some(e))
  }

  datatype RenderError = NotMemoized

  /** The render-time check: an enabled, non-null target that was not
      memoised is refused; otherwise the current state is returned. */
  function Render(h: Hook, target: Option<Target>, disabled: bool): (r: Result<CollectionResult, RenderError>)
    ensures r.Failure? <==> target.Some? && !disabled && !target.value.memoized
    ensures r.Success? ==> r.value == h.result
  {
    if target.Some? && !disabled && !target.value.memoized then Failure(NotMemoized)
    else Success(h.result)
  }

  datatype Event =
    | Effect(target: Option<Target>, disabled: bool)
    | Snapshot(docs: seq<DocSnapshot>)
    | ListenerError

  /** One event. An effect attaches a listener even to a target that was
      not memoised. In the hook, that render throws (`Render`) before the
      effect would run; the model admits the extra states, which keep every
      property proved below. */
  function Step(h: Hook, e: Event): Hook {
    match e
    case Effect(t, d) => RunEffect(h, t, d)
    case Snapshot(docs) => OnSnapshot(h, docs)
    case ListenerError => OnError(h).0
  }

  function Run(h: Hook, events: seq<Event>): Hook {
    if events == [] then h else Step(Run(h, events[..|events| - 1]), events[|events| - 1])
  }

  /** Whatever events arrive, an error is never shown with data or while
      loading. */
  lemma {:induction false} RunKeepsCoherent(disabled: bool, events: seq<Event>)
    ensures Coherent(Run(Init(disabled), events).result)
  {
    if events != [] {
      RunKeepsCoherent(disabled, events[..|events| - 1]);
    }
  }

  /** Once disabled (or given no target), the state stays cleared: the old
      listener's snapshots and errors no longer reach the component. */
  lemma {:induction false} DetachedStaysCleared(h: Hook, target: Option<Target>, disabled: bool, events: seq<Event>)
    requires disabled || target.None?
    requires forall i :: 0 <= i < |events| ==> !events[i].Effect?
    ensures Run(RunEffect(h, target, disabled), events).result == CollectionResult(None, false, None)
    ensures Run(RunEffect(h, target, disabled), events).listening == None
  {
    if events != [] {
      DetachedStaysCleared(h, target, disabled, events[..|events| - 1]);
    }
  }

  /** An error is final until the effect runs again: later snapshots and
      errors from the cancelled listener change nothing. */
  lemma {:induction false} ErrorIsFinal(h: Hook, events: seq<Event>)
    requires forall i :: 0 <= i < |events| ==> !events[i].Effect?
    ensures Run(OnError(h).0, events) == OnError(h).0
  {
    if events != [] {
      ErrorIsFinal(h, events[..|events| - 1]);
    }
  }
}
