/** The observable effects of the runner, recorded as a trace of events, and the
    counting and resource-discipline views of a trace that the properties use. */
module Trace {
  import opened Wrappers
  import opened Params
  import opened Engine

  datatype Event =
    | LogQuery(query: string, params: Option<seq<Value>>)
    | BroadcastBefore(query: string, params: Option<seq<Value>>)
    | Prepare(query: string, ok: bool)
    | Bind(bound: seq<Value>)
    | LogSlow(elapsed: int, query: string, params: Option<seq<Value>>)
    | BroadcastAfter(success: bool, query: string, params: Option<seq<Value>>,
                     executionTime: Option<int>, records: Option<seq<Row>>, failure: Option<Cause>)
    | Free
    | LogError(cause: Cause, query: string, params: Option<seq<Value>>)
    | AwaitSubscribers
    | AutoSave(ok: bool)
    | InheritedCommit(ok: bool)
    | InheritedRelease(ok: bool)

  /** Event kinds, for counting; an after-query broadcast is split by its success flag. */
  datatype Kind =
    | LogQueryKind | BroadcastBeforeKind | PrepareKind | BindKind | LogSlowKind
    | AfterSuccessKind | AfterFailureKind | FreeKind | LogErrorKind | AwaitKind
    | AutoSaveKind | InheritedCommitKind | InheritedReleaseKind

  function KindOf(e: Event): Kind {
    match e
    case LogQuery(_, _) => LogQueryKind
    case BroadcastBefore(_, _) => BroadcastBeforeKind
    case Prepare(_, _) => PrepareKind
    case Bind(_) => BindKind
    case LogSlow(_, _, _) => LogSlowKind
    case BroadcastAfter(success, _, _, _, _, _) => if success then AfterSuccessKind else AfterFailureKind
    case Free => FreeKind
    case LogError(_, _, _) => LogErrorKind
    case AwaitSubscribers => AwaitKind
    case AutoSave(_) => AutoSaveKind
    case InheritedCommit(_) => InheritedCommitKind
    case InheritedRelease(_) => InheritedReleaseKind
  }

  /** How many events of kind `k` the trace holds. */
  function Count(t: seq<Event>, k: Kind): (n: nat)
    ensures n <= |t|
  {
    if t == [] then 0 else (if KindOf(t[0]) == k then 1 else 0) + Count(t[1..], k)
  }

  /** The count of a single event's own kind. */
  function One(e: Event, k: Kind): nat {
    if KindOf(e) == k then 1 else 0
  }

  lemma {:induction false} CountAppend(a: seq<Event>, b: seq<Event>, k: Kind)
    ensures Count(a + b, k) == Count(a, k) + Count(b, k)
  {
    if a != [] {
      assert (a + b)[1..] == a[1..] + b;
      CountAppend(a[1..], b, k);
    } else {
      assert a + b == b;
    }
  }

  lemma CountAppendAll(a: seq<Event>, b: seq<Event>)
    ensures forall k :: Count(a + b, k) == Count(a, k) + Count(b, k)
  {
    forall k {
      CountAppend(a, b, k);
    }
  }

  lemma CountPair(e1: Event, e2: Event, k: Kind)
    ensures Count([e1, e2], k) == One(e1, k) + One(e2, k)
  {
  }

  lemma CountTriple(e1: Event, e2: Event, e3: Event, k: Kind)
    ensures Count([e1, e2, e3], k) == One(e1, k) + One(e2, k) + One(e3, k)
  {
    assert [e1, e2, e3][1..] == [e2, e3];
    CountPair(e2, e3, k);
  }

  /** Replays the prepared-statement lifecycle along a trace, starting with `held`
      telling whether a statement is outstanding. A successful `Prepare` acquires a
      statement, `Free` gives it back; binding needs a statement; a second prepare
      while one is held, a free with none held, or awaiting subscribers (the last
      thing before `query` returns or throws) with one still held breaks the
      discipline (`None`). Otherwise the answer is whether one is held at the end. */
  function Lifecycle(t: seq<Event>, held: bool): Option<bool> {
    if t == [] then Some(held)
    else match t[0]
      case Prepare(_, ok) => if held then None else Lifecycle(t[1..], ok)
      case Bind(_) => if held then Lifecycle(t[1..], held) else None
      case Free => if held then Lifecycle(t[1..], false) else None
      case AwaitSubscribers => if held then None else Lifecycle(t[1..], held)
      case _ => Lifecycle(t[1..], held)
  }

  /** Every prepared statement is freed, exactly once, before the call completes. */
  predicate StatementsFreed(t: seq<Event>) {
    Lifecycle(t, false) == Some(false)
  }

  lemma {:induction false} LifecycleAppend(a: seq<Event>, b: seq<Event>, held: bool)
    ensures Lifecycle(a + b, held) ==
      match Lifecycle(a, held)
      case None => None
      case Some(h) => Lifecycle(b, h)
  {
    if a != [] {
      assert (a + b)[1..] == a[1..] + b;
      match a[0]
      case Prepare(_, ok) =>
        if !held { LifecycleAppend(a[1..], b, ok); }
      case Bind(_) =>
        if held { LifecycleAppend(a[1..], b, held); }
      case Free =>
        if held { LifecycleAppend(a[1..], b, false); }
      case AwaitSubscribers =>
        if !held { LifecycleAppend(a[1..], b, held); }
      case _ =>
        LifecycleAppend(a[1..], b, held);
    } else {
      assert a + b == b;
    }
  }
}
