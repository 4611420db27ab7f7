/** The initial replay of a registration is never lost: `on` holds the table mutex from before the
    call to the service until the listener is pushed, and dispatch takes the same mutex. */
module ReplayDispatch {
  import opened Kinds
  import opened Records
  import opened Listeners
  import opened CallbackQueue
  import opened CallbackRefs
  import opened CallbackSafety
  import opened WorkItems
  import opened Napi = NapiListeners

  /** The registration that caused a replay was refused, was accepted, or still holds the mutex. */
  predicate CauseKnown(s: State, f: nat) {
    f < |s.madeBy| && (f in s.refused || f in s.accepted
                       || (s.mutex.Some? && AddsUnderMutex(ThreadOf(s, s.mutex.value))
                           && ThreadOf(s, s.mutex.value).l.flag == f))
  }

  predicate SamePair(l: Listener, e: Event) {
    l.kind == e.kind && l.slot == e.slot
  }

  predicate ThreadPair(s: State, env: nat, e: Event, f: nat) {
    HasListener(ThreadOf(s, env)) && ThreadOf(s, env).l.flag == f ==> SamePair(ThreadOf(s, env).l, e)
  }

  /** The listener that caused a replay subscribed to just that slot and event type. */
  ghost predicate CausePair(s: State, e: Event, f: nat) {
    && (forall l :: l in s.list && l.flag == f ==> SamePair(l, e))
    && (forall env: nat :: ThreadPair(s, env, e, f))
  }

  ghost predicate CauseOk(s: State, e: Event) {
    e.cause.Some? ==> CauseKnown(s, e.cause.value) && CausePair(s, e, e.cause.value)
  }

  ghost predicate Causes(s: State) {
    forall i :: 0 <= i < |s.events| ==> CauseOk(s, s.events[i])
  }

  /** A dispatched replay: its registration was refused, or its listener had already been removed,
      or the listener was in the list and the loop had a work item for it. */
  ghost predicate FoundListener(d: Dispatch, refused: set<nat>) {
    d.event.cause.Some? ==>
      || d.event.cause.value in refused
      || d.event.cause.value in d.deleting
      || exists l :: l in d.list && l.flag == d.event.cause.value && NeedsHandling(l, d.event, d.slot)
  }

  /** The dispatch queued its whole work, or as much as the loops took. */
  predicate QueuedInFull(d: Dispatch) {
    var all := WorkFor(d.list, d.event, d.slot);
    d.queued == if d.upTo < |all| then all[..d.upTo] else all
  }

  ghost predicate Dispatches(s: State) {
    forall i :: 0 <= i < |s.dispatches| ==>
      FoundListener(s.dispatches[i], s.refused) && QueuedInFull(s.dispatches[i])
  }

  // ---------------------------------------------------------------- each step

  /** A listener of the list, or one that a thread is registering. */
  ghost predicate Familiar(s: State, l: Listener) {
    l in s.list || exists env: nat :: HasListener(ThreadOf(s, env)) && ThreadOf(s, env).l == l
  }

  /** A thread keeps its listener, drops it, or has created one just now. */
  predicate ThreadKeeps(s: State, t: State, env: nat) {
    HasListener(ThreadOf(t, env)) ==>
      || (HasListener(ThreadOf(s, env)) && ThreadOf(t, env).l == ThreadOf(s, env).l)
      || ThreadOf(t, env).l.flag >= |s.madeBy|
  }

  lemma CausePairKept(s: State, t: State, e: Event, f: nat)
    requires CauseKnown(s, f) && CausePair(s, e, f)
    requires forall l :: l in t.list ==> Familiar(s, l)
    requires forall env: nat :: ThreadKeeps(s, t, env)
    ensures CausePair(t, e, f)
  {
    forall l | l in t.list && l.flag == f
      ensures SamePair(l, e)
    {
      if l !in s.list {
        assert Familiar(s, l);
        var env: nat :| HasListener(ThreadOf(s, env)) && ThreadOf(s, env).l == l;
        assert ThreadPair(s, env, e, f);
      }
    }
    forall env: nat
      ensures ThreadPair(t, env, e, f)
    {
      assert ThreadKeeps(s, t, env) && ThreadPair(s, env, e, f);
    }
  }

  /** A step that forgets no cause and introduces no foreign listener. */
  lemma CausesKept(s: State, t: State)
    requires Causes(s)
    requires forall i :: 0 <= i < |t.events| ==> t.events[i] in s.events
    requires forall f :: CauseKnown(s, f) ==> CauseKnown(t, f)
    requires forall l :: l in t.list ==> Familiar(s, l)
    requires forall env: nat :: ThreadKeeps(s, t, env)
    ensures Causes(t)
  {
    forall i | 0 <= i < |t.events|
      ensures CauseOk(t, t.events[i])
    {
      var j :| 0 <= j < |s.events| && s.events[j] == t.events[i];
      assert CauseOk(s, s.events[j]);
      if t.events[i].cause.Some? {
        CausePairKept(s, t, t.events[i], t.events[i].cause.value);
      }
    }
  }

  lemma EventsIrrelevant(t: State, events: seq<Event>, e: Event)
    requires CauseOk(t.(events := events), e)
    ensures CauseOk(t, e)
  {
    if e.cause.Some? {
      forall env: nat
        ensures ThreadPair(t, env, e, e.cause.value)
      {
        assert ThreadPair(t.(events := events), env, e, e.cause.value);
      }
    }
  }

  lemma OnStartCauses(s: State, env: nat, kind: Kind, slot: int, fn: int)
    requires Sound(s) && Causes(s)
    ensures Causes(DoOnStart(s, env, kind, slot, fn))
  {
    var t := DoOnStart(s, env, kind, slot, fn);
    assert AddsUnderMutex(ThreadOf(s, env)) <==> s.mutex == Some(env);
    CausesKept(s, t);
  }

  lemma PushCauses(s: State, env: nat, l: Listener)
    requires Sound(s) && Causes(s) && HasListener(ThreadOf(s, env)) && l == ThreadOf(s, env).l
    requires s.mutex == None || s.mutex == Some(env)
    ensures Causes(Push(s, env, l))
  {
    var t := Push(s, env, l);
    assert forall m :: m in t.list <==> m in s.list || m == l;
    CausesKept(s, t);
  }

  lemma OnCheckCauses(simSlotCount: int, s: State, env: nat)
    requires Sound(s) && Causes(s)
    ensures Causes(DoOnCheck(simSlotCount, s, env))
  {
    if ThreadOf(s, env).Pending? {
      var t, l := DoOnCheck(simSlotCount, s, env), ThreadOf(s, env).l;
      assert AddsUnderMutex(ThreadOf(s, env)) <==> s.mutex == Some(env);
      if t == Push(s, env, l) && s.mutex.None? {
        PushCauses(s, env, l);
      } else {
        CausesKept(s, t);
      }
    }
  }

  /** The replay event of an answer belongs to the listener being added and to no other. */
  lemma NewCause(s: State, env: nat, t: State)
    requires Sound(s) && ThreadOf(s, env).Adding?
    requires t.list == s.list && t.madeBy == s.madeBy && t.mutex == s.mutex
    requires forall e: nat :: ThreadOf(t, e) == if e == env then Added(ThreadOf(s, env).l) else ThreadOf(s, e)
    ensures var l := ThreadOf(s, env).l; CauseOk(t, Event(l.kind, l.slot, Some(l.flag)))
  {
    var l := ThreadOf(s, env).l;
    assert ThreadFlags(s, env) && OwnedThread(s, env) && l.ref.id in ThreadRefs(ThreadOf(s, env));
    assert AddsUnderMutex(ThreadOf(s, env)) <==> s.mutex == Some(env);
    assert MadeBy(s, l.flag, env);
    forall e: nat | e != env && HasListener(ThreadOf(s, e))
      ensures ThreadOf(s, e).l.flag != l.flag
    {
      OtherThreadsFlags(s, env, e);
    }
  }

  /** A refused registration leaves its event without a listener to find. */
  lemma RefusedCause(s: State, env: nat, t: State)
    requires Sound(s) && ThreadOf(s, env).Adding?
    requires t.list == s.list && t.madeBy == s.madeBy && t.refused == s.refused + {ThreadOf(s, env).l.flag}
    requires forall e: nat :: ThreadOf(t, e) == if e == env then Failed(ThreadOf(s, env).l) else ThreadOf(s, e)
    ensures var l := ThreadOf(s, env).l; CauseOk(t, Event(l.kind, l.slot, Some(l.flag)))
  {
    var l := ThreadOf(s, env).l;
    assert ThreadFlags(s, env) && OwnedThread(s, env) && l.ref.id in ThreadRefs(ThreadOf(s, env));
    assert MadeBy(s, l.flag, env);
    forall e: nat | e != env && HasListener(ThreadOf(s, e))
      ensures ThreadOf(s, e).l.flag != l.flag
    {
      OtherThreadsFlags(s, env, e);
    }
  }

  lemma AnswerCauses(s: State, env: nat, ipc: Code, replayed: bool)
    requires Sound(s) && Causes(s)
    ensures Causes(DoAnswer(s, env, ipc, replayed))
  {
    if ThreadOf(s, env).Adding? {
      var t, l := DoAnswer(s, env, ipc, replayed), ThreadOf(s, env).l;
      assert AddsUnderMutex(ThreadOf(s, env)) <==> s.mutex == Some(env);
      CausesKept(s, t.(events := s.events));
      if ipc == Success {
        NewCause(s, env, t);
      } else {
        RefusedCause(s, env, t);
      }
      forall i | 0 <= i < |t.events|
        ensures CauseOk(t, t.events[i])
      {
        if i < |s.events| {
          assert CauseOk(t.(events := s.events), t.(events := s.events).events[i]);
          EventsIrrelevant(t, s.events, t.events[i]);
        }
      }
    }
  }

  lemma OnEndCauses(s: State, env: nat)
    requires Sound(s) && Causes(s)
    ensures Causes(DoOnPush(s, env)) && Causes(DoOnFail(s, env))
  {
    assert AddsUnderMutex(ThreadOf(s, env)) <==> s.mutex == Some(env);
    if ThreadOf(s, env).Added? {
      PushCauses(s, env, ThreadOf(s, env).l);
    }
    if ThreadOf(s, env).Failed? {
      CausesKept(s, DoOnFail(s, env));
    }
  }

  lemma TakeCauses(s: State, t: State, sel: Selection)
    requires Sound(s) && Causes(s) && s.mutex.None? && !HasListener(ThreadOf(t, sel.env))
    requires t.list == Kept(s.list, sel) && t.events == s.events && |t.madeBy| >= |s.madeBy|
    requires t.refused == s.refused && t.accepted == s.accepted
    requires forall e: nat :: e != sel.env ==> ThreadOf(t, e) == ThreadOf(s, e)
    ensures Causes(t)
  {
    RemovedAreOwned(s, sel);
    CausesKept(s, t);
  }

  lemma OffCauses(s: State, env: nat, kind: Kind, fn: Option<int>)
    requires Sound(s) && Causes(s)
    ensures Causes(DoOffStart(s, env, kind, fn)) && Causes(DoTeardown(s, env)) && Causes(DoOffFinish(s, env))
  {
    assert AddsUnderMutex(ThreadOf(s, env)) <==> s.mutex == Some(env);
    if ThreadOf(s, env) == Idle && s.mutex.None? {
      TakeCauses(s, DoOffStart(s, env, kind, fn), Selection(env, {kind}, fn));
      TakeCauses(s, DoTeardown(s, env), Everything(env));
    }
    CausesKept(s, DoOffFinish(s, env));
  }

  /** Steps of the queue: no listener, registration or flag changes, and a new event has no cause. */
  lemma QueueCauses(s: State, t: State, env: nat)
    requires Sound(s) && Causes(s)
    requires t.list == s.list && t.madeBy == s.madeBy && t.mutex == s.mutex
    requires t.accepted == s.accepted && t.refused == s.refused
    requires forall e: nat :: e != env ==> ThreadOf(t, e) == ThreadOf(s, e)
    requires ThreadOf(t, env) == ThreadOf(s, env) || (!HasListener(ThreadOf(t, env)) && !HasListener(ThreadOf(s, env)))
    requires forall i :: 0 <= i < |t.events| ==> t.events[i] in s.events || t.events[i].cause.None?
    ensures Causes(t)
  {
    CausesKept(s, t.(events := s.events));
    forall i | 0 <= i < |t.events|
      ensures CauseOk(t, t.events[i])
    {
      if t.events[i] in s.events {
        var j :| 0 <= j < |s.events| && s.events[j] == t.events[i];
        assert CauseOk(t.(events := s.events), t.(events := s.events).events[j]);
        EventsIrrelevant(t, s.events, t.events[i]);
      }
    }
  }

  lemma DispatchCauses(s: State, i: nat, defaultSlot: int, upTo: nat)
    requires Sound(s) && Causes(s)
    ensures Causes(DoDispatch(s, i, defaultSlot, upTo))
  {
    var t := DoDispatch(s, i, defaultSlot, upTo);
    forall j | 0 <= j < |t.events|
      ensures t.events[j] in s.events
    {
      assert t.events[j] == s.events[if |t.events| == |s.events| || j < i then j else j + 1];
    }
    QueueCauses(s, t, 0);
  }

  lemma PostCauses(s: State, kind: Kind, slot: int)
    requires Sound(s) && Causes(s)
    ensures Causes(Arrived(s, Event(kind, slot, None)))
  {
    QueueCauses(s, Arrived(s, Event(kind, slot, None)), 0);
  }

  lemma CheckCauses(s: State, i: nat)
    requires Sound(s) && Causes(s)
    ensures Causes(DoCheck(s, i))
  {
    if i < |s.work| && s.mutex.None? && ThreadOf(s, s.work[i].w.to.env) == Idle {
      QueueCauses(s, DoCheck(s, i), s.work[i].w.to.env);
    }
  }

  lemma CallCauses(s: State, env: nat)
    requires Sound(s) && Causes(s)
    ensures Causes(DoCall(s, env))
  {
    if ThreadOf(s, env).Calling? {
      QueueCauses(s, DoCall(s, env), env);
    }
  }

  lemma QueueStepCauses(simSlotCount: int, s: State, a: Action)
    requires Sound(s) && Causes(s) && (a.Post? || a.DispatchEvent? || a.Check? || a.Call?)
    ensures Causes(Step(simSlotCount, s, a))
  {
    if a.Post? {
      PostCauses(s, a.kind, a.slot);
    } else if a.DispatchEvent? {
      DispatchCauses(s, a.i, a.defaultSlot, a.upTo);
    } else if a.Check? {
      CheckCauses(s, a.i);
    } else {
      CallCauses(s, a.env);
    }
  }

  lemma StepCauses(simSlotCount: int, s: State, a: Action)
    requires Sound(s) && Causes(s)
    ensures Causes(Step(simSlotCount, s, a))
  {
    match a {
      case OnStart(env, kind, slot, fn) => OnStartCauses(s, env, kind, slot, fn);
      case OnCheck(env) => OnCheckCauses(simSlotCount, s, env);
      case Answer(env, ipc, replayed) => AnswerCauses(s, env, ipc, replayed);
      case OnPush(env) => OnEndCauses(s, env);
      case OnFail(env) => OnEndCauses(s, env);
      case OffStart(env, kind, fn) => OffCauses(s, env, kind, fn);
      case OffFinish(env) => OffCauses(s, env, SimState, None);
      case Teardown(env) => OffCauses(s, env, SimState, None);
      case _ => QueueStepCauses(simSlotCount, s, a);
    }
  }

  /** A dispatch runs only when no registration holds the mutex. */
  lemma DispatchFinds(s: State, i: nat, defaultSlot: int)
    requires Sound(s) && Causes(s) && i < |s.events| && s.mutex.None?
    ensures FoundListener(Dispatch(s.events[i], s.list, s.deleting, defaultSlot, 0, []), s.refused)
  {
    var e := s.events[i];
    assert CauseOk(s, e);
    if e.cause.Some? && e.cause.value !in s.refused && e.cause.value !in s.deleting {
      assert Listed(s.list, e.cause.value);
      var l :| l in s.list && l.flag == e.cause.value;
      assert NeedsHandling(l, e, defaultSlot);
    }
  }

  lemma DispatchesKept(simSlotCount: int, s: State, a: Action)
    requires Sound(s) && Causes(s) && Dispatches(s)
    ensures Dispatches(Step(simSlotCount, s, a))
  {
    var t := Step(simSlotCount, s, a);
    if a.DispatchEvent? && a.i < |s.events| && s.mutex.None? {
      DispatchFinds(s, a.i, a.defaultSlot);
      var last := t.dispatches[|s.dispatches|];
      assert FoundListener(last, s.refused);
    } else {
      DispatchesUntouched(simSlotCount, s, a);
    }
  }

  lemma DispatchesUntouched(simSlotCount: int, s: State, a: Action)
    requires !(a.DispatchEvent? && a.i < |s.events| && s.mutex.None?)
    ensures Step(simSlotCount, s, a).dispatches == s.dispatches && s.refused <= Step(simSlotCount, s, a).refused
  {
  }

  lemma {:induction false} RunDispatches(simSlotCount: int, actions: seq<Action>)
    ensures var s := Run(simSlotCount, actions);
            Sound(s) && Causes(s) && Dispatches(s)
  {
    RunSound(simSlotCount, actions);
    if actions != [] {
      var front := actions[..|actions| - 1];
      RunDispatches(simSlotCount, front);
      StepCauses(simSlotCount, Run(simSlotCount, front), actions[|actions| - 1]);
      DispatchesKept(simSlotCount, Run(simSlotCount, front), actions[|actions| - 1]);
    }
  }

  // ---------------------------------------------------------------- what a dispatch queues

  /** The event is for the listener: its type, and its slot or, for the two data types, the pseudo
      slot 999 when the event's slot is the default one. The account event carries no slot. */
  predicate Concerned(l: Listener, e: Event, defaultSlot: int) {
    && l.kind == e.kind
    && (|| e.kind == IccAccount
        || l.slot == e.slot
        || (e.kind in {DataConnection, DataFlow} && l.slot == 999 && e.slot == defaultSlot))
  }

  predicate ConcernedAt(list: seq<Listener>, e: Event, defaultSlot: int, i: nat) {
    i < |list| && Concerned(list[i], e, defaultSlot)
  }

  /** How many of the first n listeners the event is for. */
  function Ahead(list: seq<Listener>, e: Event, defaultSlot: int, n: nat): nat {
    |set i: nat | i < n && ConcernedAt(list, e, defaultSlot, i)|
  }

  lemma AheadStep(list: seq<Listener>, e: Event, defaultSlot: int, n: nat)
    requires n < |list|
    ensures Ahead(list, e, defaultSlot, n + 1)
            == Ahead(list, e, defaultSlot, n) + if Concerned(list[n], e, defaultSlot) then 1 else 0
  {
    var before := set i: nat | i < n && ConcernedAt(list, e, defaultSlot, i);
    var after := set i: nat | i < n + 1 && ConcernedAt(list, e, defaultSlot, i);
    assert after == if Concerned(list[n], e, defaultSlot) then before + {n} else before;
  }

  /** The work for an event: one item for each listener it is for, in list order. */
  lemma {:induction false} WorkInOrder(list: seq<Listener>, e: Event, defaultSlot: int, n: nat)
    requires n <= |list|
    ensures var ws := WorkFor(list[..n], e, defaultSlot);
            && |ws| == Ahead(list, e, defaultSlot, n)
            && forall j: nat :: j < n && Concerned(list[j], e, defaultSlot) ==>
                 Ahead(list, e, defaultSlot, j) < |ws| && ws[Ahead(list, e, defaultSlot, j)] == Work(list[j], e)
  {
    if n > 0 {
      WorkInOrder(list, e, defaultSlot, n - 1);
      AheadStep(list, e, defaultSlot, n - 1);
      assert list[..n] == list[..n - 1] + [list[n - 1]];
      WorkForSnoc(list[..n - 1], list[n - 1], e, defaultSlot);
    } else {
      assert (set i: nat | i < n && ConcernedAt(list, e, defaultSlot, i)) == {};
    }
  }

  /** In every interleaving a dispatch serves each listener the event is for, in list order: the work
      item of the j-th listener stands after those of the concerned listeners before it. It serves
      all of them, or exactly as many as the event loops took before one was missing or refused. */
  lemma DispatchServesAll(simSlotCount: int, s: State, i: nat)
    requires Reachable(simSlotCount, s) && i < |s.dispatches|
    ensures var d := s.dispatches[i];
            var all := Ahead(d.list, d.event, d.slot, |d.list|);
            && |d.queued| == (if d.upTo < all then d.upTo else all)
            && forall j: nat :: j < |d.list| && Concerned(d.list[j], d.event, d.slot) ==>
                 var at := Ahead(d.list, d.event, d.slot, j);
                 at < all && (at < |d.queued| ==> d.queued[at] == Work(d.list[j], d.event))
  {
    var actions :| s == Run(simSlotCount, actions);
    RunDispatches(simSlotCount, actions);
    var d := s.dispatches[i];
    assert QueuedInFull(d) && d.list[..|d.list|] == d.list;
    WorkInOrder(d.list, d.event, d.slot, |d.list|);
  }

  /** The same for the step itself: a dispatch that gets the mutex queues work for the listeners then
      in the list, after all work queued before. */
  lemma DispatchStepServes(simSlotCount: int, s: State, i: nat, defaultSlot: int, upTo: nat)
    requires i < |s.events| && s.mutex.None?
    ensures var t := Step(simSlotCount, s, DispatchEvent(i, defaultSlot, upTo));
            var e, all := s.events[i], Ahead(s.list, s.events[i], defaultSlot, |s.list|);
            && s.queued <= t.queued && |t.queued| == |s.queued| + (if upTo < all then upTo else all)
            && forall j: nat :: j < |s.list| && Concerned(s.list[j], e, defaultSlot) ==>
                 var at := Ahead(s.list, e, defaultSlot, j);
                 at < all && (at < upTo ==> t.queued[|s.queued| + at] == Work(s.list[j], e))
  {
    assert s.list[..|s.list|] == s.list;
    WorkInOrder(s.list, s.events[i], defaultSlot, |s.list|);
  }

  lemma {:induction false} QueuedPrefix(ds: seq<Dispatch>, i: nat)
    requires i < |ds|
    ensures AllQueued(ds[..i]) + ds[i].queued <= AllQueued(ds)
  {
    if i < |ds| - 1 {
      var front := ds[..|ds| - 1];
      assert front[..i] == ds[..i] && front[i] == ds[i];
      QueuedPrefix(front, i);
    } else {
      assert ds[..i] == ds[..|ds| - 1];
    }
  }

  /** From dispatch to callback, in every interleaving: the work item a dispatch queued for a listener
      the event is for waits, or its thread is about to call, or its callback was invoked once, or it
      was skipped after its listener had left the list. */
  lemma EachServedOnce(simSlotCount: int, s: State, i: nat, j: nat) returns (x: Item)
    requires Reachable(simSlotCount, s) && i < |s.dispatches|
    requires var d := s.dispatches[i];
             j < |d.list| && Concerned(d.list[j], d.event, d.slot) && Ahead(d.list, d.event, d.slot, j) < |d.queued|
    ensures var d := s.dispatches[i];
            && x.w == Work(d.list[j], d.event)
            && x.no == |AllQueued(s.dispatches[..i])| + Ahead(d.list, d.event, d.slot, j)
            && multiset(s.work)[x] + (if InCall(s, x) then 1 else 0)
               + multiset(s.invoked)[x] + multiset(s.skipped)[x] == 1
            && (x in s.skipped ==> d.list[j] !in s.list)
  {
    var d := s.dispatches[i];
    var at := Ahead(d.list, d.event, d.slot, j);
    DispatchServesAll(simSlotCount, s, i);
    QueuedPrefix(s.dispatches, i);
    var actions :| s == Run(simSlotCount, actions);
    RunTracked(simSlotCount, actions);
    var no := |AllQueued(s.dispatches[..i])| + at;
    assert s.queued[no] == (AllQueued(s.dispatches[..i]) + d.queued)[no] == d.queued[at];
    x := Item(no, d.queued[at]);
    EveryItemOnce(simSlotCount, s, no);
  }

  /** In every interleaving, each dispatched event that was caused by a first registration the
      service accepted found that listener in the list, with its work item queued unless the loops
      stopped the dispatch early, or the listener had already been removed by a later `off` or
      teardown. */
  lemma ReplayNeverLost(simSlotCount: int, s: State, i: nat)
    requires Reachable(simSlotCount, s) && i < |s.dispatches| && s.dispatches[i].event.cause.Some?
    ensures var d := s.dispatches[i];
            var f := d.event.cause.value;
            || f in s.refused
            || f in d.deleting
            || exists l :: l in d.list && l.flag == f
                           && (Work(l, d.event) in d.queued
                               || d.upTo == |d.queued| < Ahead(d.list, d.event, d.slot, |d.list|))
  {
    var actions :| s == Run(simSlotCount, actions);
    RunDispatches(simSlotCount, actions);
    DispatchServesAll(simSlotCount, s, i);
    var d := s.dispatches[i];
    var f := d.event.cause.value;
    assert FoundListener(d, s.refused);
    if f !in s.refused && f !in d.deleting {
      var l :| l in d.list && l.flag == f && NeedsHandling(l, d.event, d.slot);
      WorkForIs(d.list, d.event, d.slot, Work(l, d.event));
    }
  }

  // ---------------------------------------------------------------- events

  function DispatchedEvents(ds: seq<Dispatch>): seq<Event> {
    if ds == [] then [] else DispatchedEvents(ds[..|ds| - 1]) + [ds[|ds| - 1].event]
  }

  predicate EventsKept(s: State) {
    multiset(s.posted) == multiset(s.events) + multiset(DispatchedEvents(s.dispatches))
  }

  lemma EventOut(events: seq<Event>, i: nat)
    requires i < |events|
    ensures multiset(events) == multiset(events[..i] + events[i + 1..]) + multiset{events[i]}
  {
    assert events == events[..i] + [events[i]] + events[i + 1..];
  }

  lemma DispatchedOneMore(ds: seq<Dispatch>, d: Dispatch)
    ensures multiset(DispatchedEvents(ds + [d])) == multiset(DispatchedEvents(ds)) + multiset{d.event}
  {
    assert (ds + [d])[..|ds|] == ds;
  }

  lemma EventsKeptByDispatch(s: State, i: nat, defaultSlot: int, upTo: nat)
    requires EventsKept(s)
    ensures EventsKept(DoDispatch(s, i, defaultSlot, upTo))
  {
    if i < |s.events| && s.mutex.None? {
      var t := DoDispatch(s, i, defaultSlot, upTo);
      var d := t.dispatches[|s.dispatches|];
      assert t.dispatches == s.dispatches + [d] && t.events == s.events[..i] + s.events[i + 1..];
      EventOut(s.events, i);
      DispatchedOneMore(s.dispatches, d);
    }
  }

  lemma EventsKeptByStep(simSlotCount: int, s: State, a: Action)
    requires EventsKept(s)
    ensures EventsKept(Step(simSlotCount, s, a))
  {
    if a.DispatchEvent? {
      EventsKeptByDispatch(s, a.i, a.defaultSlot, a.upTo);
    } else {
      var more := NoDispatch(simSlotCount, s, a);
      var t := Step(simSlotCount, s, a);
      assert multiset(t.events) == multiset(s.events) + multiset(more);
      assert multiset(t.posted) == multiset(s.posted) + multiset(more);
    }
  }

  lemma NoDispatch(simSlotCount: int, s: State, a: Action) returns (more: seq<Event>)
    requires !a.DispatchEvent?
    ensures var t := Step(simSlotCount, s, a);
            t.dispatches == s.dispatches && t.events == s.events + more && t.posted == s.posted + more
  {
    var t := Step(simSlotCount, s, a);
    more := if |t.events| == |s.events| then [] else [t.events[|s.events|]];
    assert s.events + [] == s.events && s.posted + [] == s.posted;
    assert t.events == s.events + more && t.posted == s.posted + more;
  }

  /** In every interleaving each event that ever arrived still waits or was dispatched, once. */
  lemma EveryEventOnce(simSlotCount: int, s: State)
    requires Reachable(simSlotCount, s)
    ensures EventsKept(s)
  {
    var actions :| s == Run(simSlotCount, actions);
    EventsKeptInRuns(simSlotCount, actions);
  }

  lemma {:induction false} EventsKeptInRuns(simSlotCount: int, actions: seq<Action>)
    ensures EventsKept(Run(simSlotCount, actions))
  {
    if actions != [] {
      EventsKeptInRuns(simSlotCount, actions[..|actions| - 1]);
      EventsKeptByStep(simSlotCount, Run(simSlotCount, actions[..|actions| - 1]), actions[|actions| - 1]);
    }
  }
}
