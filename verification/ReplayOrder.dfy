/** A replay in full: which callbacks it sends, how many, and in which order. */
module ReplayOrder {
  import opened Kinds
  import opened Records
  import opened Updates
  import opened Interleaving
  import opened CacheRuns
  import opened LogRuns

  /** The order in which a replay walks the event types. */
  const REPLAY_ORDER: seq<Kind> := [
    CallState, SignalStrengths, NetworkState, CellInfo, SimState, DataConnection, DataFlow,
    CfuIndicator, VoiceMail, IccAccount, CallStateEx, CCallState, SimActive]

  /** A replay to the record includes an event type: every type of its mask but the VoIP one, the
      restricted one only for tokens that may manage calls. */
  predicate Includes(cfg: Config, r: Record, k: Kind) {
    r.observer.Some? && k in r.mask.kinds && k != VoIPCall && (k == CCallState ==> r.token in cfg.manageCall)
  }

  /** The callbacks of the first n event types of an order. */
  function Walk(cfg: Config, c: Caches, r: Record, order: seq<Kind>, n: nat): seq<Sent>
    requires n <= |order|
  {
    if n == 0 then []
    else
      var k := order[n - 1];
      Walk(cfg, c, r, order, n - 1) + if Includes(cfg, r, k) then [Sent(r, ReplayCallback(cfg, c, r, k))] else []
  }

  /** How many of the first n event types of an order the replay includes. */
  function Included(cfg: Config, r: Record, order: seq<Kind>, n: nat): nat {
    |set i: nat | i < n && IncludedAt(cfg, r, order, i)|
  }

  predicate IncludedAt(cfg: Config, r: Record, order: seq<Kind>, i: nat) {
    i < |order| && Includes(cfg, r, order[i])
  }

  // ---------------------------------------------------------------- the walk is the replay

  lemma WalkStep(cfg: Config, c: Caches, r: Record, n: nat, k: Kind)
    requires n < |REPLAY_ORDER| && k == REPLAY_ORDER[n] && k != VoIPCall
    ensures Push(cfg, r, ReplayCallback(cfg, c, r, k), k, Walk(cfg, c, r, REPLAY_ORDER, n))
            == Walk(cfg, c, r, REPLAY_ORDER, n + 1)
  {
  }

  lemma RadioWalk(cfg: Config, c: Caches, r: Record)
    ensures RadioReplay(cfg, c, r, []) == Walk(cfg, c, r, REPLAY_ORDER, 4)
  {
    WalkStep(cfg, c, r, 0, CallState);
    WalkStep(cfg, c, r, 1, SignalStrengths);
    WalkStep(cfg, c, r, 2, NetworkState);
    WalkStep(cfg, c, r, 3, CellInfo);
  }

  lemma SimAndConnectionWalk(cfg: Config, c: Caches, r: Record)
    ensures SimAndConnectionReplay(cfg, c, r, Walk(cfg, c, r, REPLAY_ORDER, 4)) == Walk(cfg, c, r, REPLAY_ORDER, 7)
  {
    WalkStep(cfg, c, r, 4, SimState);
    WalkStep(cfg, c, r, 5, DataConnection);
    WalkStep(cfg, c, r, 6, DataFlow);
  }

  lemma IndicatorWalk(cfg: Config, c: Caches, r: Record)
    ensures IndicatorReplay(cfg, c, r, Walk(cfg, c, r, REPLAY_ORDER, 7)) == Walk(cfg, c, r, REPLAY_ORDER, 10)
  {
    WalkStep(cfg, c, r, 7, CfuIndicator);
    WalkStep(cfg, c, r, 8, VoiceMail);
    WalkStep(cfg, c, r, 9, IccAccount);
  }

  lemma ExWalk(cfg: Config, c: Caches, r: Record)
    ensures ExReplay(cfg, c, r, Walk(cfg, c, r, REPLAY_ORDER, 10)) == Walk(cfg, c, r, REPLAY_ORDER, 13)
  {
    WalkStep(cfg, c, r, 10, CallStateEx);
    WalkStep(cfg, c, r, 11, CCallState);
    WalkStep(cfg, c, r, 12, SimActive);
  }

  lemma ReplayIsWalk(cfg: Config, c: Caches, r: Record)
    ensures Replayed(cfg, c, r, []) == Walk(cfg, c, r, REPLAY_ORDER, |REPLAY_ORDER|)
  {
    RadioWalk(cfg, c, r);
    SimAndConnectionWalk(cfg, c, r);
    IndicatorWalk(cfg, c, r);
    ExWalk(cfg, c, r);
  }

  /** A replay only appends: what it sends does not hang on what was sent before. */
  lemma ReplayAppends(cfg: Config, c: Caches, r: Record, sent: seq<Sent>)
    ensures Replayed(cfg, c, r, sent) == sent + Replayed(cfg, c, r, [])
  {
    var s1 := RadioReplay(cfg, c, r, []);
    var s2 := SimAndConnectionReplay(cfg, c, r, s1);
    var s3 := IndicatorReplay(cfg, c, r, s2);
    assert sent + [] == sent;
    PartsAppend(cfg, c, r, sent, []);
    PartsAppend(cfg, c, r, sent, s1);
    PartsAppend(cfg, c, r, sent, s2);
    PartsAppend(cfg, c, r, sent, s3);
  }

  lemma PartsAppend(cfg: Config, c: Caches, r: Record, a: seq<Sent>, b: seq<Sent>)
    ensures RadioReplay(cfg, c, r, a + b) == a + RadioReplay(cfg, c, r, b)
    ensures SimAndConnectionReplay(cfg, c, r, a + b) == a + SimAndConnectionReplay(cfg, c, r, b)
    ensures IndicatorReplay(cfg, c, r, a + b) == a + IndicatorReplay(cfg, c, r, b)
    ensures ExReplay(cfg, c, r, a + b) == a + ExReplay(cfg, c, r, b)
  {
    PushAppends(cfg, r, a);
  }

  lemma PushAppends(cfg: Config, r: Record, a: seq<Sent>)
    ensures forall b, cb, k :: Push(cfg, r, cb, k, a + b) == a + Push(cfg, r, cb, k, b)
  {
    forall b: seq<Sent>, cb, k
      ensures Push(cfg, r, cb, k, a + b) == a + Push(cfg, r, cb, k, b)
    {
      assert (a + b) + [Sent(r, cb)] == a + (b + [Sent(r, cb)]);
    }
  }

  // ---------------------------------------------------------------- the walk

  lemma IncludedStep(cfg: Config, r: Record, order: seq<Kind>, n: nat)
    requires n < |order|
    ensures Included(cfg, r, order, n + 1)
            == Included(cfg, r, order, n) + if Includes(cfg, r, order[n]) then 1 else 0
  {
    var before := set i: nat | i < n && IncludedAt(cfg, r, order, i);
    var after := set i: nat | i < n + 1 && IncludedAt(cfg, r, order, i);
    assert after == if Includes(cfg, r, order[n]) then before + {n} else before;
  }

  /** The callback of the i-th included type stands after those of the included types before it. */
  predicate InPlace(cfg: Config, c: Caches, r: Record, order: seq<Kind>, calls: seq<Sent>, i: nat)
    requires IncludedAt(cfg, r, order, i)
  {
    var at := Included(cfg, r, order, i);
    at < |calls| && calls[at] == Sent(r, ReplayCallback(cfg, c, r, order[i]))
  }

  lemma {:induction false} WalkInOrder(cfg: Config, c: Caches, r: Record, order: seq<Kind>, n: nat)
    requires n <= |order|
    ensures var calls := Walk(cfg, c, r, order, n);
            && |calls| == Included(cfg, r, order, n)
            && forall i: nat :: i < n && IncludedAt(cfg, r, order, i) ==> InPlace(cfg, c, r, order, calls, i)
  {
    if n > 0 {
      WalkInOrder(cfg, c, r, order, n - 1);
      IncludedStep(cfg, r, order, n - 1);
      var before, after := Walk(cfg, c, r, order, n - 1), Walk(cfg, c, r, order, n);
      assert before <= after;
      forall i: nat | i < n && IncludedAt(cfg, r, order, i)
        ensures InPlace(cfg, c, r, order, after, i)
      {
        assert i < n - 1 ==> InPlace(cfg, c, r, order, before, i);
      }
    } else {
      assert (set i: nat | i < n && IncludedAt(cfg, r, order, i)) == {};
    }
  }

  lemma ReplayKindIs(cfg: Config, c: Caches, r: Record, order: seq<Kind>, i: nat)
    requires IncludedAt(cfg, r, order, i)
    ensures ReplayCallback(cfg, c, r, order[i]).Kind() == order[i]
  {
    ReplayKind(cfg, c, r, order[i]);
  }

  /** A replay sends one callback for each included event type, in the fixed order, and nothing else. */
  lemma ReplayInOrder(cfg: Config, c: Caches, r: Record)
    ensures var calls := Replayed(cfg, c, r, []);
            && |calls| == Included(cfg, r, REPLAY_ORDER, 13)
            && forall i: nat :: i < 13 && Includes(cfg, r, REPLAY_ORDER[i]) ==>
                 var at := Included(cfg, r, REPLAY_ORDER, i);
                 at < |calls| && calls[at].to == r && calls[at].cb.Kind() == REPLAY_ORDER[i]
                 && calls[at].cb == ReplayCallback(cfg, c, r, REPLAY_ORDER[i])
  {
    ReplayIsWalk(cfg, c, r);
    var order := REPLAY_ORDER;
    WalkInOrder(cfg, c, r, order, 13);
    forall i: nat | i < 13 && IncludedAt(cfg, r, order, i)
      ensures InPlace(cfg, c, r, order, Replayed(cfg, c, r, []), i)
      ensures ReplayCallback(cfg, c, r, order[i]).Kind() == order[i]
    {
      ReplayKindIs(cfg, c, r, order, i);
    }
  }

  predicate DistinctKinds(order: seq<Kind>) {
    forall i, j :: 0 <= i < j < |order| ==> order[i] != order[j]
  }

  /** The place of an event type's callbacks in a walk. */
  lemma {:induction false} OneInWalk(cfg: Config, c: Caches, r: Record, order: seq<Kind>, n: nat, k: Kind)
    requires n <= |order| && DistinctKinds(order)
    ensures CallsOf(Walk(cfg, c, r, order, n), k) == if Includes(cfg, r, k) && k in order[..n] then 1 else 0
  {
    if n > 0 {
      OneInWalk(cfg, c, r, order, n - 1, k);
      var last, before := order[n - 1], Walk(cfg, c, r, order, n - 1);
      assert order[..n] == order[..n - 1] + [last];
      assert last !in order[..n - 1];
      if Includes(cfg, r, last) {
        ReplayKind(cfg, c, r, last);
        CallsOfSnoc(before, Sent(r, ReplayCallback(cfg, c, r, last)), k);
      } else {
        assert Walk(cfg, c, r, order, n) == before;
      }
    }
  }

  function CallsOf(calls: seq<Sent>, k: Kind): nat {
    if calls == [] then 0
    else CallsOf(calls[..|calls| - 1], k) + if calls[|calls| - 1].cb.Kind() == k then 1 else 0
  }

  lemma CallsOfSnoc(calls: seq<Sent>, x: Sent, k: Kind)
    ensures CallsOf(calls + [x], k) == CallsOf(calls, k) + if x.cb.Kind() == k then 1 else 0
  {
    assert (calls + [x])[..|calls|] == calls;
  }

  /** Each event type has exactly one callback in a replay that includes it, and none in one that does
      not. */
  lemma OneCallbackPerKind(cfg: Config, c: Caches, r: Record, k: Kind)
    ensures CallsOf(Replayed(cfg, c, r, []), k) == if Includes(cfg, r, k) then 1 else 0
  {
    ReplayIsWalk(cfg, c, r);
    OrderListsAll(k);
    OneInWalk(cfg, c, r, REPLAY_ORDER, |REPLAY_ORDER|, k);
  }

  lemma OrderListsAll(k: Kind)
    ensures DistinctKinds(REPLAY_ORDER)
    ensures REPLAY_ORDER[..|REPLAY_ORDER|] == REPLAY_ORDER && (k in REPLAY_ORDER <==> k != VoIPCall)
  {
    if k != VoIPCall {
      assert k in {CallState, SignalStrengths, NetworkState, CellInfo, SimState, DataConnection, DataFlow,
                   CfuIndicator, VoiceMail, IccAccount, CallStateEx, CCallState, SimActive};
    }
  }

  /** In every interleaving each replay in the log is whole and in order, with each event type once. */
  lemma ReplaysInOrder(cfg: Config, s: State, j: nat, k: Kind)
    requires Reachable(cfg, s) && j < |s.log| && s.log[j].ReplayedTo?
    ensures var e := s.log[j];
            && CallsOf(e.calls, k) == (if Includes(cfg, e.to, k) then 1 else 0)
            && |e.calls| == Included(cfg, e.to, REPLAY_ORDER, 13)
            && forall i: nat :: i < 13 && Includes(cfg, e.to, REPLAY_ORDER[i]) ==>
                 var at := Included(cfg, e.to, REPLAY_ORDER, i);
                 at < |e.calls| && e.calls[at].to == e.to && e.calls[at].cb.Kind() == REPLAY_ORDER[i]
  {
    ObserversSeeSoundCallbacks(cfg, s);
    assert EventSound(cfg, s.issued, s.log[j]);
    var c := WrittenAll(cfg, s.issued[..s.log[j].at]);
    ReplayInOrder(cfg, c, s.log[j].to);
    OneCallbackPerKind(cfg, c, s.log[j].to, k);
  }
}
