/** A process registers with the service once per (slot, event type) pair and hands each arriving
    update to all its listeners of the pair. This module compares that with the simple system in
    which every listener has a service record of its own. */
module Aggregation {
  import opened Kinds
  import opened Records
  import opened Updates
  import opened Listeners
  import opened NapiListeners
  import opened ObserverClient
  import opened Coupling

  /** The event a callback becomes in the client; the VoIP event carries slot -1 and the account
      event none. */
  function EventOf(cb: Callback): Event {
    match cb
    case OnIccAccount => Event(IccAccount, -1, None)
    case OnVoIPCall(_) => Event(VoIPCall, -1, None)
    case _ => Event(cb.Kind(), cb.slot, None)
  }

  /** The record a registration of this pair by this process leaves in the service. */
  function RecordFor(w: World, p: Pair): Record {
    NewRecord(w, p, 0)
  }

  /** An update selects a record of this pair. */
  predicate Chosen(w: World, u: Update, cached: string, p: Pair) {
    CallbackFor(w.cfg, u, RecordFor(w, p), cached).Some?
  }

  /** The process's records are those of a front end: one event type, one observer. */
  predicate FrontEndRecord(w: World, r: Record) {
    Mine(w, KeyOf(r)) ==> r.observer.Some? && exists k: Kind :: r.mask == Bit(k)
  }

  predicate OnlyFrontEndRecords(w: World, table: seq<Record>) {
    forall i :: 0 <= i < |table| ==> FrontEndRecord(w, table[i])
  }

  /** The service records of the process are exactly the pairs of its listeners. */
  ghost predicate Faithful(w: World, table: seq<Record>, list: seq<Listener>) {
    && NoDuplicates(table)
    && OnlyFrontEndRecords(w, table)
    && forall p :: Present(table, PairKey(w, p)) <==> p in PairsOf(list)
  }

  /** A record of the process for event type k that the update selects. */
  predicate Selects(w: World, u: Update, cached: string, k: Kind, r: Record) {
    && Mine(w, KeyOf(r))
    && CallbackFor(w.cfg, u, r, cached).Some? && CallbackFor(w.cfg, u, r, cached).value.Kind() == k
  }

  /** How many callbacks of event type k a fan-out sends to the process. */
  function Arriving(w: World, u: Update, cached: string, k: Kind, table: seq<Record>, n: nat): nat
    requires n <= |table|
  {
    if n == 0 then 0
    else Arriving(w, u, cached, k, table, n - 1) + if Selects(w, u, cached, k, table[n - 1]) then 1 else 0
  }

  /** The work items the process queues for what a fan-out sends it, for one event type. */
  function Handled(w: World, sent: seq<Sent>, list: seq<Listener>, k: Kind, defaultSlot: int): seq<Work> {
    if sent == [] then []
    else
      var last := sent[|sent| - 1];
      Handled(w, sent[..|sent| - 1], list, k, defaultSlot)
      + if Mine(w, KeyOf(last.to)) && last.cb.Kind() == k then WorkFor(list, EventOf(last.cb), defaultSlot) else []
  }

  /** The work items of the simple system: each listener's own record receives the callback, and only
      that listener handles it. */
  function Naive(w: World, u: Update, cached: string, list: seq<Listener>, k: Kind, defaultSlot: int): seq<Work> {
    if list == [] then []
    else
      var l := list[|list| - 1];
      var rest := Naive(w, u, cached, list[..|list| - 1], k, defaultSlot);
      match CallbackFor(w.cfg, u, RecordFor(w, PairOf(l)), cached)
      case None => rest
      case Some(cb) =>
        if l.kind == k && NeedsHandling(l, EventOf(cb), defaultSlot) then rest + [Work(l, EventOf(cb))] else rest
  }

  function Repeat(n: nat, ws: seq<Work>): seq<Work> {
    if n == 0 then [] else Repeat(n - 1, ws) + ws
  }

  // ---------------------------------------------------------------- what arrives

  lemma EventOfSelected(w: World, u: Update, cached: string, r: Record)
    requires CallbackFor(w.cfg, u, r, cached).Some?
    ensures EventOf(CallbackFor(w.cfg, u, r, cached).value)
            == Event(CallbackFor(w.cfg, u, r, cached).value.Kind(), u.Target(), None)
  {
  }

  /** What one more callback, if there is one, adds to the work. */
  lemma HandledAppend(w: World, sent: seq<Sent>, r: Record, cb: Option<Callback>, list: seq<Listener>, k: Kind,
                      defaultSlot: int, slot: int)
    requires cb.Some? ==> EventOf(cb.value) == Event(cb.value.Kind(), slot, None)
    ensures Handled(w, AppendTo(sent, r, cb), list, k, defaultSlot)
            == Handled(w, sent, list, k, defaultSlot)
               + if Mine(w, KeyOf(r)) && cb.Some? && cb.value.Kind() == k
                 then WorkFor(list, Event(k, slot, None), defaultSlot) else []
  {
    if cb.Some? {
      assert (sent + [Sent(r, cb.value)])[..|sent|] == sent;
    }
  }

  lemma SelectsIs(w: World, u: Update, cached: string, k: Kind, r: Record, cb: Option<Callback>)
    requires cb == CallbackFor(w.cfg, u, r, cached)
    ensures Selects(w, u, cached, k, r) <==> Mine(w, KeyOf(r)) && cb.Some? && cb.value.Kind() == k
    ensures cb.Some? ==> EventOf(cb.value) == Event(cb.value.Kind(), u.Target(), None)
  {
    if cb.Some? {
      EventOfSelected(w, u, cached, r);
    }
  }

  lemma RepeatStep(n: nat, ws: seq<Work>, once: bool)
    ensures Repeat(n + if once then 1 else 0, ws) == Repeat(n, ws) + if once then ws else []
  {
  }

  /** What the n-th record adds to the work and to the number of callbacks. */
  lemma HandledStep(w: World, u: Update, cached: string, table: seq<Record>, n: nat, list: seq<Listener>, k: Kind,
                    defaultSlot: int) returns (some: bool)
    requires 0 < n <= |table|
    ensures Handled(w, FanOutTo(w.cfg, u, table, cached, n), list, k, defaultSlot)
            == Handled(w, FanOutTo(w.cfg, u, table, cached, n - 1), list, k, defaultSlot)
               + if some then WorkFor(list, Event(k, u.Target(), None), defaultSlot) else []
    ensures Arriving(w, u, cached, k, table, n) == Arriving(w, u, cached, k, table, n - 1) + if some then 1 else 0
  {
    var cb := CallbackFor(w.cfg, u, table[n - 1], cached);
    SelectsIs(w, u, cached, k, table[n - 1], cb);
    HandledAppend(w, FanOutTo(w.cfg, u, table, cached, n - 1), table[n - 1], cb, list, k, defaultSlot, u.Target());
    some := Selects(w, u, cached, k, table[n - 1]);
  }

  lemma RepeatGrows(before: seq<Work>, after: seq<Work>, n: nat, m: nat, ws: seq<Work>, some: bool)
    requires before == Repeat(n, ws) && after == before + (if some then ws else []) && m == n + if some then 1 else 0
    ensures after == Repeat(m, ws)
  {
    RepeatStep(n, ws, some);
  }

  lemma {:induction false} HandledRepeats(w: World, u: Update, cached: string, table: seq<Record>, n: nat,
                                          list: seq<Listener>, k: Kind, defaultSlot: int)
    requires n <= |table|
    ensures Handled(w, FanOutTo(w.cfg, u, table, cached, n), list, k, defaultSlot)
            == Repeat(Arriving(w, u, cached, k, table, n), WorkFor(list, Event(k, u.Target(), None), defaultSlot))
  {
    if n > 0 {
      HandledRepeats(w, u, cached, table, n - 1, list, k, defaultSlot);
      var some := HandledStep(w, u, cached, table, n, list, k, defaultSlot);
      RepeatGrows(Handled(w, FanOutTo(w.cfg, u, table, cached, n - 1), list, k, defaultSlot),
                  Handled(w, FanOutTo(w.cfg, u, table, cached, n), list, k, defaultSlot),
                  Arriving(w, u, cached, k, table, n - 1), Arriving(w, u, cached, k, table, n),
                  WorkFor(list, Event(k, u.Target(), None), defaultSlot), some);
    }
  }

  // ---------------------------------------------------------------- faithful tables

  /** A record of the process answers an update like the plain record of its pair. */
  lemma SelectsIsChosen(w: World, u: Update, cached: string, k: Kind, r: Record)
    requires Mine(w, KeyOf(r)) && FrontEndRecord(w, r)
    ensures Selects(w, u, cached, k, r) <==> r.mask == Bit(k) && Chosen(w, u, cached, Pair(r.slot, k))
  {
    var j :| r.mask == Bit(j);
    assert Bit(j) == Bit(k) <==> j == k by {
      assert Bit(j).kinds == {j} && Bit(k).kinds == {k};
      assert j in Bit(j).kinds;
    }
    var plain := RecordFor(w, Pair(r.slot, j));
    SameAnswer(w, u, cached, r, plain);
    if CallbackFor(w.cfg, u, plain, cached).Some? {
      SingleBitKind(w, u, cached, plain, j);
    }
  }

  lemma SameAnswer(w: World, u: Update, cached: string, r: Record, plain: Record)
    requires r.slot == plain.slot && r.mask == plain.mask && r.token == plain.token
    requires r.observer.Some? && plain.observer.Some?
    ensures CallbackFor(w.cfg, u, r, cached) == CallbackFor(w.cfg, u, plain, cached)
  {
  }

  lemma SingleBitKind(w: World, u: Update, cached: string, r: Record, j: Kind)
    requires r.mask == Bit(j) && CallbackFor(w.cfg, u, r, cached).Some?
    ensures CallbackFor(w.cfg, u, r, cached).value.Kind() == j
  {
    assert r.mask.kinds == {j};
  }

  lemma {:induction false} ArrivingFrom(w: World, u: Update, cached: string, k: Kind, table: seq<Record>, n: nat)
      returns (i: nat)
    requires n <= |table| && Arriving(w, u, cached, k, table, n) > 0
    ensures i < n && Selects(w, u, cached, k, table[i])
  {
    i := n - 1;
    if !Selects(w, u, cached, k, table[i]) {
      i := ArrivingFrom(w, u, cached, k, table, n - 1);
    }
  }

  lemma {:induction false} ArrivingAt(w: World, u: Update, cached: string, k: Kind, table: seq<Record>, n: nat, i: nat)
    requires i < n <= |table| && Selects(w, u, cached, k, table[i])
    ensures Arriving(w, u, cached, k, table, n) > 0
  {
    if i < n - 1 {
      ArrivingAt(w, u, cached, k, table, n - 1, i);
    }
  }

  /** Something arrives exactly when the update selects the pair of some listener of the type. */
  lemma ArrivesForAListener(w: World, u: Update, cached: string, k: Kind, table: seq<Record>, list: seq<Listener>)
    requires Faithful(w, table, list)
    ensures Arriving(w, u, cached, k, table, |table|) > 0 <==>
              exists p :: p in PairsOf(list) && p.kind == k && Chosen(w, u, cached, p)
  {
    if Arriving(w, u, cached, k, table, |table|) > 0 {
      var i := ArrivingFrom(w, u, cached, k, table, |table|);
      SelectsIsChosen(w, u, cached, k, table[i]);
      assert KeyOf(table[i]) == PairKey(w, Pair(table[i].slot, k));
      assert Pair(table[i].slot, k) in PairsOf(list);
    }
    if p :| p in PairsOf(list) && p.kind == k && Chosen(w, u, cached, p) {
      var i :| 0 <= i < |table| && KeyOf(table[i]) == PairKey(w, p);
      SelectsIsChosen(w, u, cached, k, table[i]);
      ArrivingAt(w, u, cached, k, table, |table|, i);
    }
  }

  /** Where one pair of an event type is chosen, every listener the event is for is chosen. */
  lemma ChosenTogether(w: World, u: Update, cached: string, p: Pair, l: Listener, defaultSlot: int)
    requires Chosen(w, u, cached, p) && l.kind == p.kind
    requires NeedsHandling(l, Event(p.kind, u.Target(), None), defaultSlot)
    ensures Chosen(w, u, cached, PairOf(l))
  {
    assert Bit(p.kind).kinds == {p.kind};
  }

  lemma {:induction false} NaiveIs(w: World, u: Update, cached: string, list: seq<Listener>, k: Kind, defaultSlot: int,
                                   some: bool)
    requires some ==> exists p: Pair :: p.kind == k && Chosen(w, u, cached, p)
    requires !some ==> forall l :: l in list && l.kind == k ==> !Chosen(w, u, cached, PairOf(l))
    ensures Naive(w, u, cached, list, k, defaultSlot)
            == if some then WorkFor(list, Event(k, u.Target(), None), defaultSlot) else []
  {
    if list != [] {
      var front, l := list[..|list| - 1], list[|list| - 1];
      NaiveIs(w, u, cached, front, k, defaultSlot, some);
      if Chosen(w, u, cached, PairOf(l)) {
        EventOfSelected(w, u, cached, RecordFor(w, PairOf(l)));
        SingleBitKind(w, u, cached, RecordFor(w, PairOf(l)), l.kind);
      } else if some && NeedsHandling(l, Event(k, u.Target(), None), defaultSlot) {
        var p: Pair :| p.kind == k && Chosen(w, u, cached, p);
        ChosenTogether(w, u, cached, p, l, defaultSlot);
        assert false;
      }
    }
  }

  /** Aggregation refines the simple system. With a faithful table, what the process queues for an
      update and an event type is what the simple system queues, in list order, once for each
      callback that arrives. */
  lemma AggregationRefines(w: World, u: Update, cached: string, table: seq<Record>, list: seq<Listener>,
                           k: Kind, defaultSlot: int)
    requires Faithful(w, table, list)
    ensures Handled(w, FanOut(w.cfg, u, table, cached), list, k, defaultSlot)
            == Repeat(Arriving(w, u, cached, k, table, |table|), Naive(w, u, cached, list, k, defaultSlot))
  {
    HandledRepeats(w, u, cached, table, |table|, list, k, defaultSlot);
    ArrivesForAListener(w, u, cached, k, table, list);
    if Arriving(w, u, cached, k, table, |table|) > 0 {
      NaiveIs(w, u, cached, list, k, defaultSlot, true);
    }
  }

  // ---------------------------------------------------------------- how often

  /** The pairs of an event type that the process listens to and the update selects. */
  function ChosenPairs(w: World, u: Update, cached: string, list: seq<Listener>, k: Kind): set<Pair> {
    set p | p in PairsOf(list) && p.kind == k && Chosen(w, u, cached, p)
  }

  /** The pairs of the selected records among the first n. */
  function SelectedPairs(w: World, u: Update, cached: string, k: Kind, table: seq<Record>, n: nat): set<Pair>
    requires n <= |table|
  {
    if n == 0 then {}
    else
      var before := SelectedPairs(w, u, cached, k, table, n - 1);
      if Selects(w, u, cached, k, table[n - 1]) then before + {Pair(table[n - 1].slot, k)} else before
  }

  lemma SelectedKey(w: World, u: Update, cached: string, k: Kind, r: Record)
    requires FrontEndRecord(w, r) && Selects(w, u, cached, k, r)
    ensures KeyOf(r) == PairKey(w, Pair(r.slot, k)) && Chosen(w, u, cached, Pair(r.slot, k))
  {
    SelectsIsChosen(w, u, cached, k, r);
  }

  lemma {:induction false} SelectedPairFrom(w: World, u: Update, cached: string, k: Kind, table: seq<Record>, n: nat,
                                            p: Pair) returns (i: nat)
    requires n <= |table| && p in SelectedPairs(w, u, cached, k, table, n)
    ensures i < n && Selects(w, u, cached, k, table[i]) && p == Pair(table[i].slot, k)
  {
    i := n - 1;
    if !(Selects(w, u, cached, k, table[i]) && p == Pair(table[i].slot, k)) {
      i := SelectedPairFrom(w, u, cached, k, table, n - 1, p);
    }
  }

  lemma {:induction false} SelectedPairAt(w: World, u: Update, cached: string, k: Kind, table: seq<Record>,
                                          n: nat, i: nat)
    requires i < n <= |table| && Selects(w, u, cached, k, table[i])
    ensures Pair(table[i].slot, k) in SelectedPairs(w, u, cached, k, table, n)
  {
    if i < n - 1 {
      SelectedPairAt(w, u, cached, k, table, n - 1, i);
    }
  }

  /** A selected record's pair is not that of an earlier selected record. */
  lemma SelectedOnce(w: World, u: Update, cached: string, k: Kind, table: seq<Record>, n: nat)
    requires n < |table| && NoDuplicates(table) && OnlyFrontEndRecords(w, table)
    requires Selects(w, u, cached, k, table[n])
    ensures Pair(table[n].slot, k) !in SelectedPairs(w, u, cached, k, table, n)
  {
    SelectedKey(w, u, cached, k, table[n]);
    if Pair(table[n].slot, k) in SelectedPairs(w, u, cached, k, table, n) {
      var i := SelectedPairFrom(w, u, cached, k, table, n, Pair(table[n].slot, k));
      SelectedKey(w, u, cached, k, table[i]);
    }
  }

  lemma ArrivingStep(w: World, u: Update, cached: string, k: Kind, table: seq<Record>, n: nat)
    requires n < |table|
    ensures var some := Selects(w, u, cached, k, table[n]);
            var before := SelectedPairs(w, u, cached, k, table, n);
            && Arriving(w, u, cached, k, table, n + 1) == Arriving(w, u, cached, k, table, n) + (if some then 1 else 0)
            && SelectedPairs(w, u, cached, k, table, n + 1) == before + (if some then {Pair(table[n].slot, k)} else {})
  {
  }

  lemma OneMorePair(before: set<Pair>, p: Pair)
    requires p !in before
    ensures |before + {p}| == |before| + 1
  {
  }

  /** Selected records of the process have different pairs, so as many arrive as there are pairs. */
  lemma {:induction false} ArrivingIsPairs(w: World, u: Update, cached: string, k: Kind, table: seq<Record>, n: nat)
    requires n <= |table| && NoDuplicates(table) && OnlyFrontEndRecords(w, table)
    ensures Arriving(w, u, cached, k, table, n) == |SelectedPairs(w, u, cached, k, table, n)|
  {
    if n > 0 {
      ArrivingIsPairs(w, u, cached, k, table, n - 1);
      ArrivingStep(w, u, cached, k, table, n - 1);
      if Selects(w, u, cached, k, table[n - 1]) {
        SelectedOnce(w, u, cached, k, table, n - 1);
        OneMorePair(SelectedPairs(w, u, cached, k, table, n - 1), Pair(table[n - 1].slot, k));
      }
    }
  }

  lemma SelectedIsChosenPair(w: World, u: Update, cached: string, k: Kind, table: seq<Record>, list: seq<Listener>,
                             p: Pair)
    requires Faithful(w, table, list) && p in SelectedPairs(w, u, cached, k, table, |table|)
    ensures p in ChosenPairs(w, u, cached, list, k)
  {
    var i := SelectedPairFrom(w, u, cached, k, table, |table|, p);
    SelectedKey(w, u, cached, k, table[i]);
    assert Present(table, PairKey(w, p));
  }

  lemma ChosenIsSelectedPair(w: World, u: Update, cached: string, k: Kind, table: seq<Record>, list: seq<Listener>,
                             p: Pair)
    requires Faithful(w, table, list) && p in ChosenPairs(w, u, cached, list, k)
    ensures p in SelectedPairs(w, u, cached, k, table, |table|)
  {
    assert Present(table, PairKey(w, p));
    var i :| 0 <= i < |table| && KeyOf(table[i]) == PairKey(w, p);
    SelectsIsChosen(w, u, cached, k, table[i]);
    SelectedPairAt(w, u, cached, k, table, |table|, i);
  }

  /** How often an update reaches the process for an event type: once for each pair the process
      listens to that the update selects. */
  lemma ArrivesOncePerPair(w: World, u: Update, cached: string, k: Kind, table: seq<Record>, list: seq<Listener>)
    requires Faithful(w, table, list)
    ensures Arriving(w, u, cached, k, table, |table|) == |ChosenPairs(w, u, cached, list, k)|
  {
    var got, chosen := SelectedPairs(w, u, cached, k, table, |table|), ChosenPairs(w, u, cached, list, k);
    ArrivingIsPairs(w, u, cached, k, table, |table|);
    forall p | p in got
      ensures p in chosen
    {
      SelectedIsChosenPair(w, u, cached, k, table, list, p);
    }
    forall p | p in chosen
      ensures p in got
    {
      ChosenIsSelectedPair(w, u, cached, k, table, list, p);
    }
    assert got == chosen;
  }

  // ---------------------------------------------------------------- by event type

  /** The event types whose fan-out compares the record's slot with the update's. */
  predicate SlotMatched(k: Kind) {
    !IsDefaultDataKind(k) && k != IccAccount && k != VoIPCall
  }

  /** Which pairs an update can select. */
  lemma ChosenSlots(w: World, u: Update, cached: string, p: Pair)
    requires Chosen(w, u, cached, p)
    ensures SlotMatched(p.kind) ==> p.slot == u.Target()
    ensures IsDefaultDataKind(p.kind) ==> p.slot == u.Target() || p.slot == ALL_SLOTS
  {
    assert Bit(p.kind).kinds == {p.kind};
  }

  /** The update is one of this data type, or one of the account or VoIP type that the process may
      receive; these select every slot their fan-out does not compare. */
  predicate SelectsFreely(w: World, u: Update, k: Kind) {
    match k
    case DataConnection => u.SetDataConnection?
    case DataFlow => u.SetDataFlow?
    case IccAccount => u.SetIccAccount?
    case VoIPCall => u.SetVoIPCall? && w.token in w.cfg.manageCall
    case _ => false
  }

  lemma ChosenFreely(w: World, u: Update, cached: string, k: Kind, slot: int)
    requires SelectsFreely(w, u, k)
    ensures Chosen(w, u, cached, Pair(slot, k)) <==> !IsDefaultDataKind(k) || slot == u.Target() || slot == ALL_SLOTS
  {
    assert Bit(k).kinds == {k};
  }

  lemma RepeatOnce(ws: seq<Work>)
    ensures Repeat(0, ws) == [] && Repeat(1, ws) == ws && Repeat(2, ws) == ws + ws
  {
    assert Repeat(2, ws) == Repeat(1, ws) + ws;
    assert Repeat(1, ws) == Repeat(0, ws) + ws;
  }

  lemma {:induction false} RepeatNothing(n: nat)
    ensures Repeat(n, []) == []
  {
    if n > 0 {
      RepeatNothing(n - 1);
    }
  }

  lemma AtMostOne(ps: set<Pair>, p: Pair)
    requires forall q :: q in ps ==> q == p
    ensures |ps| <= 1
  {
    if p in ps {
      assert ps == {p};
    } else {
      assert ps == {};
    }
  }

  lemma NaiveWhenNone(w: World, u: Update, cached: string, list: seq<Listener>, k: Kind, defaultSlot: int)
    ensures ChosenPairs(w, u, cached, list, k) == {} ==> Naive(w, u, cached, list, k, defaultSlot) == []
  {
    if ChosenPairs(w, u, cached, list, k) == {} {
      forall l | l in list && l.kind == k
        ensures !Chosen(w, u, cached, PairOf(l))
      {
        assert PairOf(l) in PairsOf(list);
        assert PairOf(l) !in ChosenPairs(w, u, cached, list, k);
      }
      NaiveIs(w, u, cached, list, k, defaultSlot, false);
    }
  }

  /** For an event type that compares slots, every update reaches each listener the simple system
      reaches exactly once, in list order. */
  lemma SlotMatchedExactlyOnce(w: World, u: Update, cached: string, table: seq<Record>, list: seq<Listener>,
                               k: Kind, defaultSlot: int)
    requires Faithful(w, table, list) && SlotMatched(k)
    ensures Handled(w, FanOut(w.cfg, u, table, cached), list, k, defaultSlot)
            == Naive(w, u, cached, list, k, defaultSlot)
  {
    var ps := ChosenPairs(w, u, cached, list, k);
    AggregationRefines(w, u, cached, table, list, k, defaultSlot);
    ArrivesOncePerPair(w, u, cached, k, table, list);
    forall p | p in ps
      ensures p == Pair(u.Target(), k)
    {
      ChosenSlots(w, u, cached, p);
    }
    AtMostOne(ps, Pair(u.Target(), k));
    RepeatOnce(Naive(w, u, cached, list, k, defaultSlot));
    NaiveWhenNone(w, u, cached, list, k, defaultSlot);
  }

  /** For the two data types, each listener the simple system reaches is reached once for each of the
      pairs "the update's slot" and "999" the process holds: twice when it holds both. */
  lemma DataKindsOncePerRecord(w: World, u: Update, cached: string, table: seq<Record>, list: seq<Listener>,
                               k: Kind, defaultSlot: int)
    requires Faithful(w, table, list) && IsDefaultDataKind(k) && SelectsFreely(w, u, k)
    ensures var naive := Naive(w, u, cached, list, k, defaultSlot);
            var own, all := Pair(u.Target(), k), Pair(ALL_SLOTS, k);
            Handled(w, FanOut(w.cfg, u, table, cached), list, k, defaultSlot)
            == if own in PairsOf(list) && all in PairsOf(list) && own != all then naive + naive else naive
  {
    var ps := ChosenPairs(w, u, cached, list, k);
    var own, all := Pair(u.Target(), k), Pair(ALL_SLOTS, k);
    AggregationRefines(w, u, cached, table, list, k, defaultSlot);
    ArrivesOncePerPair(w, u, cached, k, table, list);
    forall p: Pair
      ensures p in ps <==> p in PairsOf(list) && (p == own || p == all)
    {
      ChosenFreely(w, u, cached, k, p.slot);
    }
    assert ps == PairsOf(list) * {own, all};
    TwoOf(PairsOf(list), own, all);
    RepeatOnce(Naive(w, u, cached, list, k, defaultSlot));
    NaiveWhenNone(w, u, cached, list, k, defaultSlot);
  }

  lemma TwoOf(ps: set<Pair>, a: Pair, b: Pair)
    ensures |ps * {a, b}| == if a in ps && b in ps && a != b then 2 else if a in ps || b in ps then 1 else 0
  {
    if a in ps && b in ps {
      assert ps * {a, b} == {a, b};
    } else if a in ps {
      assert ps * {a, b} == {a};
    } else if b in ps {
      assert ps * {a, b} == {b};
    } else {
      assert ps * {a, b} == {};
    }
  }

  /** The pairs of one event type a process listens to. */
  function PairsOfKind(list: seq<Listener>, k: Kind): set<Pair> {
    set p | p in PairsOf(list) && p.kind == k
  }

  /** The account and the VoIP event ignore slots: each listener the simple system reaches is reached
      once for every slot on which the process listens to the type. */
  lemma SlotlessOncePerSlot(w: World, u: Update, cached: string, table: seq<Record>, list: seq<Listener>,
                            k: Kind, defaultSlot: int)
    requires Faithful(w, table, list) && SelectsFreely(w, u, k) && !IsDefaultDataKind(k)
    ensures Handled(w, FanOut(w.cfg, u, table, cached), list, k, defaultSlot)
            == Repeat(|PairsOfKind(list, k)|, Naive(w, u, cached, list, k, defaultSlot))
  {
    AggregationRefines(w, u, cached, table, list, k, defaultSlot);
    ArrivesOncePerPair(w, u, cached, k, table, list);
    forall p: Pair
      ensures p in ChosenPairs(w, u, cached, list, k) <==> p in PairsOfKind(list, k)
    {
      ChosenFreely(w, u, cached, k, p.slot);
    }
    assert ChosenPairs(w, u, cached, list, k) == PairsOfKind(list, k);
  }

  // ---------------------------------------------------------------- runs

  lemma TableOperationsKeep(w: World, table: seq<Record>, r: Record, key: Key)
    requires OnlyFrontEndRecords(w, table)
    ensures FrontEndRecord(w, r) ==> OnlyFrontEndRecords(w, Records.Added(table, r))
    ensures OnlyFrontEndRecords(w, Erased(table, key))
  {
  }

  lemma StepKeepsFrontEndRecords(w: World, s: Coupling.State, a: Coupling.Action)
    requires OnlyFrontEndRecords(w, s.table)
    ensures OnlyFrontEndRecords(w, Coupling.Step(w, s, a).table)
  {
    if a.On? {
      var p := PairOf(a.l);
      assert NewRecord(w, p, a.observer).mask == Bit(p.kind);
      TableOperationsKeep(w, s.table, NewRecord(w, p, a.observer), PairKey(w, p));
    } else if a.OffCall? {
      if s.todo != [] {
        TableOperationsKeep(w, s.table, RecordFor(w, s.todo[0]), PairKey(w, s.todo[0]));
      }
    } else if a.OtherAdds? {
      TableOperationsKeep(w, s.table, a.r, KeyOf(a.r));
    } else if a.OtherRemoves? {
      TableOperationsKeep(w, s.table, RecordFor(w, Pair(0, SimState)), a.key);
    }
  }

  lemma {:induction false} RunsKeepFrontEndRecords(w: World, actions: seq<Coupling.Action>)
    ensures OnlyFrontEndRecords(w, Coupling.Run(w, actions).table)
  {
    if actions != [] {
      RunsKeepFrontEndRecords(w, actions[..|actions| - 1]);
      StepKeepsFrontEndRecords(w, Coupling.Run(w, actions[..|actions| - 1]), actions[|actions| - 1]);
    }
  }

  /** After every operation of every run without failures, whatever other processes do, and for every
      update and event type: the process queues what the simple system queues, in list order, once
      for each pair it listens to that the update selects. For slot-matched types that is exactly
      once. */
  lemma AggregationInRuns(w: World, s: Coupling.State, u: Update, cached: string, k: Kind, defaultSlot: int)
    requires CleanlyReached(w, s) && s.todo == []
    ensures Faithful(w, s.table, s.list)
    ensures var handled := Handled(w, FanOut(w.cfg, u, s.table, cached), s.list, k, defaultSlot);
            var naive := Naive(w, u, cached, s.list, k, defaultSlot);
            handled == Repeat(|ChosenPairs(w, u, cached, s.list, k)|, naive) && (SlotMatched(k) ==> handled == naive)
  {
    var actions :| NoFailures(w, actions) && s == Coupling.Run(w, actions);
    TablesAgree(w, actions);
    RunsKeepFrontEndRecords(w, actions);
    AggregationRefines(w, u, cached, s.table, s.list, k, defaultSlot);
    ArrivesOncePerPair(w, u, cached, k, s.table, s.list);
    if SlotMatched(k) {
      SlotMatchedExactlyOnce(w, u, cached, s.table, s.list, k, defaultSlot);
    }
  }

  // ---------------------------------------------------------------- a data update that arrives twice

  /** A first registration in a run without failures pushes the listener. */
  lemma CleanOn(w: World, s: Coupling.State, l: Listener, c: Call)
    requires CleanlyReached(w, s) && s.todo == [] && PairOf(l) !in PairsOf(s.list)
    requires Flawless(s, PairOf(l), c) && AcceptedSlot(w.cfg, c.caller, l.slot)
    ensures var t := DoOn(w, s, l, 0, c);
            CleanlyReached(w, t) && t.todo == [] && t.list == s.list + [l] && t.instance == s.instance
            && t.proxy == Some(s.instance)
  {
    var actions :| NoFailures(w, actions) && s == Coupling.Run(w, actions);
    TablesAgree(w, actions);
    CleanStep(w, s, On(l, 0, c));
    forall m | m in s.list
      ensures !IsSame(m, l)
    {
    }
    AcceptedFirstOn(w, s, l, c);
  }

  lemma CleanStep(w: World, s: Coupling.State, a: Coupling.Action)
    requires CleanlyReached(w, s) && StepWorks(w, s, a)
    ensures CleanlyReached(w, Coupling.Step(w, s, a))
  {
    var actions :| NoFailures(w, actions) && s == Coupling.Run(w, actions);
    RunSnoc(w, actions, a);
    NoFailuresSnoc(w, actions, a);
  }

  lemma AcceptedFirstOn(w: World, s: Coupling.State, l: Listener, c: Call)
    requires s.up && Flawless(s, PairOf(l), c) && AcceptedSlot(w.cfg, c.caller, l.slot)
    ensures FirstOn(w, s, l, 0, c).list == s.list + [l] && FirstOn(w, s, l, 0, c).proxy == Some(s.instance)
    ensures FirstOn(w, s, l, 0, c).todo == s.todo && FirstOn(w, s, l, 0, c).instance == s.instance
  {
  }

  /** A process that listens to a data type on slot 0 and on the pseudo slot 999 reaches, in a run
      without failures, a state in which one update of slot 0 is handled twice by each listener it is
      for; the one on 999 is among them exactly when slot 0 is the default data slot. */
  lemma DataUpdateHandledTwice(w: World, own: Listener, all: Listener, k: Kind, u: Update, cached: string,
                               defaultSlot: int) returns (s: Coupling.State)
    requires k == DataConnection || k == DataFlow
    requires PairOf(own) == Pair(0, k) && PairOf(all) == Pair(ALL_SLOTS, k)
    requires if k == DataFlow then u.SetDataFlow? && u.slot == 0 else u.SetDataConnection? && u.slot == 0
    requires w.cfg.maxSlotCount >= 0
    ensures CleanlyReached(w, s) && s.todo == [] && s.list == [own, all]
    ensures var e := Event(k, 0, None);
            var once := [Work(own, e)] + if defaultSlot == 0 then [Work(all, e)] else [];
            Handled(w, FanOut(w.cfg, u, s.table, cached), s.list, k, defaultSlot) == once + once
  {
    var c := Call(Caller(true, true, true, {}), Lookup(Some(0), true, true), Answered);
    var s0 := Coupling.Init();
    assert NoFailures(w, []) && s0 == Coupling.Run(w, []);
    assert Bit(k).kinds == {k};
    CleanOn(w, s0, own, c);
    var s1 := DoOn(w, s0, own, 0, c);
    assert s1.list == [own];
    CleanOn(w, s1, all, c);
    s := DoOn(w, s1, all, 0, c);
    assert s.list == [own, all];
    AggregationInRuns(w, s, u, cached, k, defaultSlot);
    DataKindsOncePerRecord(w, u, cached, s.table, s.list, k, defaultSlot);
    assert own in s.list && all in s.list;
    NaiveOfTwo(w, u, cached, own, all, k, defaultSlot);
  }

  lemma NaiveOfTwo(w: World, u: Update, cached: string, own: Listener, all: Listener, k: Kind, defaultSlot: int)
    requires PairOf(own) == Pair(0, k) && PairOf(all) == Pair(ALL_SLOTS, k)
    requires IsDefaultDataKind(k) && SelectsFreely(w, u, k) && u.Target() == 0
    ensures Naive(w, u, cached, [own, all], k, defaultSlot)
            == [Work(own, Event(k, 0, None))] + if defaultSlot == 0 then [Work(all, Event(k, 0, None))] else []
  {
    var e := Event(k, 0, None);
    ChosenFreely(w, u, cached, k, 0);
    assert Chosen(w, u, cached, PairOf(own));
    NaiveIs(w, u, cached, [own, all], k, defaultSlot, true);
    WorkForSnoc([], own, e, defaultSlot);
    WorkForSnoc([own], all, e, defaultSlot);
    assert [] + [own] == [own] && [own] + [all] == [own, all];
  }
}
