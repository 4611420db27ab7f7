/** Every live record that was replayed to gets to see the value its caches hold now. */
module CurrentValues {
  import opened Kinds
  import opened Records
  import opened Updates
  import opened CacheHistory
  import opened Interleaving
  import opened CacheRuns
  import opened Deliveries
  import opened ReplayRuns
  import opened LogRuns
  import opened FanOuts

  /** The callback of a kind with the values cached now; unlike a replay, a fan-out shows the
      restricted event's state as it is. */
  function CurrentCallback(cfg: Config, c: Caches, r: Record, k: Kind): Callback
    requires k != VoIPCall
  {
    if k == CCallState then OnCCallState(r.slot, At(c.callState, r.slot, 0), At(c.number, r.slot, ""))
    else ReplayCallback(cfg, c, r, k)
  }

  /** The kind under which a fan-out reaches the record for updates of this kind: the kind itself,
      or a call-family kind of higher priority in the record's mask. */
  predicate StandsFor(r: Record, j: Kind, k: Kind) {
    j == k || (CallPriority(j) > CallPriority(k) > 0 && HasBit(r.mask, j))
  }

  /** The callback shows the cached values, as the kind asked for or as one that outranks it. */
  predicate ShowsCurrent(cfg: Config, c: Caches, r: Record, k: Kind, cb: Callback) {
    cb.Kind() != VoIPCall && StandsFor(r, cb.Kind(), k) && cb == CurrentCallback(cfg, c, r, cb.Kind())
  }

  /** The fan-out of ticket w called the observer of registration id with the current values. */
  ghost predicate DeliveredCurrent(cfg: Config, s: State, e: Entry, w: nat, k: Kind) {
    exists j :: 0 <= j < |s.log| && s.log[j].Delivered? && s.log[j].id == e.id && s.log[j].ticket == w
                && ShowsCurrent(cfg, s.caches, e.rec, k, s.log[j].cb)
  }

  /** A replayed kind is notified of every update that writes it, except of a null network state. */
  lemma NotifiedUnlessNull(cfg: Config, u: Update, r: Record, k: Kind)
    requires Replays(cfg, r, k) && WritesKind(u, k, r.slot)
    ensures Selected(cfg, u, r) <==> !(u.SetNetworkState? && u.network.None?)
  {
  }

  /** The cells an update writes, when nothing has overwritten them. */
  predicate HoldsUpdate(c: Caches, u: Update) {
    match u
    case SetDataConnection(s, d, n) => At(c.dataState, s, 0) == d && At(c.dataNetwork, s, 0) == n
    case SetDataFlow(s, x) => At(c.dataFlow, s, 0) == x
    case SetCallState(st, num) => At(c.callState, -1, 0) == st && At(c.number, -1, "") == num
    case SetCallStateForSlot(s, st, num) => At(c.callState, s, 0) == st && At(c.number, s, "") == num
    case SetSimState(s, t, st, r) =>
      At(c.cardType, s, 0) == t && At(c.simState, s, 0) == st && At(c.simReason, s, 0) == r
    case SetSignalInfo(s, v) => At(c.signals, s, []) == v
    case SetCellInfo(s, v) => At(c.cells, s, []) == v
    case SetNetworkState(s, n) => At(c.network, s, None) == n
    case SetCfuIndicator(s, b) => At(c.cfu, s, false) == b
    case SetIccAccount => true
    case SetVoiceMail(s, b) => At(c.voiceMail, s, false) == b
    case SetSimActive(s, b) => At(c.simActive, s, false) == b
    case SetVoIPCall(_) => true
  }

  predicate CellHolds(c: Caches, u: Update, f: Field) {
    StoredBy(u, f).Some? ==> CellOr(c, f, u.Target()) == StoredBy(u, f).value
  }

  predicate IsTuple(u: Update) {
    u.SetDataConnection? || u.SetCallState? || u.SetCallStateForSlot? || u.SetSimState?
  }

  lemma TupleCellsHold(c: Caches, u: Update)
    requires IsTuple(u) && forall f: Field :: CellHolds(c, u, f)
    ensures HoldsUpdate(c, u)
  {
    assert CellHolds(c, u, FDataState) && CellHolds(c, u, FDataNetwork) && CellHolds(c, u, FCallState);
    assert CellHolds(c, u, FNumber) && CellHolds(c, u, FSimState);
    assert CellHolds(c, u, FCardType) && CellHolds(c, u, FSimReason);
  }

  lemma SingleCellHolds(c: Caches, u: Update)
    requires !IsTuple(u) && forall f: Field :: CellHolds(c, u, f)
    ensures HoldsUpdate(c, u)
  {
    assert CellHolds(c, u, FDataFlow) && CellHolds(c, u, FSignals);
    assert CellHolds(c, u, FCells) && CellHolds(c, u, FNetwork);
    assert CellHolds(c, u, FCfu) && CellHolds(c, u, FVoiceMail) && CellHolds(c, u, FSimActive);
  }

  lemma CellsHoldUpdate(c: Caches, u: Update)
    requires forall f: Field :: CellHolds(c, u, f)
    ensures HoldsUpdate(c, u)
  {
    if IsTuple(u) {
      TupleCellsHold(c, u);
    } else {
      SingleCellHolds(c, u);
    }
  }

  /** The update is the last of its kind and slot. */
  ghost predicate LastOfKind(issued: seq<Update>, w: nat, k: Kind, slot: int) {
    && w < |issued| && WritesKind(issued[w], k, slot)
    && forall v :: w < v < |issued| ==> !WritesKind(issued[v], k, slot)
  }

  /** The caches hold the last update of a kind. */
  lemma LastUpdateHeld(cfg: Config, s: State, w: nat, k: Kind, slot: int)
    requires CachesExpected(cfg, s) && LastOfKind(s.issued, w, k, slot)
    ensures HoldsUpdate(s.caches, s.issued[w])
  {
    var u := s.issued[w];
    forall f: Field
      ensures CellHolds(s.caches, u, f)
    {
      if StoredBy(u, f).Some? {
        forall v | w < v < |s.issued|
          ensures !WritesCell(s.issued[v], f, slot)
        {
          SameKindSameField(s.issued[v], u, k, slot, f);
        }
        LastWriteFrom(s.issued, w, f);
        assert Cell(s.caches, f, slot) == Expected(cfg, s.issued, s.replays, f, slot);
        CellOrIs(s.caches, f, slot);
      }
    }
    CellsHoldUpdate(s.caches, u);
  }

  /** Up to any later moment, the number of the slot is that of the last call-state update. */
  lemma NumberOfLast(issued: seq<Update>, w: nat, k: Kind, slot: int, at: nat)
    requires LastOfKind(issued, w, k, slot) && w < at <= |issued|
    requires issued[w].SetCallState? || issued[w].SetCallStateForSlot?
    ensures NumberAfter(issued[..at], slot) == issued[w].number
  {
    var x := LastCallAt(issued[..at], w, slot);
    assert !WritesKind(issued[x], k, slot) || x == w;
  }

  /** What a fan-out of the last update of a kind sends is what the caches hold. */
  lemma FanOutShowsCurrent(cfg: Config, c: Caches, u: Update, r: Record, k: Kind, number: string)
    requires Replays(cfg, r, k) && WritesKind(u, k, r.slot) && HoldsUpdate(c, u)
    requires u.SetCallState? || u.SetCallStateForSlot? ==> number == u.number
    requires CallbackFor(cfg, u, r, number).Some?
    ensures ShowsCurrent(cfg, c, r, k, CallbackFor(cfg, u, r, number).value)
  {
    if u.SetCallState? || u.SetCallStateForSlot? {
      CallFanOutShowsCurrent(cfg, c, u, r, k);
    } else {
      PlainFanOutShowsCurrent(cfg, c, u, r, k, number);
    }
  }

  lemma CallFanOutShowsCurrent(cfg: Config, c: Caches, u: Update, r: Record, k: Kind)
    requires u.SetCallState? || u.SetCallStateForSlot?
    requires Replays(cfg, r, k) && WritesKind(u, k, r.slot) && HoldsUpdate(c, u)
    requires CallbackFor(cfg, u, r, u.number).Some?
    ensures ShowsCurrent(cfg, c, r, k, CallbackFor(cfg, u, r, u.number).value)
  {
  }

  lemma PlainFanOutShowsCurrent(cfg: Config, c: Caches, u: Update, r: Record, k: Kind, number: string)
    requires !u.SetCallState? && !u.SetCallStateForSlot?
    requires Replays(cfg, r, k) && WritesKind(u, k, r.slot) && HoldsUpdate(c, u)
    requires CallbackFor(cfg, u, r, number).Some?
    ensures ShowsCurrent(cfg, c, r, k, CallbackFor(cfg, u, r, number).value)
  {
  }

  lemma DeliveryIsCurrent(cfg: Config, s: State, i: nat, w: nat, k: Kind)
    requires Reachable(cfg, s) && i < |s.table| && Replays(cfg, s.table[i].rec, k)
    requires LastOfKind(s.issued, w, k, s.table[i].rec.slot) && Count(s.log, s.table[i].id, w) > 0
    ensures DeliveredCurrent(cfg, s, s.table[i], w, k)
  {
    var actions :| s == Run(cfg, actions);
    var e, u := s.table[i], s.issued[w];
    CachesAreHistory(cfg, actions);
    ObserversSeeSoundCallbacks(cfg, s);
    LastUpdateHeld(cfg, s, w, k, e.rec.slot);
    var j := CountPositive(s.log, e.id, w);
    var d := s.log[j];
    LogNamesRecords(cfg, actions, i, j);
    assert EventSound(cfg, s.issued, d);
    var number := NumberAfter(s.issued[..d.at], u.Target());
    if u.SetCallState? || u.SetCallStateForSlot? {
      NumberOfLast(s.issued, w, k, e.rec.slot, d.at);
    }
    FanOutShowsCurrent(cfg, s.caches, u, e.rec, k, number);
  }

  // ---------------------------------------------------------------- ids name records

  /** A registration id stands for one record, in the table and in the log. */
  ghost predicate IdsName(s: State) {
    forall i, j :: 0 <= i < |s.table| && 0 <= j < |s.log| && s.log[j].id == s.table[i].id ==>
      s.log[j].to == s.table[i].rec
  }

  lemma {:induction false} IdsNameInRuns(cfg: Config, actions: seq<Action>)
    ensures IdsName(Run(cfg, actions))
  {
    if actions != [] {
      var front := actions[..|actions| - 1];
      IdsNameInRuns(cfg, front);
      InvAlways(cfg, front);
      StepKeepsNames(cfg, Run(cfg, front), actions[|actions| - 1]);
    }
  }

  lemma StepKeepsNames(cfg: Config, s: State, a: Action)
    requires IdsName(s) && Tickets(s) && Ordered(s)
    ensures IdsName(Step(cfg, s, a))
  {
    if a.Visit? {
      VisitKeepsNames(cfg, s, a.t);
    } else if a.Register? {
      RegisterKeepsNames(cfg, s, a.caller, a.r, a.notify);
    } else if a.Unregister? {
      UnregisterKeepsNames(s, a.caller, a.key);
    } else {
      PlainStepKeepsNames(cfg, s, a);
    }
  }

  lemma PlainStepKeepsNames(cfg: Config, s: State, a: Action)
    requires a.Write? || a.Begin? || a.Finish?
    ensures Step(cfg, s, a).table == s.table && Step(cfg, s, a).log == s.log
  {
  }

  lemma VisitKeepsNames(cfg: Config, s: State, t: nat)
    requires IdsName(s) && Ordered(s)
    ensures IdsName(DoVisit(cfg, s, t))
  {
    if t in s.reading && s.reading[t].next < |s.table| {
      forall i | 0 <= i < |s.table|
        ensures s.table[i].id == s.table[s.reading[t].next].id <==> i == s.reading[t].next
      {
        IdsDiffer(s, i, s.reading[t].next);
      }
    }
  }

  lemma ReplayKeepsNames(cfg: Config, s: State, n: nat)
    requires IdsName(s) && Ordered(s) && n < |s.table|
    ensures IdsName(Replaying(cfg, s, n))
  {
    forall i | 0 <= i < |s.table|
      ensures s.table[i].id == s.table[n].id <==> i == n
    {
      IdsDiffer(s, i, n);
    }
  }

  lemma RegisterKeepsNames(cfg: Config, s: State, caller: Caller, r: Record, notify: bool)
    requires IdsName(s) && Tickets(s) && Ordered(s)
    ensures IdsName(DoRegister(cfg, s, caller, r, notify))
  {
    if Gate(caller, r.mask) == Success && AcceptedSlot(cfg, caller, r.slot) && Quiet(s) {
      var n := IndexOf(Recs(s.table), KeyOf(r));
      var nextId := if n < |s.table| then s.nextId else s.nextId + 1;
      var pushed := s.(table := Pushed(s, r), nextId := nextId, codes := s.codes + [Success]);
      OrderedKeptByRegister(cfg, s, caller, r, false);
      assert IdsName(pushed);
      if notify {
        ReplayKeepsNames(cfg, pushed, n);
      }
    }
  }

  lemma UnregisterKeepsNames(s: State, caller: Caller, key: Key)
    requires IdsName(s)
    ensures IdsName(DoUnregister(s, caller, key))
  {
    var n := IndexOf(Recs(s.table), key);
    var t := DoUnregister(s, caller, key);
    forall i, j | 0 <= i < |t.table| && 0 <= j < |t.log| && t.log[j].id == t.table[i].id
      ensures t.log[j].to == t.table[i].rec
    {
      var k := if |t.table| == |s.table| || i < n then i else i + 1;
      assert t.table[i] == s.table[k] && t.log == s.log;
    }
  }

  lemma LogNamesRecords(cfg: Config, actions: seq<Action>, i: nat, j: nat)
    requires i < |Run(cfg, actions).table| && j < |Run(cfg, actions).log|
    requires Run(cfg, actions).log[j].id == Run(cfg, actions).table[i].id
    ensures Run(cfg, actions).log[j].to == Run(cfg, actions).table[i].rec
  {
    IdsNameInRuns(cfg, actions);
  }

  // ---------------------------------------------------------------- the current value

  /** For every live record that was replayed to, and every kind it replays: either nothing wrote the
      kind's caches since, and the replay showed what they hold now; or the update that wrote them
      was a null network state, which is sent to nobody; or its fan-out still holds the record; or it
      called the record's observer exactly once, with the values the caches hold now. */
  lemma CurrentValueReaches(cfg: Config, s: State, i: nat, k: Kind)
    requires Reachable(cfg, s) && i < |s.table| && s.table[i].asOf.Some?
    requires Replays(cfg, s.table[i].rec, k)
    ensures var e := s.table[i];
            var w := LastWriter(s.issued, k, e.rec.slot);
            if w.None? || w.value < e.asOf.value then
              Sent(e.rec, ReplayCallback(cfg, s.caches, e.rec, k)) in e.shown
            else
              && w.value < |s.issued| && HoldsUpdate(s.caches, s.issued[w.value])
              && (|| (s.issued[w.value].SetNetworkState? && s.issued[w.value].network.None?)
                  || (Holds(s, i, w.value) && Count(s.log, e.id, w.value) == 0)
                  || (Count(s.log, e.id, w.value) == 1 && DeliveredCurrent(cfg, s, e, w.value, k)))
  {
    var actions :| s == Run(cfg, actions);
    var e := s.table[i];
    InvAlways(cfg, actions);
    ShownAlways(cfg, actions);
    CachesAreHistory(cfg, actions);
    LastWriterIs(s.issued, k, e.rec.slot);
    var w := LastWriter(s.issued, k, e.rec.slot);
    if w.None? || w.value < e.asOf.value {
      assert NoWriteSince(s.issued, e.asOf.value, k, e.rec.slot);
      assert ShownAt(cfg, s, i, k);
    } else {
      assert LastOfKind(s.issued, w.value, k, e.rec.slot);
      LastUpdateHeld(cfg, s, w.value, k, e.rec.slot);
      NotifiedUnlessNull(cfg, s.issued[w.value], e.rec, k);
      assert AccountedAt(cfg, s, i, w.value);
      if Count(s.log, e.id, w.value) > 0 {
        DeliveryIsCurrent(cfg, s, i, w.value, k);
      }
    }
  }
}
