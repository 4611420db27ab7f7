/** What the observers have been sent after any run, as a function of the accepted updates: what each
    replay sends, and which number each call-state fan-out shows. */
module LogRuns {
  import opened Kinds
  import opened Records
  import opened Updates
  import opened CacheHistory
  import opened Interleaving
  import opened CacheRuns
  import opened ReplayRuns

  /** A fan-out callback is its update's callback for the record, with the incoming number that the
      updates issued until the visit leave for the slot. A replay is the whole replay of the caches
      that the updates issued until then leave. */
  predicate EventSound(cfg: Config, issued: seq<Update>, e: Event) {
    e.at <= |issued|
    && match e
       case Delivered(_, to, t, cb, at) =>
         t < at && CallbackFor(cfg, issued[t], to, NumberAfter(issued[..at], issued[t].Target())) == Some(cb)
       case ReplayedTo(_, to, calls, at) => calls == Replayed(cfg, WrittenAll(cfg, issued[..at]), to, [])
  }

  ghost predicate LogSound(cfg: Config, s: State) {
    forall j :: 0 <= j < |s.log| ==> EventSound(cfg, s.issued, s.log[j])
  }

  lemma EventSoundMonotone(cfg: Config, issued: seq<Update>, u: Update, e: Event)
    requires EventSound(cfg, issued, e)
    ensures EventSound(cfg, issued + [u], e)
  {
    assert (issued + [u])[..e.at] == issued[..e.at];
  }

  lemma LogSoundAfterWrite(cfg: Config, s: State, caller: Caller, u: Update)
    requires LogSound(cfg, s)
    ensures LogSound(cfg, DoWrite(cfg, s, caller, u))
  {
    forall j | 0 <= j < |s.log|
      ensures EventSound(cfg, s.issued + [u], s.log[j])
    {
      EventSoundMonotone(cfg, s.issued, u, s.log[j]);
    }
  }

  lemma LogSoundGrows(cfg: Config, s: State, s': State, e: Event)
    requires LogSound(cfg, s) && s'.issued == s.issued
    requires s'.log == s.log || (s'.log == s.log + [e] && EventSound(cfg, s.issued, e))
    ensures LogSound(cfg, s')
  {
  }

  /** The number cached for a slot is the one the issued updates leave. */
  lemma CachedIsNumberAfter(cfg: Config, s: State, u: Update)
    requires CachesExpected(cfg, s)
    ensures Cached(s, u) == NumberAfter(s.issued, u.Target())
  {
    CachesReadAsWritten(cfg, s, u.Target());
    NumberIsNumberAfter(cfg, s.issued, u.Target());
  }

  lemma LogSoundAfterVisit(cfg: Config, s: State, t: nat)
    requires LogSound(cfg, s) && CachesExpected(cfg, s)
    ensures LogSound(cfg, DoVisit(cfg, s, t))
  {
    if t in s.reading && s.reading[t].next < |s.table| && t < |s.issued| {
      var e, u := s.table[s.reading[t].next], s.issued[t];
      CachedIsNumberAfter(cfg, s, u);
      assert s.issued[..|s.issued|] == s.issued;
      var cb := CallbackFor(cfg, u, e.rec, Cached(s, u));
      if cb.Some? {
        LogSoundGrows(cfg, s, DoVisit(cfg, s, t), Delivered(e.id, e.rec, t, cb.value, |s.issued|));
      }
    }
  }

  lemma LogSoundAfterRegister(cfg: Config, s: State, caller: Caller, r: Record, notify: bool)
    requires LogSound(cfg, s) && CachesExpected(cfg, s)
    ensures LogSound(cfg, DoRegister(cfg, s, caller, r, notify))
  {
    var e := Effective(Recs(s.table), r);
    var id := RegisterLog(cfg, s, caller, r, notify);
    CachesReadAsWritten(cfg, s, e.slot);
    ReplayedAgree(cfg, s.caches, WrittenAll(cfg, s.issued), e);
    assert s.issued[..|s.issued|] == s.issued;
    LogSoundGrows(cfg, s, DoRegister(cfg, s, caller, r, notify),
                  ReplayedTo(id, e, Replayed(cfg, s.caches, e, []), |s.issued|));
  }

  lemma RegisterLog(cfg: Config, s: State, caller: Caller, r: Record, notify: bool) returns (id: nat)
    ensures var s' := DoRegister(cfg, s, caller, r, notify);
            var e := Effective(Recs(s.table), r);
            && s'.issued == s.issued
            && (s'.log == s.log || s'.log == s.log + [ReplayedTo(id, e, Replayed(cfg, s.caches, e, []), |s.issued|)])
  {
    var n := IndexOf(Recs(s.table), KeyOf(r));
    var e := Pushed(s, r)[n];
    id := e.id;
    assert e.rec == Effective(Recs(s.table), r);
  }

  lemma {:induction false} LogSoundInRuns(cfg: Config, actions: seq<Action>)
    ensures LogSound(cfg, Run(cfg, actions))
  {
    if actions != [] {
      var front, a := actions[..|actions| - 1], actions[|actions| - 1];
      var s := Run(cfg, front);
      LogSoundInRuns(cfg, front);
      CachesAreHistory(cfg, front);
      if a.Write? {
        LogSoundAfterWrite(cfg, s, a.caller, a.u);
      } else if a.Visit? {
        LogSoundAfterVisit(cfg, s, a.t);
      } else if a.Register? {
        LogSoundAfterRegister(cfg, s, a.caller, a.r, a.notify);
      } else {
        LogKeptByStep(cfg, s, a);
      }
    }
  }

  lemma LogKeptByStep(cfg: Config, s: State, a: Action)
    requires a.Begin? || a.Finish? || a.Unregister?
    ensures Step(cfg, s, a).log == s.log && Step(cfg, s, a).issued == s.issued
  {
  }

  /** After any run the whole log is determined by the accepted updates: every fan-out callback is its
      own update's, with the number its slot has at the visit, and every replay is the replay of the
      values last written before it. */
  lemma ObserversSeeSoundCallbacks(cfg: Config, s: State)
    requires Reachable(cfg, s)
    ensures LogSound(cfg, s)
  {
    var actions :| s == Run(cfg, actions);
    LogSoundInRuns(cfg, actions);
  }

  // ---------------------------------------------------------------- replayed tuples

  /** The callback's parts are those of one update, the last of its slot, or all defaults. The number
      of a call state is blank for a token that may not read it. */
  predicate Untorn(cfg: Config, writes: seq<Update>, to: Record, cb: Callback) {
    match cb
    case OnSimState(slot, t, st, r) =>
      (match LastSim(writes, slot)
       case Some(u) => u == SetSimState(slot, t, st, r)
       case None => t == 0 && st == 0 && r == 0)
    case OnDataConnection(slot, d, n) =>
      (match LastConnection(writes, slot)
       case Some(u) => u == SetDataConnection(slot, d, n)
       case None => d == 0 && n == 0)
    case OnCallState(slot, st, num) =>
      (match LastCall(writes, slot)
       case Some(u) => st == u.state && num == if IsCanReadCallHistory(cfg, to) then u.number else ""
       case None => st == InitialState(cfg, slot) && num == "")
    case OnCCallState(slot, st, num) =>
      (match LastCall(writes, slot)
       case Some(u) => st == ShownState(cfg, u.state) && num == u.number
       case None => st == ShownState(cfg, InitialState(cfg, slot)) && num == "")
    case _ => true
  }

  /** The restricted event shows the unknown call state as idle. */
  function ShownState(cfg: Config, state: int): int {
    if state == cfg.callUnknown then cfg.callIdle else state
  }

  /** The caches a history of writes leaves, read back as tuples. */
  lemma WrittenTuples(cfg: Config, writes: seq<Update>, slot: int)
    ensures var c := WrittenAll(cfg, writes);
            && (match LastSim(writes, slot)
                case Some(u) =>
                  u == SetSimState(slot, At(c.cardType, slot, 0), At(c.simState, slot, 0), At(c.simReason, slot, 0))
                case None => At(c.cardType, slot, 0) == At(c.simState, slot, 0) == At(c.simReason, slot, 0) == 0)
            && (match LastConnection(writes, slot)
                case Some(u) => u == SetDataConnection(slot, At(c.dataState, slot, 0), At(c.dataNetwork, slot, 0))
                case None => At(c.dataState, slot, 0) == At(c.dataNetwork, slot, 0) == 0)
  {
    var c := WrittenAll(cfg, writes);
    OneWriter(writes, slot);
    TupleCells(c, slot);
    WrittenAllCells(cfg, writes, FSimState, slot);
    WrittenAllCells(cfg, writes, FSimReason, slot);
    WrittenAllCells(cfg, writes, FCardType, slot);
    WrittenAllCells(cfg, writes, FDataState, slot);
    WrittenAllCells(cfg, writes, FDataNetwork, slot);
  }

  lemma WrittenCallPair(cfg: Config, writes: seq<Update>, slot: int)
    ensures var c := WrittenAll(cfg, writes);
            && At(c.number, slot, "") == NumberAfter(writes, slot)
            && (match LastCall(writes, slot)
                case Some(u) => At(c.callState, slot, 0) == u.state
                case None => At(c.callState, slot, 0) == InitialState(cfg, slot))
  {
    NumberIsNumberAfter(cfg, writes, slot);
    OneCallWriter(writes, slot);
    TupleCells(WrittenAll(cfg, writes), slot);
    WrittenAllCells(cfg, writes, FCallState, slot);
  }

  lemma ReplayKind(cfg: Config, c: Caches, r: Record, k: Kind)
    requires k != VoIPCall
    ensures ReplayCallback(cfg, c, r, k).Kind() == k
  {
  }

  lemma ReplayedTupleUntorn(cfg: Config, writes: seq<Update>, to: Record, k: Kind)
    requires k == SimState || k == DataConnection
    ensures Untorn(cfg, writes, to, ReplayCallback(cfg, WrittenAll(cfg, writes), to, k))
  {
    WrittenTuples(cfg, writes, to.slot);
  }

  lemma ReplayedCallUntorn(cfg: Config, writes: seq<Update>, to: Record, k: Kind)
    requires k == CallState || k == CCallState
    ensures Untorn(cfg, writes, to, ReplayCallback(cfg, WrittenAll(cfg, writes), to, k))
  {
    WrittenCallPair(cfg, writes, to.slot);
  }

  lemma ReplayOfWritesUntorn(cfg: Config, writes: seq<Update>, to: Record, x: Sent)
    requires x in Replayed(cfg, WrittenAll(cfg, writes), to, [])
    ensures x.to == to && Untorn(cfg, writes, to, x.cb)
  {
    var c := WrittenAll(cfg, writes);
    ReplayMembers(cfg, c, to, x);
    var k :| IsReplayOf(cfg, c, to, k, x);
    if k == SimState || k == DataConnection {
      ReplayedTupleUntorn(cfg, writes, to, k);
    } else if k == CallState || k == CCallState {
      ReplayedCallUntorn(cfg, writes, to, k);
    } else {
      ReplayKind(cfg, c, to, k);
    }
  }

  /** In every interleaving a replayed tuple is whole: SIM triple, connection pair, and call state
      with its number each come from one update, the last one of the slot at that moment. */
  lemma ReplaysUntorn(cfg: Config, s: State, j: nat, x: Sent)
    requires Reachable(cfg, s) && j < |s.log| && s.log[j].ReplayedTo? && x in s.log[j].calls
    ensures s.log[j].at <= |s.issued| && x.to == s.log[j].to && Untorn(cfg, s.issued[..s.log[j].at], x.to, x.cb)
  {
    ObserversSeeSoundCallbacks(cfg, s);
    assert EventSound(cfg, s.issued, s.log[j]);
    ReplayOfWritesUntorn(cfg, s.issued[..s.log[j].at], s.log[j].to, x);
  }

  // ---------------------------------------------------------------- the number of a call-state fan-out

  /** A fan-out callback of a slot's call-state update, in a reachable state. */
  ghost predicate CallStateSent(cfg: Config, s: State, j: nat) {
    && Reachable(cfg, s) && j < |s.log| && s.log[j].Delivered? && s.log[j].ticket < |s.issued|
    && s.issued[s.log[j].ticket].SetCallStateForSlot? && s.log[j].cb.OnCallState?
  }

  /** Update w is a call-state update of the slot with this number, issued no earlier than ticket t
      and before the visit, and the last such one. */
  predicate NumberFrom(issued: seq<Update>, t: nat, at: nat, w: nat, slot: int, number: string) {
    && t <= w < at <= |issued|
    && issued[w].SetCallStateForSlot? && issued[w].slot == slot && issued[w].number == number
    && forall v :: w < v < at ==> !WritesCall(issued[v], slot)
  }

  lemma {:induction false} LastCallAt(writes: seq<Update>, t: nat, slot: int) returns (w: nat)
    requires t < |writes| && WritesCall(writes[t], slot)
    ensures t <= w < |writes| && LastCall(writes, slot) == Some(writes[w]) && WritesCall(writes[w], slot)
    ensures forall v :: w < v < |writes| ==> !WritesCall(writes[v], slot)
  {
    var n := |writes| - 1;
    w := n;
    if !WritesCall(writes[n], slot) {
      w := LastCallAt(writes[..n], t, slot);
    }
  }

  /** A call-state fan-out shows its own state, and to a token that may read numbers exactly the
      number of the slot's last call-state update at the visit: its own update or a later one, never
      an earlier one and never another slot's. To other tokens it shows none. */
  lemma CallStateNumber(cfg: Config, s: State, j: nat) returns (w: nat)
    requires CallStateSent(cfg, s, j)
    ensures var e := s.log[j];
            var u := s.issued[e.ticket];
            && e.cb.slot == u.slot && e.cb.state == u.state
            && (IsCanReadCallHistory(cfg, e.to) ==> NumberFrom(s.issued, e.ticket, e.at, w, u.slot, e.cb.number))
            && (!IsCanReadCallHistory(cfg, e.to) ==> e.cb.number == "")
  {
    var e := s.log[j];
    var u := s.issued[e.ticket];
    ObserversSeeSoundCallbacks(cfg, s);
    OnlySlotsAreWritten(cfg, s, e.ticket);
    assert EventSound(cfg, s.issued, e);
    var before := s.issued[..e.at];
    assert before[e.ticket] == u;
    w := LastCallAt(before, e.ticket, u.slot);
    assert forall v :: w < v < e.at ==> before[v] == s.issued[v];
  }

  /** A slot's call-state update names a writable slot, so no all-slots update shares its number. */
  lemma OnlySlotsAreWritten(cfg: Config, s: State, t: nat)
    requires Reachable(cfg, s) && t < |s.issued| && s.issued[t].SetCallStateForSlot?
    ensures s.issued[t].slot >= 0
  {
    var actions :| s == Run(cfg, actions);
    TargetsBoundedAlways(cfg, actions);
  }

  /** A call-state fan-out shows the pair it was called with exactly when the number its slot has at
      the visit is still its own, or, for a token that may not read numbers, when its own is empty.
      In particular it does when no other call-state update of the slot was issued in between. */
  lemma CallStatePairWhole(cfg: Config, s: State, j: nat)
    requires CallStateSent(cfg, s, j)
    ensures var e := s.log[j];
            var u := s.issued[e.ticket];
            && e.at <= |s.issued|
            && (e.cb == OnCallState(u.slot, u.state, u.number) <==>
                  if IsCanReadCallHistory(cfg, e.to) then NumberAfter(s.issued[..e.at], u.slot) == u.number
                  else u.number == "")
            && (IsCanReadCallHistory(cfg, e.to)
                && (forall v :: e.ticket < v < e.at ==> s.issued[v].Target() != u.slot) ==>
                  e.cb == OnCallState(u.slot, u.state, u.number))
  {
    var e := s.log[j];
    var u := s.issued[e.ticket];
    ObserversSeeSoundCallbacks(cfg, s);
    assert EventSound(cfg, s.issued, e);
    var w := CallStateNumber(cfg, s, j);
    assert w != e.ticket && IsCanReadCallHistory(cfg, e.to) ==> s.issued[w].Target() == u.slot;
  }
}
