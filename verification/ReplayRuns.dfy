/** What replays send: exactly one callback per replayed kind, made of one update's values, and
    together with the fan-outs enough for every live record to see the current cached value. */
module ReplayRuns {
  import opened Kinds
  import opened Records
  import opened Updates
  import opened CacheHistory
  import opened Interleaving
  import opened Deliveries

  // ---------------------------------------------------------------- the callbacks of a replay

  predicate IsReplayOf(cfg: Config, c: Caches, r: Record, k: Kind, x: Sent) {
    k != VoIPCall && Replays(cfg, r, k) && x == Sent(r, ReplayCallback(cfg, c, r, k))
  }

  lemma RadioMembers(cfg: Config, c: Caches, r: Record, sent: seq<Sent>, x: Sent)
    ensures x in RadioReplay(cfg, c, r, sent) <==>
            || x in sent || IsReplayOf(cfg, c, r, CallState, x) || IsReplayOf(cfg, c, r, SignalStrengths, x)
            || IsReplayOf(cfg, c, r, NetworkState, x) || IsReplayOf(cfg, c, r, CellInfo, x)
  {
  }

  lemma SimAndConnectionMembers(cfg: Config, c: Caches, r: Record, sent: seq<Sent>, x: Sent)
    ensures x in SimAndConnectionReplay(cfg, c, r, sent) <==>
            || x in sent || IsReplayOf(cfg, c, r, SimState, x) || IsReplayOf(cfg, c, r, DataConnection, x)
            || IsReplayOf(cfg, c, r, DataFlow, x)
  {
  }

  lemma IndicatorMembers(cfg: Config, c: Caches, r: Record, sent: seq<Sent>, x: Sent)
    ensures x in IndicatorReplay(cfg, c, r, sent) <==>
            || x in sent || IsReplayOf(cfg, c, r, CfuIndicator, x) || IsReplayOf(cfg, c, r, VoiceMail, x)
            || IsReplayOf(cfg, c, r, IccAccount, x)
  {
  }

  lemma ExMembers(cfg: Config, c: Caches, r: Record, sent: seq<Sent>, x: Sent)
    ensures x in ExReplay(cfg, c, r, sent) <==>
            || x in sent || IsReplayOf(cfg, c, r, CallStateEx, x) || IsReplayOf(cfg, c, r, CCallState, x)
            || IsReplayOf(cfg, c, r, SimActive, x)
  {
  }

  /** A replay sends exactly the callbacks of the kinds the record replays. */
  lemma ReplayMembers(cfg: Config, c: Caches, r: Record, x: Sent)
    ensures x in Replayed(cfg, c, r, []) <==> exists k :: IsReplayOf(cfg, c, r, k, x)
  {
    var s1 := RadioReplay(cfg, c, r, []);
    var s2 := SimAndConnectionReplay(cfg, c, r, s1);
    var s3 := IndicatorReplay(cfg, c, r, s2);
    RadioMembers(cfg, c, r, [], x);
    SimAndConnectionMembers(cfg, c, r, s1, x);
    IndicatorMembers(cfg, c, r, s2, x);
    ExMembers(cfg, c, r, s3, x);
    if exists k :: IsReplayOf(cfg, c, r, k, x) {
      var k :| IsReplayOf(cfg, c, r, k, x);
      assert k.NetworkState? || k.CallStateEx? || k.CallState? || k.CellInfo? || k.SignalStrengths? || k.SimState?
          || k.DataConnection? || k.DataFlow? || k.CfuIndicator? || k.VoiceMail? || k.IccAccount? || k.CCallState?
          || k.SimActive?;
    }
  }

  // ---------------------------------------------------------------- the current value

  /** The update writes the caches a replay of this kind reads for this slot. */
  predicate WritesKind(u: Update, k: Kind, slot: int) {
    && u.Target() == slot
    && match k
       case NetworkState => u.SetNetworkState?
       case CallStateEx => u.SetCallState? || u.SetCallStateForSlot?
       case CallState => u.SetCallState? || u.SetCallStateForSlot?
       case CCallState => u.SetCallState? || u.SetCallStateForSlot?
       case CellInfo => u.SetCellInfo?
       case SignalStrengths => u.SetSignalInfo?
       case SimState => u.SetSimState?
       case DataConnection => u.SetDataConnection?
       case DataFlow => u.SetDataFlow?
       case CfuIndicator => u.SetCfuIndicator?
       case VoiceMail => u.SetVoiceMail?
       case SimActive => u.SetSimActive?
       case IccAccount => false
       case VoIPCall => false
  }

  lemma WriteKeepsCallback(cfg: Config, c: Caches, u: Update, r: Record, k: Kind)
    requires k != VoIPCall && !WritesKind(u, k, r.slot)
    ensures ReplayCallback(cfg, Written(c, u), r, k) == ReplayCallback(cfg, c, r, k)
  {
    if k == CallState || k == CallStateEx || k == CCallState {
      WriteKeepsCallCallback(cfg, c, u, r, k);
    } else if k == SimState || k == DataConnection || k == DataFlow {
      WriteKeepsSimCallback(cfg, c, u, r, k);
    } else {
      WriteKeepsPlainCallback(cfg, c, u, r, k);
    }
  }

  lemma WriteKeepsCallCallback(cfg: Config, c: Caches, u: Update, r: Record, k: Kind)
    requires k == CallState || k == CallStateEx || k == CCallState
    requires !WritesKind(u, k, r.slot)
    ensures ReplayCallback(cfg, Written(c, u), r, k) == ReplayCallback(cfg, c, r, k)
  {
  }

  lemma WriteKeepsSimCallback(cfg: Config, c: Caches, u: Update, r: Record, k: Kind)
    requires k == SimState || k == DataConnection || k == DataFlow
    requires !WritesKind(u, k, r.slot)
    ensures ReplayCallback(cfg, Written(c, u), r, k) == ReplayCallback(cfg, c, r, k)
  {
  }

  lemma WriteKeepsPlainCallback(cfg: Config, c: Caches, u: Update, r: Record, k: Kind)
    requires k == NetworkState || k == CellInfo || k == SignalStrengths || k == CfuIndicator || k == VoiceMail
          || k == IccAccount || k == SimActive
    requires !WritesKind(u, k, r.slot)
    ensures ReplayCallback(cfg, Written(c, u), r, k) == ReplayCallback(cfg, c, r, k)
  {
  }

  lemma ReadKeepsCallback(cfg: Config, c: Caches, r0: Record, r: Record, k: Kind)
    requires k != VoIPCall
    ensures ReplayCallback(cfg, Read(cfg, c, r0), r, k) == ReplayCallback(cfg, c, r, k)
  {
    var c1 := ReadRadio(cfg, c, r0);
    var c2 := ReadSimAndConnection(cfg, c1, r0);
    var c3 := ReadIndicators(cfg, c2, r0);
    RadioReadKeepsCallback(cfg, c, r0, r, k);
    SimReadKeepsCallback(cfg, c1, r0, r, k);
    IndicatorReadKeepsCallback(cfg, c2, r0, r, k);
    ExReadKeepsCallback(cfg, c3, r0, r, k);
  }

  lemma RadioReadKeepsCallback(cfg: Config, c: Caches, r0: Record, r: Record, k: Kind)
    requires k != VoIPCall
    ensures ReplayCallback(cfg, ReadRadio(cfg, c, r0), r, k) == ReplayCallback(cfg, c, r, k)
  {
  }

  lemma SimReadKeepsCallback(cfg: Config, c: Caches, r0: Record, r: Record, k: Kind)
    requires k != VoIPCall
    ensures ReplayCallback(cfg, ReadSimAndConnection(cfg, c, r0), r, k) == ReplayCallback(cfg, c, r, k)
  {
  }

  lemma IndicatorReadKeepsCallback(cfg: Config, c: Caches, r0: Record, r: Record, k: Kind)
    requires k != VoIPCall
    ensures ReplayCallback(cfg, ReadIndicators(cfg, c, r0), r, k) == ReplayCallback(cfg, c, r, k)
  {
  }

  lemma ExReadKeepsCallback(cfg: Config, c: Caches, r0: Record, r: Record, k: Kind)
    requires k != VoIPCall
    ensures ReplayCallback(cfg, ReadEx(cfg, c, r0), r, k) == ReplayCallback(cfg, c, r, k)
  {
  }

  ghost predicate NoWriteSince(issued: seq<Update>, from: nat, k: Kind, slot: int) {
    forall t :: from <= t < |issued| ==> !WritesKind(issued[t], k, slot)
  }

  /** If nothing wrote the kind's caches since the record's latest replay, that replay showed what
      the caches hold now. */
  ghost predicate ShownAt(cfg: Config, s: State, i: nat, k: Kind)
    requires i < |s.table|
  {
    var e := s.table[i];
    k != VoIPCall && e.asOf.Some? && Replays(cfg, e.rec, k) && NoWriteSince(s.issued, e.asOf.value, k, e.rec.slot) ==>
      Sent(e.rec, ReplayCallback(cfg, s.caches, e.rec, k)) in e.shown
  }

  ghost predicate Shown(cfg: Config, s: State) {
    forall i: nat, k: Kind :: i < |s.table| ==> ShownAt(cfg, s, i, k)
  }

  lemma ShownKeptByWrite(cfg: Config, s: State, caller: Caller, u: Update)
    requires Shown(cfg, s) && Ordered(s)
    ensures Shown(cfg, DoWrite(cfg, s, caller, u))
  {
    var s' := DoWrite(cfg, s, caller, u);
    forall i: nat, k: Kind | i < |s'.table|
      ensures ShownAt(cfg, s', i, k)
    {
      assert ShownAt(cfg, s, i, k);
      ShownAfterWrite(cfg, s, caller, u, i, k);
    }
  }

  lemma ShownAfterWrite(cfg: Config, s: State, caller: Caller, u: Update, i: nat, k: Kind)
    requires i < |s.table| && ShownAt(cfg, s, i, k) && Ordered(s)
    ensures ShownAt(cfg, DoWrite(cfg, s, caller, u), i, k)
  {
    var s' := DoWrite(cfg, s, caller, u);
    var e := s.table[i];
    if s'.issued != s.issued && k != VoIPCall && e.asOf.Some? && NoWriteSince(s'.issued, e.asOf.value, k, e.rec.slot) {
      assert s'.issued[|s.issued|] == u && !WritesKind(u, k, e.rec.slot);
      assert forall t :: 0 <= t < |s.issued| ==> s'.issued[t] == s.issued[t];
      assert NoWriteSince(s.issued, e.asOf.value, k, e.rec.slot);
      WriteKeepsCallback(cfg, s.caches, u, e.rec, k);
    }
  }

  lemma ShownKeptByRegister(cfg: Config, s: State, caller: Caller, r: Record, notify: bool)
    requires Shown(cfg, s) && Ordered(s)
    ensures Shown(cfg, DoRegister(cfg, s, caller, r, notify))
  {
    var s' := DoRegister(cfg, s, caller, r, notify);
    forall i: nat, k: Kind | i < |s'.table|
      ensures ShownAt(cfg, s', i, k)
    {
      if i < |s.table| {
        assert ShownAt(cfg, s, i, k);
      }
      ShownAfterRegister(cfg, s, caller, r, notify, i, k);
    }
  }

  lemma ShownAfterRegister(cfg: Config, s: State, caller: Caller, r: Record, notify: bool, i: nat, k: Kind)
    requires i < |DoRegister(cfg, s, caller, r, notify).table|
    requires i < |s.table| ==> ShownAt(cfg, s, i, k)
    ensures ShownAt(cfg, DoRegister(cfg, s, caller, r, notify), i, k)
  {
    var n := IndexOf(Recs(s.table), KeyOf(r));
    var e := Pushed(s, r)[n];
    if k != VoIPCall {
      if i < |s.table| {
        ReadKeepsCallback(cfg, s.caches, e.rec, s.table[i].rec, k);
      }
      ReadKeepsCallback(cfg, s.caches, e.rec, e.rec, k);
      if Replays(cfg, e.rec, k) {
        var x := Sent(e.rec, ReplayCallback(cfg, s.caches, e.rec, k));
        assert IsReplayOf(cfg, s.caches, e.rec, k, x);
        ReplayMembers(cfg, s.caches, e.rec, x);
      }
    }
  }

  lemma ShownKept(cfg: Config, s: State, a: Action)
    requires Shown(cfg, s) && Ordered(s)
    ensures Shown(cfg, Step(cfg, s, a))
  {
    match a {
      case Write(caller, u) => ShownKeptByWrite(cfg, s, caller, u);
      case Register(caller, r, notify) => ShownKeptByRegister(cfg, s, caller, r, notify);
      case Unregister(caller, key) => ShownKeptByUnregister(cfg, s, caller, key);
      case _ => ShownKeptByFanOut(cfg, s, a);
    }
  }

  lemma ShownKeptByFanOut(cfg: Config, s: State, a: Action)
    requires Shown(cfg, s) && (a.Begin? || a.Visit? || a.Finish?)
    ensures Shown(cfg, Step(cfg, s, a))
  {
    var s' := Step(cfg, s, a);
    assert s'.table == s.table && s'.caches == s.caches && s'.issued == s.issued;
    forall i: nat, k: Kind | i < |s'.table|
      ensures ShownAt(cfg, s', i, k)
    {
      assert ShownAt(cfg, s, i, k);
    }
  }

  lemma ShownKeptByUnregister(cfg: Config, s: State, caller: Caller, key: Key)
    requires Shown(cfg, s)
    ensures Shown(cfg, DoUnregister(s, caller, key))
  {
    var s' := DoUnregister(s, caller, key);
    var n := IndexOf(Recs(s.table), key);
    forall i: nat, k: Kind | i < |s'.table|
      ensures ShownAt(cfg, s', i, k)
    {
      var before := if |s'.table| == |s.table| || i < n then i else i + 1;
      assert s'.table[i] == s.table[before];
      assert ShownAt(cfg, s, before, k);
    }
  }

  lemma {:induction false} ShownAlways(cfg: Config, actions: seq<Action>)
    ensures Shown(cfg, Run(cfg, actions))
  {
    if actions != [] {
      ShownAlways(cfg, actions[..|actions| - 1]);
      InvAlways(cfg, actions[..|actions| - 1]);
      ShownKept(cfg, Run(cfg, actions[..|actions| - 1]), actions[|actions| - 1]);
    }
  }

  /** The ticket of the last update that wrote the caches of a kind for a slot. */
  function LastWriter(issued: seq<Update>, k: Kind, slot: int): Option<nat> {
    if issued == [] then None
    else if WritesKind(issued[|issued| - 1], k, slot) then Some(|issued| - 1)
    else LastWriter(issued[..|issued| - 1], k, slot)
  }

  lemma {:induction false} LastWriterIs(issued: seq<Update>, k: Kind, slot: int)
    ensures match LastWriter(issued, k, slot)
            case None => forall t :: 0 <= t < |issued| ==> !WritesKind(issued[t], k, slot)
            case Some(t) =>
              && t < |issued| && WritesKind(issued[t], k, slot)
              && (forall t' :: t < t' < |issued| ==> !WritesKind(issued[t'], k, slot))
  {
    if issued != [] {
      var front := issued[..|issued| - 1];
      LastWriterIs(front, k, slot);
      assert forall t :: 0 <= t < |front| ==> front[t] == issued[t];
    }
  }

  /** A cache map belongs to the updates of one kind only. */
  lemma SameKindSameField(u: Update, w: Update, k: Kind, slot: int, f: Field)
    ensures WritesKind(w, k, slot) && StoredBy(w, f).Some? && WritesCell(u, f, slot) ==> WritesKind(u, k, slot)
  {
  }
}
