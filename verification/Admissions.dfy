/** Who gets in: every stored record, and so every observer call, goes back to a registration whose
    caller held what each of its event types needs, every accepted update to a caller who may make
    it; and a caller who holds what is needed is never turned away. */
module Admissions {
  import opened Kinds
  import opened Records
  import opened Updates
  import opened Interleaving
  import opened CacheRuns
  import opened LogRuns
  import opened ReplayRuns
  import opened FanOutRuns

  /** What an event type needs of the process that observes it. */
  predicate Entitled(caller: Caller, k: Kind) {
    match k
    case NetworkState => GetNetworkInfo in caller.granted
    case CellInfo => caller.systemApp && CellLocation in caller.granted
    case CfuIndicator => caller.systemApp
    case VoiceMail => caller.systemApp
    case CCallState => ManageCallForDevices in caller.granted
    case VoIPCall => ManageCallForDevices in caller.granted
    case SimActive => SetTelephonyState in caller.granted
    case _ => true
  }

  predicate EntitledToAll(caller: Caller, mask: Mask) {
    forall k :: k in mask.kinds ==> Entitled(caller, k)
  }

  /** The event types for system applications only. */
  predicate ForSystemApps(k: Kind) {
    k in {CellInfo, CfuIndicator, VoiceMail}
  }

  /** The slots a record can have; one above the last slot only for native callers and system
      applications. */
  predicate Storable(cfg: Config, caller: Caller, slot: int) {
    && (slot == 999 || -1 <= slot <= cfg.maxSlotCount + 1)
    && (slot < cfg.maxSlotCount || caller.nativeOrShell || caller.systemAppToken)
  }

  lemma GateIs(caller: Caller, mask: Mask)
    ensures Gate(caller, mask) == Success <==> EntitledToAll(caller, mask)
    ensures Gate(caller, mask) == IllegalUseOfSystemApi <==>
              !caller.systemApp && exists k :: k in mask.kinds && ForSystemApps(k)
    ensures Gate(caller, mask) in {Success, IllegalUseOfSystemApi, PermissionDenied}
  {
    if EntitledToAll(caller, mask) {
      assert HasBit(mask, NetworkState) ==> Entitled(caller, NetworkState);
      assert HasBit(mask, CellInfo) ==> Entitled(caller, CellInfo);
      assert HasBit(mask, CfuIndicator) ==> Entitled(caller, CfuIndicator);
      assert HasBit(mask, VoiceMail) ==> Entitled(caller, VoiceMail);
      assert HasBit(mask, CCallState) ==> Entitled(caller, CCallState);
      assert HasBit(mask, VoIPCall) ==> Entitled(caller, VoIPCall);
      assert HasBit(mask, SimActive) ==> Entitled(caller, SimActive);
    }
    assert HasBit(mask, CellInfo) ==> ForSystemApps(CellInfo);
    assert HasBit(mask, CfuIndicator) ==> ForSystemApps(CfuIndicator);
    assert HasBit(mask, VoiceMail) ==> ForSystemApps(VoiceMail);
  }

  // ---------------------------------------------------------------- what the service answers

  /** A registration by a caller who lacks something changes nothing but the answer; one by a caller
      who holds everything is answered Success, and stored if the slot allows it. While a fan-out
      holds the lock an admitted registration waits. */
  lemma RegistrationAnswer(cfg: Config, s: State, caller: Caller, r: Record, notify: bool)
    ensures var t := Step(cfg, s, Register(caller, r, notify));
            if !EntitledToAll(caller, r.mask) then
              t == s.(codes := s.codes + [
                if !caller.systemApp && (exists k :: k in r.mask.kinds && ForSystemApps(k)) then IllegalUseOfSystemApi
                else PermissionDenied])
            else if !Storable(cfg, caller, r.slot) then t == s.(codes := s.codes + [Success])
            else if s.reading != map[] then t == s
            else t.codes == s.codes + [Success] && Present(Recs(t.table), KeyOf(r))
  {
    GateIs(caller, r.mask);
    if EntitledToAll(caller, r.mask) && Storable(cfg, caller, r.slot) && s.reading == map[] {
      StoredAfter(cfg, s, caller, r, notify);
    }
  }

  lemma StoredAfter(cfg: Config, s: State, caller: Caller, r: Record, notify: bool)
    requires Gate(caller, r.mask) == Success && AcceptedSlot(cfg, caller, r.slot) && Quiet(s)
    ensures Present(Recs(DoRegister(cfg, s, caller, r, notify).table), KeyOf(r))
  {
    var n := IndexOf(Recs(s.table), KeyOf(r));
    var t := DoRegister(cfg, s, caller, r, notify);
    assert KeyOf(Recs(t.table)[n]) == KeyOf(r);
  }

  /** The same for an unregistration; it answers its own error when there is no such record. */
  lemma UnregistrationAnswer(cfg: Config, s: State, caller: Caller, key: Key)
    ensures var t := Step(cfg, s, Unregister(caller, key));
            if !EntitledToAll(caller, key.mask) then
              t == s.(codes := s.codes + [
                if !caller.systemApp && (exists k :: k in key.mask.kinds && ForSystemApps(k)) then IllegalUseOfSystemApi
                else PermissionDenied])
            else if s.reading != map[] then t == s
            else t.codes == s.codes + [if Present(Recs(s.table), key) then Success else UnregisterDataNotExist]
  {
    GateIs(caller, key.mask);
    assert Present(Recs(s.table), key) <==> IndexOf(Recs(s.table), key) < |s.table|;
  }

  // ---------------------------------------------------------------- updates

  predicate NamesSlot(u: Update) {
    !u.SetCallState? && !u.SetIccAccount? && !u.SetVoIPCall?
  }

  predicate MayUpdate(caller: Caller, u: Update) {
    SetTelephonyState in caller.granted && (u.SetCellInfo? ==> CellLocation in caller.granted)
  }

  /** An update of a slot the device does not have, and then one by a caller who may not make it, is
      refused without effect; any other is accepted, a writing one once no fan-out holds the lock. */
  lemma UpdateAnswer(cfg: Config, s: State, caller: Caller, u: Update)
    ensures var t := Step(cfg, s, Write(caller, u));
            if NamesSlot(u) && !(0 <= u.slot < cfg.slotSize) then t == s.(codes := s.codes + [SlotError])
            else if !MayUpdate(caller, u) then t == s.(codes := s.codes + [PermissionDenied])
            else if s.reading != map[] && !u.SetIccAccount? && !u.SetVoIPCall? then t == s
            else t.codes == s.codes && t.issued == s.issued + [u]
  {
  }

  // ---------------------------------------------------------------- runs

  /** Some registration of the run made this record, by a caller entitled to all its event types. */
  ghost predicate Vouched(cfg: Config, actions: seq<Action>, r: Record) {
    exists k :: 0 <= k < |actions| && VouchedBy(cfg, actions[k], r)
  }

  predicate VouchedBy(cfg: Config, a: Action, r: Record) {
    a.Register? && a.r == r && EntitledToAll(a.caller, r.mask) && Storable(cfg, a.caller, r.slot)
  }

  ghost predicate MayIssue(cfg: Config, actions: seq<Action>, u: Update) {
    exists k :: 0 <= k < |actions| && IssuedBy(cfg, actions[k], u)
  }

  predicate IssuedBy(cfg: Config, a: Action, u: Update) {
    a.Write? && a.u == u && MayUpdate(a.caller, u) && (NamesSlot(u) ==> 0 <= u.slot < cfg.slotSize)
  }

  ghost predicate AllVouched(cfg: Config, actions: seq<Action>, s: State) {
    && (forall i :: 0 <= i < |s.table| ==> Vouched(cfg, actions, s.table[i].rec))
    && (forall j :: 0 <= j < |s.log| ==> Vouched(cfg, actions, s.log[j].to))
    && (forall t :: 0 <= t < |s.issued| ==> MayIssue(cfg, actions, s.issued[t]))
  }

  lemma VouchedLonger(cfg: Config, front: seq<Action>, a: Action, s: State)
    requires AllVouched(cfg, front, s)
    ensures AllVouched(cfg, front + [a], s)
  {
    var actions := front + [a];
    forall r | Vouched(cfg, front, r)
      ensures Vouched(cfg, actions, r)
    {
      var k :| 0 <= k < |front| && VouchedBy(cfg, front[k], r);
      assert VouchedBy(cfg, actions[k], r);
    }
    forall u | MayIssue(cfg, front, u)
      ensures MayIssue(cfg, actions, u)
    {
      var k :| 0 <= k < |front| && IssuedBy(cfg, front[k], u);
      assert IssuedBy(cfg, actions[k], u);
    }
  }

  /** A step adds at most the record it registers, calls only stored observers, and issues at most
      its own update. */
  lemma StepVouched(cfg: Config, front: seq<Action>, a: Action, s: State)
    requires AllVouched(cfg, front + [a], s)
    ensures AllVouched(cfg, front + [a], Step(cfg, s, a))
  {
    assert (front + [a])[|front|] == a;
    if a.Register? {
      RegisterVouched(cfg, front + [a], |front|, s);
    } else if a.Write? {
      WriteVouched(cfg, front + [a], |front|, s);
    } else if a.Unregister? {
      UnregisterVouched(cfg, front + [a], s, a.caller, a.key);
    }
  }

  lemma UnregisterVouched(cfg: Config, actions: seq<Action>, s: State, caller: Caller, key: Key)
    requires AllVouched(cfg, actions, s)
    ensures AllVouched(cfg, actions, DoUnregister(s, caller, key))
  {
    var t, n := DoUnregister(s, caller, key), IndexOf(Recs(s.table), key);
    forall i | 0 <= i < |t.table|
      ensures Vouched(cfg, actions, t.table[i].rec)
    {
      assert t.table[i] == s.table[if |t.table| == |s.table| || i < n then i else i + 1];
    }
  }

  lemma RegisterVouched(cfg: Config, actions: seq<Action>, k: nat, s: State)
    requires AllVouched(cfg, actions, s) && k < |actions| && actions[k].Register?
    ensures AllVouched(cfg, actions, Step(cfg, s, actions[k]))
  {
    var a := actions[k];
    GateIs(a.caller, a.r.mask);
    if Gate(a.caller, a.r.mask) == Success && AcceptedSlot(cfg, a.caller, a.r.slot) && Quiet(s) {
      assert VouchedBy(cfg, a, a.r);
      var p := Pushed(s, a.r);
      forall i | 0 <= i < |p|
        ensures Vouched(cfg, actions, p[i].rec)
      {
        assert i < |s.table| ==> p[i] == s.table[i];
      }
    }
  }

  lemma WriteVouched(cfg: Config, actions: seq<Action>, k: nat, s: State)
    requires AllVouched(cfg, actions, s) && k < |actions| && actions[k].Write?
    ensures AllVouched(cfg, actions, Step(cfg, s, actions[k]))
  {
    var a := actions[k];
    UpdateAnswer(cfg, s, a.caller, a.u);
    assert Step(cfg, s, a).issued != s.issued ==> IssuedBy(cfg, a, a.u);
  }

  lemma {:induction false} VouchedInRuns(cfg: Config, actions: seq<Action>)
    ensures AllVouched(cfg, actions, Run(cfg, actions))
  {
    if actions != [] {
      var front, a := actions[..|actions| - 1], actions[|actions| - 1];
      assert front + [a] == actions;
      VouchedInRuns(cfg, front);
      VouchedLonger(cfg, front, a, Run(cfg, front));
      StepVouched(cfg, front, a, Run(cfg, front));
    }
  }

  /** The callbacks a log event sent. */
  predicate Sends(e: Event, cb: Callback) {
    match e
    case Delivered(_, _, _, x, _) => x == cb
    case ReplayedTo(_, to, calls, _) => Sent(to, cb) in calls
  }

  /** In every run each stored record was registered by a caller entitled to all its event types, for a
      slot it may name; every observer call, fan-out or replay, is of an event type the registration
      of that very record was entitled to; and every accepted update came from a caller who may make
      it, on a slot of the device. */
  lemma EveryoneVouched(cfg: Config, actions: seq<Action>)
    ensures var s := Run(cfg, actions);
            && (forall i :: 0 <= i < |s.table| ==> Vouched(cfg, actions, s.table[i].rec))
            && (forall t :: 0 <= t < |s.issued| ==> MayIssue(cfg, actions, s.issued[t]))
            && (forall j, cb :: 0 <= j < |s.log| && Sends(s.log[j], cb) ==>
                  CallVouched(cfg, actions, s.log[j].to, cb.Kind()))
  {
    var s := Run(cfg, actions);
    VouchedInRuns(cfg, actions);
    forall j, cb | 0 <= j < |s.log| && Sends(s.log[j], cb)
      ensures CallVouched(cfg, actions, s.log[j].to, cb.Kind())
    {
      SentIsObserved(cfg, s, j, cb);
      var k :| 0 <= k < |actions| && VouchedBy(cfg, actions[k], s.log[j].to);
      assert actions[k].Register? && actions[k].r == s.log[j].to && Entitled(actions[k].caller, cb.Kind());
    }
  }

  ghost predicate CallVouched(cfg: Config, actions: seq<Action>, to: Record, k: Kind) {
    exists n :: 0 <= n < |actions| && actions[n].Register? && actions[n].r == to && Entitled(actions[n].caller, k)
  }

  /** An observer is only called for an event type of its record's mask. */
  lemma SentIsObserved(cfg: Config, s: State, j: nat, cb: Callback)
    requires Reachable(cfg, s) && j < |s.log| && Sends(s.log[j], cb)
    ensures cb.Kind() in s.log[j].to.mask.kinds
  {
    var e := s.log[j];
    if e.Delivered? {
      EveryCallbackDue(cfg, s, j);
    } else {
      ObserversSeeSoundCallbacks(cfg, s);
      assert EventSound(cfg, s.issued, e);
      var c, x := WrittenAll(cfg, s.issued[..e.at]), Sent(e.to, cb);
      ReplayMembers(cfg, c, e.to, x);
      var k :| IsReplayOf(cfg, c, e.to, k, x);
      ReplayKind(cfg, c, e.to, k);
    }
  }
}
