/** What each fan-out callback says, update by update, over all runs: an observer is called with the
    very information of an update it observes, and every registered observer of it is called. */
module FanOutRuns {
  import opened Kinds
  import opened Records
  import opened Updates
  import opened CacheHistory
  import opened Interleaving
  import opened Deliveries
  import opened LogRuns

  predicate OfCallFamily(u: Update, slot: int, state: int) {
    || (u.SetCallState? && slot == -1 && u.state == state)
    || (u.SetCallStateForSlot? && slot == u.slot && u.state == state)
  }

  /** An update calls for this callback to this record; `number` is the number it shows to those who
      may read the call log. */
  predicate Due(cfg: Config, u: Update, r: Record, cb: Callback, number: string) {
    && r.observer.Some? && cb.Kind() in r.mask.kinds
    && match cb
       case OnDataConnection(slot, d, n) => u == SetDataConnection(slot, d, n) && r.slot in {slot, 999}
       case OnDataFlow(slot, f) => u == SetDataFlow(slot, f) && r.slot in {slot, 999}
       case OnSimState(slot, t, st, rs) => u == SetSimState(slot, t, st, rs) && r.slot == slot
       case OnSignalInfo(slot, v) => u == SetSignalInfo(slot, v) && r.slot == slot
       case OnCellInfo(slot, v) => u == SetCellInfo(slot, v) && r.slot == slot
       case OnNetworkState(slot, n) => n.Some? && u == SetNetworkState(slot, n) && r.slot == slot
       case OnCfuIndicator(slot, b) => u == SetCfuIndicator(slot, b) && r.slot == slot
       case OnIccAccount => u == SetIccAccount
       case OnVoiceMail(slot, b) => u == SetVoiceMail(slot, b) && r.slot == slot
       case OnSimActive(slot, b) => u == SetSimActive(slot, b) && r.slot == slot
       case OnVoIPCall(info) => u == SetVoIPCall(info) && r.token in cfg.manageCall
       case OnCallState(slot, st, num) =>
         && OfCallFamily(u, slot, st) && r.slot == slot
         && num == if r.token in cfg.readCallLog then number else ""
       case OnCallStateEx(slot, st) =>
         OfCallFamily(u, slot, st) && r.slot == slot && CallState !in r.mask.kinds
       case OnCCallState(slot, st, num) =>
         && OfCallFamily(u, slot, st) && r.slot == slot && num == u.number && r.token in cfg.manageCall
         && CallState !in r.mask.kinds && CallStateEx !in r.mask.kinds
  }

  /** An update is for a record when it calls for some callback to it. */
  ghost predicate IsFor(cfg: Config, u: Update, r: Record) {
    exists cb, number :: Due(cfg, u, r, cb, number)
  }

  /** The number a fan-out of the update shows: the all-slots update its own, a slot's update the one
      cached for the slot. */
  function NumberShown(u: Update, cached: string): string {
    if u.SetCallState? then u.number else cached
  }

  lemma DueCall(cfg: Config, u: Update, r: Record, cached: string, cb: Callback)
    requires u.SetCallState? || u.SetCallStateForSlot?
    ensures CallbackFor(cfg, u, r, cached) == Some(cb) <==> Due(cfg, u, r, cb, NumberShown(u, cached))
  {
  }

  lemma DuePlain(cfg: Config, u: Update, r: Record, cached: string, cb: Callback)
    requires !u.SetCallState? && !u.SetCallStateForSlot?
    ensures CallbackFor(cfg, u, r, cached) == Some(cb) <==> Due(cfg, u, r, cb, NumberShown(u, cached))
  {
  }

  lemma DueIs(cfg: Config, u: Update, r: Record, cached: string, cb: Callback)
    ensures CallbackFor(cfg, u, r, cached) == Some(cb) <==> Due(cfg, u, r, cb, NumberShown(u, cached))
  {
    if u.SetCallState? || u.SetCallStateForSlot? {
      DueCall(cfg, u, r, cached, cb);
    } else {
      DuePlain(cfg, u, r, cached, cb);
    }
  }

  /** Whether a callback is due does not hang on the number it would show. */
  lemma IsForSelected(cfg: Config, u: Update, r: Record)
    ensures IsFor(cfg, u, r) <==> Selected(cfg, u, r)
  {
    if cb, number :| Due(cfg, u, r, cb, number) {
      var shown := if !cb.OnCallState? then cb
                   else OnCallState(cb.slot, cb.state, if r.token in cfg.readCallLog then NumberShown(u, "") else "");
      DueIs(cfg, u, r, "", shown);
    }
    if Selected(cfg, u, r) {
      DueIs(cfg, u, r, "", CallbackFor(cfg, u, r, "").value);
    }
  }

  /** In every interleaving each fan-out callback is one its own update calls for, with the update's
      own values; a slot's call-state update shows the number its slot has at the visit, and the
      restricted event its own number whatever interleaves. */
  lemma EveryCallbackDue(cfg: Config, s: State, j: nat)
    requires Reachable(cfg, s) && j < |s.log| && s.log[j].Delivered?
    ensures var e := s.log[j];
            && e.ticket < e.at <= |s.issued|
            && var u := s.issued[e.ticket];
               Due(cfg, u, e.to, e.cb, NumberShown(u, NumberAfter(s.issued[..e.at], u.Target())))
  {
    ObserversSeeSoundCallbacks(cfg, s);
    var e := s.log[j];
    assert EventSound(cfg, s.issued, e);
    var u := s.issued[e.ticket];
    DueIs(cfg, u, e.to, NumberAfter(s.issued[..e.at], u.Target()), e.cb);
  }

  /** In every interleaving each live record an update is for gets it exactly once or is still held by
      the fan-out, if it was registered when the update was issued; and a record it is not for never
      gets it. */
  lemma EveryDueCallbackArrives(cfg: Config, s: State, i: nat, t: nat)
    requires Reachable(cfg, s) && i < |s.table| && t < |s.issued|
    ensures var e, n := s.table[i], Count(s.log, s.table[i].id, t);
            && (IsFor(cfg, s.issued[t], e.rec) && e.born <= t ==> n == if Holds(s, i, t) then 0 else 1)
            && (!IsFor(cfg, s.issued[t], e.rec) ==> n == 0)
  {
    NoMissedUpdate(cfg, s, i, t);
    IsForSelected(cfg, s.issued[t], s.table[i].rec);
  }

  /** For the VoIP event, which has neither cache nor replay: every callback of the update carries its
      information to an observer of the event whose token may manage calls, and every such record
      registered in time gets it once or is still held. */
  lemma VoIPCallsArrive(cfg: Config, s: State, t: nat, info: nat)
    requires Reachable(cfg, s) && t < |s.issued| && s.issued[t] == SetVoIPCall(info)
    ensures forall j :: 0 <= j < |s.log| && s.log[j].Delivered? && s.log[j].ticket == t ==>
              var to := s.log[j].to;
              && s.log[j].cb == OnVoIPCall(info)
              && VoIPCall in to.mask.kinds && to.observer.Some? && to.token in cfg.manageCall
    ensures forall i: nat :: i < |s.table| && s.table[i].born <= t ==>
              var r := s.table[i].rec;
              VoIPCall in r.mask.kinds && r.observer.Some? && r.token in cfg.manageCall ==>
                Count(s.log, s.table[i].id, t) == if Holds(s, i, t) then 0 else 1
  {
    forall j | 0 <= j < |s.log| && s.log[j].Delivered? && s.log[j].ticket == t
      ensures var to := s.log[j].to;
              && s.log[j].cb == OnVoIPCall(info)
              && VoIPCall in to.mask.kinds && to.observer.Some? && to.token in cfg.manageCall
    {
      EveryCallbackDue(cfg, s, j);
    }
    forall i: nat | i < |s.table| && s.table[i].born <= t && VoIPCall in s.table[i].rec.mask.kinds
      && s.table[i].rec.observer.Some? && s.table[i].rec.token in cfg.manageCall
      ensures Count(s.log, s.table[i].id, t) == if Holds(s, i, t) then 0 else 1
    {
      assert Due(cfg, s.issued[t], s.table[i].rec, OnVoIPCall(info), "");
      EveryDueCallbackArrives(cfg, s, i, t);
    }
  }
}
