/** The record table over whole runs, the serial fan-out that one update makes when nothing
    interleaves, and what an interleaving can do to a call-state callback. */
module SerialRuns {
  import opened Kinds
  import opened Records
  import opened Updates
  import opened CacheHistory
  import opened Interleaving
  import opened CacheRuns
  import opened Deliveries

  // ---------------------------------------------------------------- the table

  lemma RecsOfRegister(cfg: Config, s: State, caller: Caller, r: Record, notify: bool)
    ensures Recs(DoRegister(cfg, s, caller, r, notify).table) == Recs(s.table)
         || Recs(DoRegister(cfg, s, caller, r, notify).table) == Added(Recs(s.table), r)
  {
    var n := IndexOf(Recs(s.table), KeyOf(r));
    assert Recs(Pushed(s, r)) == Added(Recs(s.table), r);
    if notify {
      var p := Pushed(s, r);
      var e := p[n];
      assert forall x: Entry :: x.rec == e.rec ==> Recs(p[n := x]) == Recs(p);
    }
  }

  lemma RecsOfUnregister(s: State, caller: Caller, key: Key)
    ensures Recs(DoUnregister(s, caller, key).table) == Recs(s.table)
         || Recs(DoUnregister(s, caller, key).table) == Erased(Recs(s.table), key)
  {
    var n := IndexOf(Recs(s.table), key);
    if n < |s.table| {
      assert Recs(s.table[..n] + s.table[n + 1..]) == Recs(s.table)[..n] + Recs(s.table)[n + 1..];
    }
  }

  lemma StepKeepsKeysUnique(cfg: Config, s: State, a: Action)
    requires NoDuplicates(Recs(s.table))
    ensures NoDuplicates(Recs(Step(cfg, s, a).table))
  {
    if a.Register? {
      RecsOfRegister(cfg, s, a.caller, a.r, a.notify);
      TableKeepsKeysUnique(Recs(s.table), a.r, KeyOf(a.r));
    } else if a.Unregister? {
      RecsOfUnregister(s, a.caller, a.key);
      TableKeepsKeysUnique(Recs(s.table), Record(0, a.key.mask, 0, 0, 0, "", "", None), a.key);
    } else {
      TableUntouched(cfg, s, a);
    }
  }

  lemma TableUntouched(cfg: Config, s: State, a: Action)
    requires !a.Register? && !a.Unregister?
    ensures Step(cfg, s, a).table == s.table
  {
  }

  lemma {:induction false} KeysUniqueInRuns(cfg: Config, actions: seq<Action>)
    ensures NoDuplicates(Recs(Run(cfg, actions).table))
  {
    if actions != [] {
      KeysUniqueInRuns(cfg, actions[..|actions| - 1]);
      StepKeepsKeysUnique(cfg, Run(cfg, actions[..|actions| - 1]), actions[|actions| - 1]);
    }
  }

  /** In every reachable state no two records share slot, mask, token and pid, and the table is in
      the order in which the records were first registered. */
  lemma TableAlwaysUniqueAndOrdered(cfg: Config, s: State)
    requires Reachable(cfg, s)
    ensures NoDuplicates(Recs(s.table))
    ensures forall i, j :: 0 <= i < j < |s.table| ==> s.table[i].id < s.table[j].id
  {
    var actions :| s == Run(cfg, actions);
    InvAlways(cfg, actions);
    KeysUniqueInRuns(cfg, actions);
  }

  // ---------------------------------------------------------------- fan-outs only read

  lemma {:induction false} WrittenCellHasLastWrite(writes: seq<Update>, t: nat, f: Field)
    requires t < |writes| && StoredBy(writes[t], f).Some?
    ensures LastWrite(writes, f, writes[t].Target()).Some?
  {
    var n := |writes| - 1;
    if t < n && !WritesCell(writes[n], f, writes[t].Target()) {
      assert writes[..n][t] == writes[t];
      WrittenCellHasLastWrite(writes[..n], t, f);
    }
  }

  /** The fan-out of a call-state update reads the number cache with `operator[]` under the shared
      lock. The key is always there, so that read never inserts. */
  lemma FanOutNeverInserts(cfg: Config, s: State, t: nat)
    requires Reachable(cfg, s) && t < |s.issued| && s.issued[t].SetCallStateForSlot?
    ensures s.issued[t].slot in s.caches.number
  {
    var actions :| s == Run(cfg, actions);
    CachesAreHistory(cfg, actions);
    WrittenCellHasLastWrite(s.issued, t, FNumber);
    var slot := s.issued[t].Target();
    assert Cell(s.caches, FNumber, slot) == Expected(cfg, s.issued, s.replays, FNumber, slot);
  }

  // ---------------------------------------------------------------- one update alone

  /** The observer calls in a log of fan-outs. */
  function Fanned(log: seq<Event>): seq<Sent> {
    if log == [] then []
    else
      var e := log[|log| - 1];
      if e.Delivered? then Fanned(log[..|log| - 1]) + [Sent(e.to, e.cb)] else Fanned(log[..|log| - 1])
  }

  function VisitMany(cfg: Config, s: State, t: nat, n: nat): State {
    if n == 0 then s else DoVisit(cfg, VisitMany(cfg, s, t, n - 1), t)
  }

  lemma FannedSnoc(log: seq<Event>, e: Event)
    ensures Fanned(log + [e]) == if e.Delivered? then Fanned(log) + [Sent(e.to, e.cb)] else Fanned(log)
  {
    assert (log + [e])[..|log|] == log;
  }

  lemma VisitOne(cfg: Config, s: State, t: nat, n: nat, hit: bool)
    requires t < |s.issued| && s.reading == map[t := Cursor(n, hit)] && n < |s.table|
    ensures var cb := CallbackFor(cfg, s.issued[t], s.table[n].rec, Cached(s, s.issued[t]));
            var v := DoVisit(cfg, s, t);
            && v == s.(reading := map[t := Cursor(n + 1, hit || cb.Some?)], log := v.log)
            && v.log == (if cb.None? then s.log
                         else s.log + [Delivered(s.table[n].id, s.table[n].rec, t, cb.value, |s.issued|)])
  {
    assert s.reading[t] == Cursor(n, hit);
    assert forall c: Cursor :: s.reading[t := c] == map[t := c];
  }

  /** `v` is `s` after the fan-out of a ticket visited the first n records. */
  predicate FannedTo(cfg: Config, s: State, v: State, t: nat, n: nat)
    requires t < |s.issued| && n <= |s.table|
  {
    var out := FanOutTo(cfg, s.issued[t], Recs(s.table), Cached(s, s.issued[t]), n);
    && v == s.(reading := map[t := Cursor(n, out != [])], log := v.log)
    && Fanned(v.log) == Fanned(s.log) + out
  }

  lemma FanStep(cfg: Config, s: State, v: State, t: nat, n: nat)
    requires t < |s.issued| && n < |s.table| && FannedTo(cfg, s, v, t, n)
    ensures FannedTo(cfg, s, DoVisit(cfg, v, t), t, n + 1)
  {
    var u, r, cached := s.issued[t], s.table[n].rec, Cached(s, s.issued[t]);
    var out := FanOutTo(cfg, u, Recs(s.table), cached, n);
    var next := FanOutTo(cfg, u, Recs(s.table), cached, n + 1);
    VisitOne(cfg, v, t, n, out != []);
    var cb := CallbackFor(cfg, u, r, cached);
    assert Recs(s.table)[n] == r;
    assert next == AppendTo(out, r, cb);
    if cb.Some? {
      FannedSnoc(v.log, Delivered(s.table[n].id, r, t, cb.value, |s.issued|));
      assert next == out + [Sent(r, cb.value)];
      assert Fanned(s.log) + next == (Fanned(s.log) + out) + [Sent(r, cb.value)];
    }
  }

  lemma {:induction false} VisitsFanOut(cfg: Config, s: State, t: nat, n: nat)
    requires t < |s.issued| && s.reading == map[t := Cursor(0, false)] && n <= |s.table|
    ensures FannedTo(cfg, s, VisitMany(cfg, s, t, n), t, n)
  {
    if n > 0 {
      VisitsFanOut(cfg, s, t, n - 1);
      FanStep(cfg, s, VisitMany(cfg, s, t, n - 1), t, n - 1);
    }
  }

  /** An update that runs alone, lock phase by lock phase, writes the caches, sends exactly the
      fan-out over the whole table and returns Success if and only if something was sent: what
      the service's entry points do in one call. */
  lemma SerialUpdate(cfg: Config, s: State, caller: Caller, u: Update)
    requires Tickets(s) && s.reading == map[] && Admit(cfg, caller, u) == Success
    ensures var t := |s.issued|;
            var begun := DoBegin(DoWrite(cfg, s, caller, u), t);
            var done := DoFinish(VisitMany(cfg, begun, t, |s.table|), t);
            var out := FanOut(cfg, u, Recs(s.table), At(Written(s.caches, u).number, u.Target(), ""));
            && done.caches == Written(s.caches, u) && done.table == s.table && done.reading == map[]
            && Fanned(done.log) == Fanned(s.log) + out
            && done.codes == s.codes + [CodeOf(out)]
  {
    var t := |s.issued|;
    var written := DoWrite(cfg, s, caller, u);
    var begun := DoBegin(written, t);
    assert t in written.pending && begun.reading == map[t := Cursor(0, false)];
    VisitsFanOut(cfg, begun, t, |s.table|);
    var visited := VisitMany(cfg, begun, t, |s.table|);
    assert visited.reading - {t} == map[];
  }

  /** A registration that gets the lock does to the record table, the caches and the observer what
      `RegisterStateChange` does when it runs alone. */
  lemma SerialRegister(cfg: Config, s: State, caller: Caller, r: Record, notify: bool) returns (id: nat)
    requires s.reading == map[] && Gate(caller, r.mask) == Success && AcceptedSlot(cfg, caller, r.slot)
    ensures var t, e := Step(cfg, s, Register(caller, r, notify)), Effective(Recs(s.table), r);
            && Recs(t.table) == Added(Recs(s.table), r) && t.codes == s.codes + [Success]
            && t.caches == (if notify then Read(cfg, s.caches, e) else s.caches)
            && t.log == s.log + (if notify then [ReplayedTo(id, e, Replayed(cfg, s.caches, e, []), |s.issued|)] else [])
            && t.issued == s.issued && t.pending == s.pending && t.reading == s.reading
  {
    var n := IndexOf(Recs(s.table), KeyOf(r));
    var p := Pushed(s, r);
    var e := p[n];
    id := e.id;
    assert Recs(p) == Added(Recs(s.table), r) && e.rec == Effective(Recs(s.table), r);
    assert forall x: Entry :: x.rec == e.rec ==> Recs(p[n := x]) == Recs(p);
  }

  /** The same for an unregistration and `UnregisterStateChange`. */
  lemma SerialUnregister(cfg: Config, s: State, caller: Caller, key: Key)
    requires s.reading == map[] && Gate(caller, key.mask) == Success
    ensures var t := Step(cfg, s, Unregister(caller, key));
            && Recs(t.table) == Erased(Recs(s.table), key)
            && t == s.(table := t.table,
                       codes := s.codes + [if Present(Recs(s.table), key) then Success else UnregisterDataNotExist])
  {
    RecsOfUnregister(s, caller, key);
    var n := IndexOf(Recs(s.table), key);
    assert Present(Recs(s.table), key) <==> n < |s.table|;
    if n < |s.table| {
      assert Recs(s.table[..n] + s.table[n + 1..]) == Recs(s.table)[..n] + Recs(s.table)[n + 1..];
    }
  }

  // ---------------------------------------------------------------- a torn call-state callback

  lemma RunSnoc(cfg: Config, actions: seq<Action>, a: Action)
    ensures Run(cfg, actions + [a]) == Step(cfg, Run(cfg, actions), a)
  {
    assert (actions + [a])[..|actions|] == actions;
  }

  /** One record registered, without replay, in a service that has seen nothing. */
  lemma OneRegistered(cfg: Config, caller: Caller, r: Record)
    requires Gate(caller, r.mask) == Success && AcceptedSlot(cfg, caller, r.slot)
    ensures DoRegister(cfg, Init(cfg), caller, r, false)
            == Init(cfg).(table := [Entry(0, 0, None, [], r)], nextId := 1, codes := [Success])
  {
    assert Init(cfg).codes + [Success] == [Success];
    assert Pushed(Init(cfg), r) == [Entry(0, 0, None, [], r)];
  }

  /** The state after two updates of slot 0, neither fanned out yet. */
  lemma TwoWrites(cfg: Config, s: State, caller: Caller, first: string, second: string)
    requires cfg.slotSize > 0 && SetTelephonyState in caller.granted
    requires s.issued == [] && s.pending == {} && s.reading == map[]
    ensures var s1 := DoWrite(cfg, s, caller, SetCallStateForSlot(0, 1, first));
            var s2 := DoWrite(cfg, s1, caller, SetCallStateForSlot(0, 2, second));
            && s2.table == s.table && s2.log == s.log && s2.reading == map[] && 0 in s2.pending
            && s2.issued == [SetCallStateForSlot(0, 1, first), SetCallStateForSlot(0, 2, second)]
            && 0 in s2.caches.number && s2.caches.number[0] == second
  {
  }

  function BothWrite(caller: Caller, r: Record, first: string, second: string): seq<Action> {
    [Register(caller, r, false)] + [Write(caller, SetCallStateForSlot(0, 1, first))]
    + [Write(caller, SetCallStateForSlot(0, 2, second))]
  }

  /** A run in which two updates of one slot interleave so that the first one's fan-out shows its own
      state with the second one's number. */
  function TornActions(caller: Caller, r: Record, first: string, second: string): seq<Action> {
    BothWrite(caller, r, first, second) + [Begin(0)] + [Visit(0)]
  }

  lemma BothWriteRun(cfg: Config, caller: Caller, r: Record, first: string, second: string)
    ensures var s0 := DoRegister(cfg, Init(cfg), caller, r, false);
            var s1 := DoWrite(cfg, s0, caller, SetCallStateForSlot(0, 1, first));
            Run(cfg, BothWrite(caller, r, first, second)) == DoWrite(cfg, s1, caller, SetCallStateForSlot(0, 2, second))
  {
    var none: seq<Action>, register := [], [Register(caller, r, false)];
    assert none + register == register;
    RunSnoc(cfg, none, register[0]);
    RunSnoc(cfg, register, Write(caller, SetCallStateForSlot(0, 1, first)));
    RunSnoc(cfg, register + [Write(caller, SetCallStateForSlot(0, 1, first))],
            Write(caller, SetCallStateForSlot(0, 2, second)));
  }

  lemma RunTwoMore(cfg: Config, actions: seq<Action>, a: Action, b: Action)
    ensures Run(cfg, actions + [a] + [b]) == Step(cfg, Step(cfg, Run(cfg, actions), a), b)
  {
    RunSnoc(cfg, actions, a);
    RunSnoc(cfg, actions + [a], b);
  }

  lemma TornRun(cfg: Config, caller: Caller, r: Record, first: string, second: string)
    ensures Run(cfg, TornActions(caller, r, first, second))
            == DoVisit(cfg, DoBegin(Run(cfg, BothWrite(caller, r, first, second)), 0), 0)
  {
    RunTwoMore(cfg, BothWrite(caller, r, first, second), Begin(0), Visit(0));
  }

  /** The first update's visit after both wrote. */
  lemma VisitAfterTwoWrites(cfg: Config, s: State, caller: Caller, e: Entry, first: string, second: string)
    requires cfg.slotSize > 0 && SetTelephonyState in caller.granted
    requires s.issued == [] && s.pending == {} && s.reading == map[] && s.log == [] && s.table == [e]
    requires e.rec.slot == 0 && HasBit(e.rec.mask, CallState) && e.rec.observer.Some? && e.rec.token in cfg.readCallLog
    ensures var s1 := DoWrite(cfg, s, caller, SetCallStateForSlot(0, 1, first));
            var s2 := DoWrite(cfg, s1, caller, SetCallStateForSlot(0, 2, second));
            DoVisit(cfg, DoBegin(s2, 0), 0).log == [Delivered(e.id, e.rec, 0, OnCallState(0, 1, second), 2)]
  {
    TwoWrites(cfg, s, caller, first, second);
    var s1 := DoWrite(cfg, s, caller, SetCallStateForSlot(0, 1, first));
    var s3 := DoBegin(DoWrite(cfg, s1, caller, SetCallStateForSlot(0, 2, second)), 0);
    VisitOne(cfg, s3, 0, 0, false);
  }

  /** So one update's fan-out can show its own state with a later update's number. */
  lemma TornCallState(cfg: Config, caller: Caller, r: Record, first: string, second: string)
    requires cfg.slotSize > 0 && SetTelephonyState in caller.granted
    requires Gate(caller, r.mask) == Success && AcceptedSlot(cfg, caller, 0)
    requires r.slot == 0 && HasBit(r.mask, CallState) && r.observer.Some? && r.token in cfg.readCallLog
    ensures Run(cfg, TornActions(caller, r, first, second)).log == [Delivered(0, r, 0, OnCallState(0, 1, second), 2)]
  {
    TornRun(cfg, caller, r, first, second);
    BothWriteRun(cfg, caller, r, first, second);
    OneRegistered(cfg, caller, r);
    var s0 := DoRegister(cfg, Init(cfg), caller, r, false);
    VisitAfterTwoWrites(cfg, s0, caller, Entry(0, 0, None, [], r), first, second);
  }
}
