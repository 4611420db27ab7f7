/** No update is missed and none is delivered twice, in every interleaving of writes, fan-outs,
    registrations with replay, and unregistrations. */
module Deliveries {
  import opened Records
  import opened Updates
  import opened Interleaving

  /** How often a fan-out of this ticket called the observer of this registration. */
  function Count(log: seq<Event>, id: nat, t: nat): nat {
    if log == [] then 0
    else
      var e := log[|log| - 1];
      Count(log[..|log| - 1], id, t) + (if e.Delivered? && e.id == id && e.ticket == t then 1 else 0)
  }

  lemma CountSnoc(log: seq<Event>, e: Event, id: nat, t: nat)
    ensures Count(log + [e], id, t) ==
            Count(log, id, t) + (if e.Delivered? && e.id == id && e.ticket == t then 1 else 0)
  {
    assert (log + [e])[..|log|] == log;
  }

  lemma {:induction false} CountZero(log: seq<Event>, id: nat, t: nat)
    requires forall j :: 0 <= j < |log| && log[j].Delivered? ==> !(log[j].id == id && log[j].ticket == t)
    ensures Count(log, id, t) == 0
  {
    if log != [] {
      CountZero(log[..|log| - 1], id, t);
    }
  }

  lemma {:induction false} CountPositive(log: seq<Event>, id: nat, t: nat) returns (j: nat)
    requires Count(log, id, t) > 0
    ensures j < |log| && log[j].Delivered? && log[j].id == id && log[j].ticket == t
  {
    j := |log| - 1;
    if !(log[j].Delivered? && log[j].id == id && log[j].ticket == t) {
      j := CountPositive(log[..j], id, t);
    }
  }

  /** The record is one the update notifies. */
  predicate Selected(cfg: Config, u: Update, r: Record) {
    CallbackFor(cfg, u, r, "").Some?
  }

  /** The ticket's fan-out has still to visit index i. */
  predicate Holds(s: State, i: nat, t: nat) {
    t in s.pending || (t in s.reading && s.reading[t].next <= i)
  }

  /** The account of one ticket for one live record: not yet delivered while the fan-out holds
      it, delivered exactly once afterwards if the record was registered when the update was
      issued, and never more than once. */
  predicate AccountedAt(cfg: Config, s: State, i: nat, t: nat)
    requires i < |s.table| && t < |s.issued|
  {
    var n := Count(s.log, s.table[i].id, t);
    && n <= 1
    && (Holds(s, i, t) || !Selected(cfg, s.issued[t], s.table[i].rec) ==> n == 0)
    && (Selected(cfg, s.issued[t], s.table[i].rec) && !Holds(s, i, t) && s.table[i].born <= t ==> n == 1)
  }

  ghost predicate Accounted(cfg: Config, s: State) {
    forall i: nat, t: nat :: i < |s.table| && t < |s.issued| ==> AccountedAt(cfg, s, i, t)
  }

  ghost predicate Inv(cfg: Config, s: State) {
    Tickets(s) && Ordered(s) && Accounted(cfg, s)
  }

  lemma AccountedKeptByWrite(cfg: Config, s: State, caller: Caller, u: Update)
    requires Inv(cfg, s)
    ensures Accounted(cfg, DoWrite(cfg, s, caller, u))
  {
    var s' := DoWrite(cfg, s, caller, u);
    forall i: nat, t: nat | i < |s'.table| && t < |s'.issued|
      ensures AccountedAt(cfg, s', i, t)
    {
      if t < |s.issued| {
        assert AccountedAt(cfg, s, i, t);
      } else {
        CountZero(s.log, s.table[i].id, t);
      }
    }
  }

  lemma AccountedKeptByBegin(cfg: Config, s: State, t0: nat)
    requires Inv(cfg, s)
    ensures Accounted(cfg, DoBegin(s, t0))
  {
    var s' := DoBegin(s, t0);
    forall i: nat, t: nat | i < |s'.table| && t < |s'.issued|
      ensures AccountedAt(cfg, s', i, t)
    {
      assert AccountedAt(cfg, s, i, t);
    }
  }

  lemma AccountedKeptByFinish(cfg: Config, s: State, t0: nat)
    requires Inv(cfg, s)
    ensures Accounted(cfg, DoFinish(s, t0))
  {
    var s' := DoFinish(s, t0);
    forall i: nat, t: nat | i < |s'.table| && t < |s'.issued|
      ensures AccountedAt(cfg, s', i, t)
    {
      assert AccountedAt(cfg, s, i, t);
    }
  }

  lemma SelectedIgnoresNumber(cfg: Config, u: Update, r: Record, cached: string)
    ensures CallbackFor(cfg, u, r, cached).Some? <==> Selected(cfg, u, r)
  {
  }

  lemma AccountedKeptByVisit(cfg: Config, s: State, t0: nat)
    requires Inv(cfg, s)
    ensures Accounted(cfg, DoVisit(cfg, s, t0))
  {
    var s' := DoVisit(cfg, s, t0);
    forall i: nat, t: nat | i < |s'.table| && t < |s'.issued|
      ensures AccountedAt(cfg, s', i, t)
    {
      assert AccountedAt(cfg, s, i, t);
      VisitAccount(cfg, s, t0, i, t);
    }
  }

  lemma IdsDiffer(s: State, i: nat, k: nat)
    requires Ordered(s) && i < |s.table| && k < |s.table|
    ensures s.table[i].id == s.table[k].id <==> i == k
  {
  }

  /** A visit of index k by ticket t0 delivers to that index only, and only when it is notified. */
  lemma VisitCount(cfg: Config, s: State, t0: nat, i: nat, t: nat)
    requires Ordered(s) && i < |s.table| && t0 < |s.issued|
    requires t0 in s.reading && s.reading[t0].next < |s.table|
    ensures var k := s.reading[t0].next;
            Count(DoVisit(cfg, s, t0).log, s.table[i].id, t)
            == Count(s.log, s.table[i].id, t)
               + if i == k && t == t0 && Selected(cfg, s.issued[t0], s.table[k].rec) then 1 else 0
  {
    var k := s.reading[t0].next;
    var e := s.table[k];
    var cb := CallbackFor(cfg, s.issued[t0], e.rec, Cached(s, s.issued[t0]));
    IdsDiffer(s, i, k);
    SelectedIgnoresNumber(cfg, s.issued[t0], e.rec, Cached(s, s.issued[t0]));
    if cb.Some? {
      CountSnoc(s.log, Delivered(e.id, e.rec, t0, cb.value, |s.issued|), s.table[i].id, t);
    }
  }

  /** What a visit leaves alone, and which places the ticket still holds after it. */
  lemma VisitFrame(cfg: Config, s: State, t0: nat, i: nat, t: nat)
    requires t0 in s.reading && s.reading[t0].next < |s.table| && t0 < |s.issued| && t0 !in s.pending
    ensures var v := DoVisit(cfg, s, t0);
            && v.table == s.table && v.issued == s.issued && v.pending == s.pending
            && (Holds(v, i, t) <==> Holds(s, i, t) && !(t == t0 && i == s.reading[t0].next))
  {
  }

  /** What one visit does to the account of one pair. */
  lemma VisitAccount(cfg: Config, s: State, t0: nat, i: nat, t: nat)
    requires Tickets(s) && Ordered(s) && i < |s.table| && t < |s.issued| && AccountedAt(cfg, s, i, t)
    ensures AccountedAt(cfg, DoVisit(cfg, s, t0), i, t)
  {
    if t0 in s.reading && s.reading[t0].next < |s.table| && t0 < |s.issued| {
      VisitFrame(cfg, s, t0, i, t);
      VisitCount(cfg, s, t0, i, t);
    }
  }

  lemma AccountedKeptByUnregister(cfg: Config, s: State, caller: Caller, key: Key)
    requires Inv(cfg, s)
    ensures Accounted(cfg, DoUnregister(s, caller, key))
  {
    var s' := DoUnregister(s, caller, key);
    var n := IndexOf(Recs(s.table), key);
    forall i: nat, t: nat | i < |s'.table| && t < |s'.issued|
      ensures AccountedAt(cfg, s', i, t)
    {
      var old' := if |s'.table| == |s.table| || i < n then i else i + 1;
      assert s'.table[i] == s.table[old'];
      assert AccountedAt(cfg, s, old', t);
      assert |s'.table| < |s.table| ==> |s.reading| == 0;
      assert |s'.table| < |s.table| ==> t !in s.reading;
    }
  }

  lemma AccountedKeptByRegister(cfg: Config, s: State, caller: Caller, r: Record, notify: bool)
    requires Inv(cfg, s)
    ensures Accounted(cfg, DoRegister(cfg, s, caller, r, notify))
  {
    var s' := DoRegister(cfg, s, caller, r, notify);
    forall i: nat, t: nat | i < |s'.table| && t < |s'.issued|
      ensures AccountedAt(cfg, s', i, t)
    {
      RegisterCount(cfg, s, caller, r, notify, if i < |s.table| then s.table[i].id else s.nextId, t);
      if i < |s.table| {
        assert AccountedAt(cfg, s, i, t);
      } else {
        CountZero(s.log, s.nextId, t);
        assert |s.reading| == 0 && t !in s.reading;
      }
    }
  }

  lemma ReplayingCount(cfg: Config, s: State, n: nat, id: nat, t: nat)
    requires n < |s.table|
    ensures Count(Replaying(cfg, s, n).log, id, t) == Count(s.log, id, t)
  {
    var e := s.table[n];
    CountSnoc(s.log, ReplayedTo(e.id, e.rec, Replayed(cfg, s.caches, e.rec, []), |s.issued|), id, t);
  }

  /** The table after a registration: the old entries, with the same ids, births and records, and at
      most one new entry. */
  ghost predicate Extends(s: State, s': State) {
    && s'.pending == s.pending && s'.reading == s.reading && s'.issued == s.issued
    && |s'.table| >= |s.table|
    && (|s'.table| > |s.table| ==> |s'.table| == |s.table| + 1 && Quiet(s))
    && (forall i :: 0 <= i < |s.table| ==>
          s'.table[i].id == s.table[i].id && s'.table[i].born == s.table[i].born && s'.table[i].rec == s.table[i].rec)
    && (|s'.table| > |s.table| ==> s'.table[|s.table|].id == s.nextId && s'.table[|s.table|].born == |s.issued|)
  }

  /** A registration only appends a replay to the log. */
  lemma RegisterCount(cfg: Config, s: State, caller: Caller, r: Record, notify: bool, id: nat, t: nat)
    requires Ordered(s)
    ensures Extends(s, DoRegister(cfg, s, caller, r, notify))
    ensures Count(DoRegister(cfg, s, caller, r, notify).log, id, t) == Count(s.log, id, t)
  {
    if Gate(caller, r.mask) == Success && AcceptedSlot(cfg, caller, r.slot) && Quiet(s) {
      var n := IndexOf(Recs(s.table), KeyOf(r));
      var nextId := if n < |s.table| then s.nextId else s.nextId + 1;
      var pushed := s.(table := Pushed(s, r), nextId := nextId, codes := s.codes + [Success]);
      assert Extends(s, pushed);
      if notify {
        ReplayingCount(cfg, pushed, n, id, t);
      }
    }
  }

  lemma InvKept(cfg: Config, s: State, a: Action)
    requires Inv(cfg, s)
    ensures Inv(cfg, Step(cfg, s, a))
  {
    TicketsKept(cfg, s, a);
    OrderedKept(cfg, s, a);
    match a {
      case Write(caller, u) => AccountedKeptByWrite(cfg, s, caller, u);
      case Begin(t) => AccountedKeptByBegin(cfg, s, t);
      case Visit(t) => AccountedKeptByVisit(cfg, s, t);
      case Finish(t) => AccountedKeptByFinish(cfg, s, t);
      case Register(caller, r, notify) => AccountedKeptByRegister(cfg, s, caller, r, notify);
      case Unregister(caller, key) => AccountedKeptByUnregister(cfg, s, caller, key);
    }
  }

  lemma {:induction false} InvAlways(cfg: Config, actions: seq<Action>)
    ensures Inv(cfg, Run(cfg, actions))
  {
    if actions != [] {
      InvAlways(cfg, actions[..|actions| - 1]);
      InvKept(cfg, Run(cfg, actions[..|actions| - 1]), actions[|actions| - 1]);
    }
  }

  /** No missed update, none delivered twice. In every interleaving, for every accepted update and
      every live record that was registered when the update was issued and that it notifies: either
      the update's fan-out has not reached the record yet and nothing was delivered, or it was
      delivered exactly once. A record registered later gets it at most once, and a record it does
      not notify never gets it. */
  lemma NoMissedUpdate(cfg: Config, s: State, i: nat, t: nat)
    requires Reachable(cfg, s) && i < |s.table| && t < |s.issued|
    ensures var e := s.table[i];
            var delivered := Count(s.log, e.id, t);
            && delivered <= 1
            && (Holds(s, i, t) ==> delivered == 0)
            && (!Selected(cfg, s.issued[t], e.rec) ==> delivered == 0)
            && (Selected(cfg, s.issued[t], e.rec) && e.born <= t ==> Holds(s, i, t) || delivered == 1)
  {
    var actions :| s == Run(cfg, actions);
    InvAlways(cfg, actions);
    assert AccountedAt(cfg, s, i, t);
  }
}
