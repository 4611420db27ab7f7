/** Fan-outs always end: whatever order the threads run in, the fan-outs under way need a number of
    steps that is fixed by the state, some thread can always take the next one, and when none is left
    every live record has been told of every update it was registered for. */
module Draining {
  import opened Records
  import opened Interleaving
  import opened Deliveries

  /** The fan-out steps: taking the shared lock, visiting one record, and releasing the lock. */
  predicate Enabled(s: State, a: Action) {
    match a
    case Begin(t) => t in s.pending
    case Visit(t) => t in s.reading && s.reading[t].next < |s.table|
    case Finish(t) => t in s.reading && s.reading[t].next >= |s.table|
    case _ => false
  }

  /** The steps the fan-out of one ticket still has to take. */
  function Left(s: State, t: nat): nat
    requires Tickets(s)
  {
    if t in s.pending then |s.table| + 2
    else if t in s.reading then |s.table| - s.reading[t].next + 1
    else 0
  }

  function LeftBelow(s: State, n: nat): nat
    requires Tickets(s)
  {
    if n == 0 then 0 else LeftBelow(s, n - 1) + Left(s, n - 1)
  }

  /** The steps all fan-outs together still have to take. */
  function StepsLeft(s: State): nat
    requires Tickets(s)
  {
    LeftBelow(s, |s.issued|)
  }

  predicate Drained(s: State) {
    s.pending == {} && s.reading == map[]
  }

  /** Every action can be taken when its turn comes, and all of them are fan-out steps. */
  predicate Schedule(cfg: Config, s: State, schedule: seq<Action>)
    decreases |schedule|
  {
    schedule != [] ==> Enabled(s, schedule[0]) && Schedule(cfg, Step(cfg, s, schedule[0]), schedule[1..])
  }

  function After(cfg: Config, s: State, schedule: seq<Action>): State
    decreases |schedule|
  {
    if schedule == [] then s else After(cfg, Step(cfg, s, schedule[0]), schedule[1..])
  }

  lemma {:induction false} OneTicketLess(s: State, s': State, t: nat, n: nat)
    requires Tickets(s) && Tickets(s') && Left(s, t) == Left(s', t) + 1
    requires forall u: nat :: u != t ==> Left(s, u) == Left(s', u)
    ensures LeftBelow(s, n) == LeftBelow(s', n) + if t < n then 1 else 0
  {
    if n != 0 {
      OneTicketLess(s, s', t, n - 1);
    }
  }

  /** Every fan-out step is one step of the work, and leaves table and tickets alone. */
  lemma StepDoesWork(cfg: Config, s: State, a: Action)
    requires Inv(cfg, s) && Enabled(s, a)
    ensures var s' := Step(cfg, s, a);
            && Inv(cfg, s') && s'.table == s.table && s'.issued == s.issued && s'.caches == s.caches
            && StepsLeft(s) == StepsLeft(s') + 1
  {
    var s' := Step(cfg, s, a);
    InvKept(cfg, s, a);
    OneTicketLess(s, s', a.t, |s.issued|);
  }

  lemma {:induction false} NoneLeft(s: State, n: nat)
    requires Tickets(s) && (forall t :: t in s.pending || t in s.reading ==> t < n)
    ensures LeftBelow(s, n) == 0 <==> Drained(s)
  {
    if n == 0 {
      assert forall t :: t !in s.pending && t !in s.reading;
    } else if n - 1 !in s.pending && n - 1 !in s.reading {
      NoneLeft(s, n - 1);
    }
  }

  /** While a fan-out is under way some thread can take a step of it. */
  lemma SomeThreadCanRun(s: State) returns (a: Action)
    requires !Drained(s)
    ensures Enabled(s, a)
  {
    if t :| t in s.pending {
      a := Begin(t);
    } else {
      assert s.pending == {};
      var u :| u in s.reading;
      a := if s.reading[u].next < |s.table| then Visit(u) else Finish(u);
    }
  }

  lemma DrainedIffStuck(s: State)
    ensures Drained(s) <==> !exists a :: Enabled(s, a)
  {
    if !Drained(s) {
      var a := SomeThreadCanRun(s);
    }
  }

  lemma {:induction false} ScheduleDoesWork(cfg: Config, s: State, schedule: seq<Action>)
    requires Inv(cfg, s) && Schedule(cfg, s, schedule)
    ensures var s' := After(cfg, s, schedule);
            && Inv(cfg, s') && s'.table == s.table && s'.issued == s.issued && s'.caches == s.caches
            && StepsLeft(s) == StepsLeft(s') + |schedule|
    decreases |schedule|
  {
    if schedule != [] {
      StepDoesWork(cfg, s, schedule[0]);
      ScheduleDoesWork(cfg, Step(cfg, s, schedule[0]), schedule[1..]);
    }
  }

  lemma {:induction false} RunThen(cfg: Config, actions: seq<Action>, schedule: seq<Action>)
    ensures Run(cfg, actions + schedule) == After(cfg, Run(cfg, actions), schedule)
    decreases |schedule|
  {
    if schedule == [] {
      assert actions + schedule == actions;
    } else {
      var next := actions + [schedule[0]];
      assert next[..|actions|] == actions && next + schedule[1..] == actions + schedule;
      RunThen(cfg, next, schedule[1..]);
    }
  }

  /** Every selected record that was registered when its update was issued got it exactly once. */
  ghost predicate AllDelivered(cfg: Config, s: State) {
    forall i: nat, t: nat :: i < |s.table| && t < |s.issued| ==>
      Selected(cfg, s.issued[t], s.table[i].rec) && s.table[i].born <= t ==> Count(s.log, s.table[i].id, t) == 1
  }

  /** From every reachable state, along every schedule of fan-out steps: the state stays reachable,
      the table stays as it is, at most StepsLeft(s) steps are possible, another one is possible as long
      as a fan-out is under way, and after exactly StepsLeft(s) steps none is and nothing was missed. */
  lemma FanOutsEnd(cfg: Config, s: State, schedule: seq<Action>)
    requires Reachable(cfg, s) && Schedule(cfg, s, schedule)
    ensures var s' := After(cfg, s, schedule);
            && Reachable(cfg, s') && s'.table == s.table && s'.issued == s.issued
            && Tickets(s) && |schedule| <= StepsLeft(s)
            && (|schedule| == StepsLeft(s) <==> Drained(s'))
            && (Drained(s') <==> !exists a :: Enabled(s', a))
            && (Drained(s') ==> AllDelivered(cfg, s'))
  {
    var actions :| s == Run(cfg, actions);
    var s' := After(cfg, s, schedule);
    InvAlways(cfg, actions);
    RunThen(cfg, actions, schedule);
    ScheduleDoesWork(cfg, s, schedule);
    NoneLeft(s', |s'.issued|);
    DrainedIffStuck(s');
    if Drained(s') {
      DrainedDelivered(cfg, s');
    }
  }

  lemma DrainedDelivered(cfg: Config, s: State)
    requires Inv(cfg, s) && Drained(s)
    ensures AllDelivered(cfg, s)
  {
    forall i: nat, t: nat | i < |s.table| && t < |s.issued|
      ensures Selected(cfg, s.issued[t], s.table[i].rec) && s.table[i].born <= t ==> Count(s.log, s.table[i].id, t) == 1
    {
      assert AccountedAt(cfg, s, i, t);
    }
  }

  lemma {:induction false} DrainFrom(cfg: Config, s: State) returns (schedule: seq<Action>)
    requires Inv(cfg, s)
    ensures Schedule(cfg, s, schedule) && |schedule| == StepsLeft(s)
    decreases StepsLeft(s)
  {
    NoneLeft(s, |s.issued|);
    if Drained(s) {
      schedule := [];
    } else {
      var a := SomeThreadCanRun(s);
      StepDoesWork(cfg, s, a);
      var rest := DrainFrom(cfg, Step(cfg, s, a));
      schedule := [a] + rest;
      assert schedule[1..] == rest;
    }
  }

  /** Every reachable state has a continuation of fan-out steps alone after which no fan-out is under
      way and each live record got each update it was registered for and that notifies it, once. */
  lemma EveryStateDrains(cfg: Config, s: State) returns (schedule: seq<Action>)
    requires Reachable(cfg, s)
    ensures Schedule(cfg, s, schedule)
    ensures var s' := After(cfg, s, schedule);
            Reachable(cfg, s') && Drained(s') && s'.table == s.table && s'.issued == s.issued && AllDelivered(cfg, s')
  {
    var actions :| s == Run(cfg, actions);
    InvAlways(cfg, actions);
    schedule := DrainFrom(cfg, s);
    FanOutsEnd(cfg, s, schedule);
  }
}
