/** How the listener list changes in every interleaving: an `on`, though it may hold the mutex over
    several steps, acts on the list as the registration that runs alone; an `off` or teardown takes
    exactly the listeners it names; and nothing else changes the list. */
module Registrations {
  import opened Kinds
  import opened Records
  import opened Listeners
  import opened CallbackQueue
  import opened CallbackSafety
  import opened Napi = NapiListeners

  /** While an `on` calls the service for a pair nobody else adds a listener of the pair. */
  ghost predicate AddsFirst(s: State, env: nat) {
    AddsUnderMutex(ThreadOf(s, env)) ==> PairOf(ThreadOf(s, env).l) !in PairsOf(s.list)
  }

  ghost predicate AllAddFirst(s: State) {
    forall env: nat :: AddsFirst(s, env)
  }

  /** The `on` reaches the table: its slot is one it may name, on a product that supports it. */
  predicate Admissible(simSlotCount: int, l: Listener) {
    && (simSlotCount != 0 || l.kind in {CallState, CallStateEx, CCallState, VoIPCall})
    && (|| l.slot == 999
        || 0 <= l.slot <= simSlotCount
        || (l.slot == -1 < simSlotCount + 1 && l.kind in {CallState, CallStateEx, CCallState, VoIPCall}))
  }

  // ---------------------------------------------------------------- each step

  lemma OnCheckAddsFirst(simSlotCount: int, s: State, env: nat)
    requires AllAddFirst(s) && MutexHeld(s)
    ensures AllAddFirst(DoOnCheck(simSlotCount, s, env))
  {
    var t := DoOnCheck(simSlotCount, s, env);
    forall e: nat
      ensures AddsFirst(t, e)
    {
      assert AddsFirst(s, e) && (AddsUnderMutex(ThreadOf(s, e)) <==> s.mutex == Some(e));
    }
  }

  lemma OnStepAddsFirst(simSlotCount: int, s: State, a: Action)
    requires AllAddFirst(s) && MutexHeld(s) && (a.OnStart? || a.Answer? || a.OnPush? || a.OnFail?)
    ensures AllAddFirst(Step(simSlotCount, s, a))
  {
    var t := Step(simSlotCount, s, a);
    forall e: nat
      ensures AddsFirst(t, e)
    {
      assert AddsFirst(s, e) && (AddsUnderMutex(ThreadOf(s, e)) <==> s.mutex == Some(e));
      assert AddsFirst(s, a.env) && (AddsUnderMutex(ThreadOf(s, a.env)) <==> s.mutex == Some(a.env));
    }
  }

  lemma OtherStepAddsFirst(simSlotCount: int, s: State, a: Action)
    requires AllAddFirst(s) && MutexHeld(s) && !a.OnStart? && !a.OnCheck? && !a.Answer? && !a.OnPush? && !a.OnFail?
    ensures AllAddFirst(Step(simSlotCount, s, a))
  {
    var t := Step(simSlotCount, s, a);
    forall e: nat
      ensures AddsFirst(t, e)
    {
      assert AddsFirst(s, e) && (AddsUnderMutex(ThreadOf(s, e)) <==> s.mutex == Some(e));
    }
  }

  lemma {:induction false} AddsFirstInRuns(simSlotCount: int, actions: seq<Action>)
    ensures AllAddFirst(Run(simSlotCount, actions))
  {
    if actions != [] {
      var front, a := actions[..|actions| - 1], actions[|actions| - 1];
      AddsFirstInRuns(simSlotCount, front);
      RunSound(simSlotCount, front);
      if a.OnCheck? {
        OnCheckAddsFirst(simSlotCount, Run(simSlotCount, front), a.env);
      } else if a.OnStart? || a.Answer? || a.OnPush? || a.OnFail? {
        OnStepAddsFirst(simSlotCount, Run(simSlotCount, front), a);
      } else {
        OtherStepAddsFirst(simSlotCount, Run(simSlotCount, front), a);
      }
    }
  }

  // ---------------------------------------------------------------- an `on`

  /** The first step of an `on` that gets the mutex: a duplicate or a further listener of a held pair
      is done with at once, as the registration running alone does; the first listener of a pair
      leaves the list alone, keeps the mutex and goes on to the call. One that may not name its slot
      never touches the table. */
  lemma OnCheckRegisters(simSlotCount: int, s: State, env: nat)
    requires s.mutex.None? && ThreadOf(s, env).Pending?
    ensures var l, t := ThreadOf(s, env).l, Step(simSlotCount, s, OnCheck(env));
            var r := Registered(s.list, l, Success);
            if !Admissible(simSlotCount, l) then
              t.list == s.list && t.mutex.None? && !AddsUnderMutex(ThreadOf(t, env))
            else if r.1 == [] then
              && t.list == r.0 && t.mutex.None?
              && ThreadOf(t, env) == (if r.2 == Success then Idle else Failed(l))
            else t.list == s.list && t.mutex == Some(env) && ThreadOf(t, env) == Adding(l)
  {
  }

  /** A duplicate is a listener of the same environment, slot, event type and function; the same
      function in another environment is none. */
  lemma OnlyDuplicatesFail(simSlotCount: int, s: State, env: nat)
    requires s.mutex.None? && ThreadOf(s, env).Pending? && Admissible(simSlotCount, ThreadOf(s, env).l)
    ensures var l := ThreadOf(s, env).l;
            ThreadOf(Step(simSlotCount, s, OnCheck(env)), env) == Failed(l) <==>
              exists m :: m in s.list && m.env == l.env && m.slot == l.slot && m.kind == l.kind && m.ref.fn == l.ref.fn
  {
    var l := ThreadOf(s, env).l;
    OnCheckRegisters(simSlotCount, s, env);
    assert forall m: Listener ::
      IsSame(m, l) <==> m.env == l.env && m.slot == l.slot && m.kind == l.kind && m.ref.fn == l.ref.fn;
  }

  /** A replay the service makes before it answers arrives as an event of the listener being added. */
  lemma ReplayArrives(simSlotCount: int, s: State, env: nat, ipc: Code, replayed: bool)
    requires ThreadOf(s, env).Adding?
    ensures var l, t := ThreadOf(s, env).l, Step(simSlotCount, s, Answer(env, ipc, replayed));
            t.events == s.events + if replayed then [Event(l.kind, l.slot, Some(l.flag))] else []
  {
  }

  /** The answer of the service decides: a refusal leaves the list alone and frees the mutex, and the
      push after an acceptance makes the list what the registration running alone makes of the list
      at that moment. */
  lemma OnEndRegisters(simSlotCount: int, s: State, env: nat, ipc: Code, replayed: bool)
    requires Reachable(simSlotCount, s)
    ensures ThreadOf(s, env).Adding? ==>
              var l, t := ThreadOf(s, env).l, Step(simSlotCount, s, Answer(env, ipc, replayed));
              && t.list == s.list && (ipc != Success ==> t.list == Registered(s.list, l, ipc).0)
              && Registered(s.list, l, ipc).1 == [Add(PairOf(l), NotifyNow(l.kind))]
              && ThreadOf(t, env) == (if ipc == Success then Added(l) else Failed(l))
              && t.mutex == (if ipc == Success then Some(env) else None)
    ensures ThreadOf(s, env).Added? ==>
              var l, t := ThreadOf(s, env).l, Step(simSlotCount, s, OnPush(env));
              t.list == Registered(s.list, l, Success).0 == s.list + [l] && t.mutex.None? && ThreadOf(t, env) == Idle
  {
    var actions :| s == Run(simSlotCount, actions);
    AddsFirstInRuns(simSlotCount, actions);
    RunSound(simSlotCount, actions);
    assert AddsFirst(s, env) && (AddsUnderMutex(ThreadOf(s, env)) <==> s.mutex == Some(env));
    if AddsUnderMutex(ThreadOf(s, env)) {
      var l := ThreadOf(s, env).l;
      forall m | m in s.list
        ensures !IsSame(m, l)
      {
        assert PairOf(m) in PairsOf(s.list);
      }
    }
  }

  // ---------------------------------------------------------------- everything else

  /** An `off` that gets the mutex takes exactly the listeners it names. */
  lemma OffTakesNamed(simSlotCount: int, s: State, env: nat, kind: Kind, fn: Option<int>, l: Listener)
    requires s.mutex.None? && ThreadOf(s, env) == Idle
    ensures l in Step(simSlotCount, s, OffStart(env, kind, fn)).list <==>
              l in s.list && !(l.env == env && l.kind == kind && (fn.None? || l.ref.fn == fn.value))
  {
    var sel := Selection(env, {kind}, fn);
    assert DoOffStart(s, env, kind, fn).list == Kept(s.list, sel);
    KeptMembers(s.list, sel, l);
  }

  /** A teardown that gets the mutex takes exactly the listeners of its environment. */
  lemma TeardownTakesAll(simSlotCount: int, s: State, env: nat, l: Listener)
    requires s.mutex.None? && ThreadOf(s, env) == Idle
    ensures l in Step(simSlotCount, s, Teardown(env)).list <==> l in s.list && l.env != env
  {
    var sel := Everything(env);
    assert DoTeardown(s, env).list == Kept(s.list, sel);
    KeptMembers(s.list, sel, l);
    EverythingMatches(env, l);
  }

  /** Nothing but the last step of an `on`, an `off` and a teardown changes the list. */
  lemma ListUntouched(simSlotCount: int, s: State, a: Action)
    requires !a.OnCheck? && !a.OnPush? && !a.OffStart? && !a.Teardown?
    ensures Step(simSlotCount, s, a).list == s.list
    ensures a.Post? ==> Step(simSlotCount, s, a).events == s.events + [Event(a.kind, a.slot, None)]
  {
  }
}
