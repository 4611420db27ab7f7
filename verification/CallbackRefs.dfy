/** Callback references are conserved: each is, at every moment, in exactly one place. */
module CallbackRefs {
  import opened Kinds
  import opened Records
  import opened Listeners
  import opened CallbackQueue

  /** How often a created reference occurs in its places: the listener list, the context or removal
      list of its environment, the deleted references, and the leaked ones. */
  function Places(s: State, r: nat): nat
    requires r < |s.madeBy|
  {
    IdsOf(s.list)[r] + ThreadRefs(ThreadOf(s, s.madeBy[r]))[r] + s.deleted[r] + s.leaked[r]
  }

  predicate InOnePlace(s: State) {
    forall r :: 0 <= r < |s.madeBy| ==> Places(s, r) == 1
  }

  /** A reference was made by this environment. */
  predicate MadeBy(s: State, r: nat, env: nat) {
    r < |s.madeBy| && s.madeBy[r] == env
  }

  ghost predicate OwnedThread(s: State, env: nat) {
    && (forall r: nat :: r in ThreadRefs(ThreadOf(s, env)) ==> MadeBy(s, r, env))
    && (HasListener(ThreadOf(s, env)) ==> ThreadOf(s, env).l.env == env)
  }

  /** References belong to the environment that created them. */
  ghost predicate Owned(s: State) {
    && (forall env: nat :: OwnedThread(s, env))
    && (forall l :: l in s.list ==> MadeBy(s, l.ref.id, l.env))
    && (forall r :: r in s.deleted ==> r < |s.madeBy|)
    && (forall r :: r in s.leaked ==> r < |s.madeBy|)
  }

  predicate HasListener(t: Thread) {
    t.Pending? || t.Adding? || t.Added? || t.Failed?
  }

  // ---------------------------------------------------------------- lists of references

  lemma {:induction false} IdsOfIs(list: seq<Listener>, r: nat)
    ensures r in IdsOf(list) <==> exists l :: l in list && l.ref.id == r
  {
    if list != [] {
      IdsOfIs(list[..|list| - 1], r);
    }
  }

  lemma IdsOfSnoc(list: seq<Listener>, l: Listener)
    ensures IdsOf(list + [l]) == IdsOf(list) + multiset{l.ref.id}
  {
    assert (list + [l])[..|list|] == list;
  }

  /** Removing listeners splits the references between the two lists. */
  lemma {:induction false} IdsSplit(list: seq<Listener>, sel: Selection)
    ensures IdsOf(list) == IdsOf(Kept(list, sel)) + IdsOf(Removed(list, sel))
  {
    if list != [] {
      var front, l := list[..|list| - 1], list[|list| - 1];
      IdsSplit(front, sel);
      IdsOfSnoc(Kept(front, sel), l);
      IdsOfSnoc(Removed(front, sel), l);
    }
  }

  /** The removed listeners' references were made by the environment that removes them. */
  lemma RemovedAreOwned(s: State, sel: Selection)
    requires Owned(s)
    ensures forall r :: r in IdsOf(Removed(s.list, sel)) ==> MadeBy(s, r, sel.env)
    ensures forall l :: l in Kept(s.list, sel) ==> l in s.list
  {
    forall r | r in IdsOf(Removed(s.list, sel))
      ensures MadeBy(s, r, sel.env)
    {
      IdsOfIs(Removed(s.list, sel), r);
      var l :| l in Removed(s.list, sel) && l.ref.id == r;
      KeptMembers(s.list, sel, l);
    }
    forall l | l in Kept(s.list, sel)
      ensures l in s.list
    {
      KeptMembers(s.list, sel, l);
    }
  }

  // ---------------------------------------------------------------- moving and creating references

  ghost predicate Conserved(s: State) {
    Owned(s) && InOnePlace(s)
  }

  /** How often a reference occurs in what one environment is answerable for and in the shared
      places. */
  function Reach(s: State, env: nat, r: nat): nat {
    IdsOf(s.list)[r] + ThreadRefs(ThreadOf(s, env))[r] + s.deleted[r] + s.leaked[r]
  }

  /** Only this environment's thread changed, and references only moved between places. */
  ghost predicate Moves(s: State, t: State, env: nat) {
    && t.madeBy == s.madeBy
    && (forall e: nat :: e != env ==> ThreadOf(t, e) == ThreadOf(s, e))
    && (forall r: nat :: Reach(t, env, r) == Reach(s, env, r))
  }

  lemma MoveKeepsPlaces(s: State, t: State, env: nat)
    requires Conserved(s) && Moves(s, t, env) && OwnedThread(t, env)
    ensures InOnePlace(t)
  {
    forall r | 0 <= r < |t.madeBy|
      ensures Places(t, r) == 1
    {
      assert Places(s, r) == 1;
      assert Reach(t, env, r) == Reach(s, env, r);
      if t.madeBy[r] != env {
        assert OwnedThread(s, env);
        assert !MadeBy(s, r, env) && !MadeBy(t, r, env);
        assert r !in ThreadRefs(ThreadOf(s, env)) && r !in ThreadRefs(ThreadOf(t, env));
      }
    }
  }

  lemma MoveKeepsOwners(s: State, t: State, env: nat)
    requires Conserved(s) && Moves(s, t, env) && OwnedThread(t, env)
    requires forall l :: l in t.list ==> l in s.list || (l.env == env && MadeBy(s, l.ref.id, env))
    ensures Owned(t)
  {
    forall e: nat
      ensures OwnedThread(t, e)
    {
      assert OwnedThread(s, e);
      assert forall r: nat :: MadeBy(s, r, e) ==> MadeBy(t, r, e);
    }
    assert forall l :: l in s.list ==> MadeBy(s, l.ref.id, l.env);
    MoveKeepsIds(s, t, env);
  }

  lemma MoveKeepsIds(s: State, t: State, env: nat)
    requires Owned(s) && Moves(s, t, env)
    ensures forall r :: r in t.deleted ==> r < |t.madeBy|
    ensures forall r :: r in t.leaked ==> r < |t.madeBy|
  {
    forall r: nat | Reach(t, env, r) > 0
      ensures r < |t.madeBy|
    {
      assert Reach(s, env, r) > 0;
      assert OwnedThread(s, env);
      IdsOfIs(s.list, r);
    }
    assert forall r: nat :: r in t.deleted || r in t.leaked ==> Reach(t, env, r) > 0;
  }

  lemma MoveConserves(s: State, t: State, env: nat)
    requires Conserved(s) && Moves(s, t, env) && OwnedThread(t, env)
    requires forall l :: l in t.list ==> l in s.list || (l.env == env && MadeBy(s, l.ref.id, env))
    ensures Conserved(t)
  {
    MoveKeepsPlaces(s, t, env);
    MoveKeepsOwners(s, t, env);
  }

  /** A thread without references creates one. */
  function Create(s: State, env: nat, t: Thread): State {
    s.(madeBy := s.madeBy + [env], threads := s.threads[env := t])
  }

  lemma OldIds(s: State, env: nat)
    requires Owned(s)
    ensures IdsOf(s.list)[|s.madeBy|] == 0 && s.deleted[|s.madeBy|] == 0 && s.leaked[|s.madeBy|] == 0
    ensures ThreadRefs(ThreadOf(s, env))[|s.madeBy|] == 0
  {
    IdsOfIs(s.list, |s.madeBy|);
    assert OwnedThread(s, env);
  }

  lemma CreateKeepsPlaces(s: State, env: nat, t: Thread)
    requires Conserved(s) && ThreadRefs(ThreadOf(s, env)) == multiset{}
    requires ThreadRefs(t) == multiset{|s.madeBy|}
    ensures InOnePlace(Create(s, env, t))
  {
    var c := Create(s, env, t);
    OldIds(s, env);
    forall r | 0 <= r < |c.madeBy|
      ensures Places(c, r) == 1
    {
      if r < |s.madeBy| {
        assert Places(s, r) == 1;
      }
    }
  }

  lemma CreateKeepsThread(s: State, env: nat, t: Thread, e: nat)
    requires OwnedThread(s, e)
    requires ThreadRefs(t) == multiset{|s.madeBy|} && (HasListener(t) ==> t.l.env == env)
    ensures OwnedThread(Create(s, env, t), e)
  {
    var c := Create(s, env, t);
    if e == env {
      assert ThreadOf(c, e) == t;
    } else {
      assert ThreadOf(c, e) == ThreadOf(s, e);
      assert forall r: nat :: MadeBy(s, r, e) ==> MadeBy(c, r, e);
    }
  }

  lemma CreateKeepsOwners(s: State, env: nat, t: Thread)
    requires Conserved(s)
    requires ThreadRefs(t) == multiset{|s.madeBy|} && (HasListener(t) ==> t.l.env == env)
    ensures Owned(Create(s, env, t))
  {
    var c := Create(s, env, t);
    forall e: nat
      ensures OwnedThread(c, e)
    {
      assert OwnedThread(s, e);
      CreateKeepsThread(s, env, t, e);
    }
    forall l | l in c.list
      ensures MadeBy(c, l.ref.id, l.env)
    {
      assert MadeBy(s, l.ref.id, l.env);
    }
  }

  // ---------------------------------------------------------------- each step

  lemma PushReach(s: State, env: nat, l: Listener, r: nat)
    requires HasListener(ThreadOf(s, env)) && l == ThreadOf(s, env).l
    ensures Reach(Push(s, env, l), env, r) == Reach(s, env, r)
  {
    var t := Push(s, env, l);
    IdsOfSnoc(s.list, l);
    assert ThreadOf(t, env) == Idle && ThreadRefs(Idle) == multiset{};
    assert ThreadRefs(ThreadOf(s, env)) == multiset{l.ref.id};
    assert IdsOf(t.list)[r] == IdsOf(s.list)[r] + multiset{l.ref.id}[r];
  }

  lemma IdleOwnsNothing(s: State, env: nat)
    requires ThreadOf(s, env) == Idle
    ensures OwnedThread(s, env)
  {
  }

  lemma PushConserves(s: State, env: nat, l: Listener)
    requires Conserved(s) && HasListener(ThreadOf(s, env)) && l == ThreadOf(s, env).l
    ensures Conserved(Push(s, env, l))
  {
    var t := Push(s, env, l);
    assert OwnedThread(s, env) && l.ref.id in ThreadRefs(ThreadOf(s, env));
    forall r: nat
      ensures Reach(t, env, r) == Reach(s, env, r)
    {
      PushReach(s, env, l, r);
    }
    IdleOwnsNothing(t, env);
    MoveConserves(s, t, env);
  }

  lemma OnStartConserves(s: State, env: nat, kind: Kind, slot: int, fn: int)
    requires Conserved(s)
    ensures Conserved(DoOnStart(s, env, kind, slot, fn))
  {
    var t := Pending(Listener(env, kind, slot, Ref(|s.madeBy|, fn), |s.madeBy|));
    if ThreadOf(s, env) == Idle {
      CreateKeepsPlaces(s, env, t);
      CreateKeepsOwners(s, env, t);
    }
  }

  /** A thread that keeps its listener keeps its reference. */
  lemma SameReference(s: State, t: State, env: nat)
    requires Conserved(s) && HasListener(ThreadOf(s, env))
    requires HasListener(ThreadOf(t, env)) && ThreadOf(t, env).l == ThreadOf(s, env).l
    requires t.madeBy == s.madeBy && t.list == s.list && t.deleted == s.deleted && t.leaked == s.leaked
    requires forall e: nat :: e != env ==> ThreadOf(t, e) == ThreadOf(s, e)
    ensures Conserved(t)
  {
    assert OwnedThread(s, env);
    assert forall r :: MadeBy(s, r, env) ==> MadeBy(t, r, env);
    MoveConserves(s, t, env);
  }

  lemma LeakConserves(s: State, t: State, env: nat)
    requires Conserved(s) && HasListener(ThreadOf(s, env))
    requires t == s.(threads := s.threads[env := Idle], leaked := s.leaked + multiset{ThreadOf(s, env).l.ref.id})
    ensures Conserved(t)
  {
    MoveConserves(s, t, env);
  }

  lemma OnCheckConserves(simSlotCount: int, s: State, env: nat)
    requires Conserved(s)
    ensures Conserved(DoOnCheck(simSlotCount, s, env))
  {
    if ThreadOf(s, env).Pending? {
      var t := DoOnCheck(simSlotCount, s, env);
      var l := ThreadOf(s, env).l;
      if simSlotCount == 0 && !Napi.IsCallKind(l.kind) {
        LeakConserves(s, t, env);
      } else if t == Push(s, env, l) {
        PushConserves(s, env, l);
      } else {
        SameReference(s, t, env);
      }
    }
  }

  lemma AnswerConserves(s: State, env: nat, ipc: Code, replayed: bool)
    requires Conserved(s)
    ensures Conserved(DoAnswer(s, env, ipc, replayed))
  {
    if ThreadOf(s, env).Adding? {
      SameReference(s, DoAnswer(s, env, ipc, replayed), env);
    }
  }

  lemma FailConserves(s: State, env: nat)
    requires Conserved(s) && ThreadOf(s, env).Failed?
    ensures Conserved(DoOnFail(s, env))
  {
    assert ThreadOf(DoOnFail(s, env), env) == Idle;
    MoveConserves(s, DoOnFail(s, env), env);
  }

  lemma OnEndConserves(s: State, env: nat)
    requires Conserved(s)
    ensures Conserved(DoOnPush(s, env)) && Conserved(DoOnFail(s, env))
  {
    if ThreadOf(s, env).Added? {
      PushConserves(s, env, ThreadOf(s, env).l);
    }
    if ThreadOf(s, env).Failed? {
      FailConserves(s, env);
    }
  }

  lemma TakeConserves(s: State, t: State, sel: Selection)
    requires Conserved(s) && t.madeBy == s.madeBy && t.list == Kept(s.list, sel) && t.leaked == s.leaked
    requires forall e: nat :: e != sel.env ==> ThreadOf(t, e) == ThreadOf(s, e)
    requires forall r: nat ::
               ThreadRefs(ThreadOf(t, sel.env))[r] + t.deleted[r]
               == ThreadRefs(ThreadOf(s, sel.env))[r] + s.deleted[r] + IdsOf(Removed(s.list, sel))[r]
    requires forall r :: r in ThreadRefs(ThreadOf(t, sel.env)) ==>
               r in ThreadRefs(ThreadOf(s, sel.env)) || r in IdsOf(Removed(s.list, sel))
    requires !HasListener(ThreadOf(t, sel.env))
    ensures Conserved(t)
  {
    IdsSplit(s.list, sel);
    RemovedAreOwned(s, sel);
    assert OwnedThread(s, sel.env);
    assert forall r: nat :: MadeBy(s, r, sel.env) ==> MadeBy(t, r, sel.env);
    MoveConserves(s, t, sel.env);
  }

  /** The reference an `off` creates for its own callback exists before it removes anything. */
  lemma CreateOwn(s: State, env: nat, fn: int)
    requires Conserved(s) && ThreadOf(s, env) == Idle
    ensures Conserved(Create(s, env, Removing([], Some(Ref(|s.madeBy|, fn)))))
  {
    var own := Removing([], Some(Ref(|s.madeBy|, fn)));
    assert ThreadRefs(own) == multiset{|s.madeBy|};
    CreateKeepsPlaces(s, env, own);
    CreateKeepsOwners(s, env, own);
  }

  lemma TakeIntoThread(s: State, t: State, sel: Selection, own: Option<Ref>)
    requires Conserved(s) && ThreadRefs(ThreadOf(s, sel.env)) == ThreadRefs(Removing([], own))
    requires t.madeBy == s.madeBy && t.list == Kept(s.list, sel) && t.deleted == s.deleted && t.leaked == s.leaked
    requires forall e: nat :: e != sel.env ==> ThreadOf(t, e) == ThreadOf(s, e)
    requires ThreadOf(t, sel.env) == Removing(Removed(s.list, sel), own)
    ensures Conserved(t)
  {
    var before, taken := ThreadRefs(ThreadOf(s, sel.env)), IdsOf(Removed(s.list, sel));
    var after := ThreadRefs(ThreadOf(t, sel.env));
    assert forall r: nat :: after[r] == before[r] + taken[r];
    TakeConserves(s, t, sel);
  }

  lemma OffOneConserves(s: State, env: nat, kind: Kind, fn: int)
    requires Conserved(s) && ThreadOf(s, env) == Idle && s.mutex.None?
    ensures Conserved(DoOffStart(s, env, kind, Some(fn)))
  {
    var own := Some(Ref(|s.madeBy|, fn));
    CreateOwn(s, env, fn);
    TakeIntoThread(Create(s, env, Removing([], own)), DoOffStart(s, env, kind, Some(fn)),
                   Selection(env, {kind}, Some(fn)), own);
  }

  lemma OffStartConserves(s: State, env: nat, kind: Kind, fn: Option<int>)
    requires Conserved(s)
    ensures Conserved(DoOffStart(s, env, kind, fn))
  {
    if ThreadOf(s, env) == Idle && s.mutex.None? {
      var sel := Selection(env, {kind}, fn);
      var t := DoOffStart(s, env, kind, fn);
      if fn.None? {
        TakeIntoThread(s, t, sel, None);
      } else {
        OffOneConserves(s, env, kind, fn.value);
      }
    }
  }

  lemma OffFinishConserves(s: State, env: nat)
    requires Conserved(s)
    ensures Conserved(DoOffFinish(s, env))
  {
    if ThreadOf(s, env).Removing? {
      MoveConserves(s, DoOffFinish(s, env), env);
    }
  }

  lemma TeardownConserves(s: State, env: nat)
    requires Conserved(s)
    ensures Conserved(DoTeardown(s, env))
  {
    if ThreadOf(s, env) == Idle && s.mutex.None? {
      TakeConserves(s, DoTeardown(s, env), Everything(env));
    }
  }

  lemma QueueConserves(s: State, t: State, env: nat)
    requires Conserved(s)
    requires t.madeBy == s.madeBy && t.list == s.list && t.deleted == s.deleted && t.leaked == s.leaked
    requires forall e: nat :: e != env ==> ThreadOf(t, e) == ThreadOf(s, e)
    requires ThreadRefs(ThreadOf(t, env)) == ThreadRefs(ThreadOf(s, env)) && !HasListener(ThreadOf(t, env))
    ensures Conserved(t)
  {
    assert OwnedThread(s, env);
    assert forall r: nat :: MadeBy(s, r, env) ==> MadeBy(t, r, env);
    MoveConserves(s, t, env);
  }

  /** Posting and dispatching touch no thread and no place. */
  lemma EventConserves(s: State, t: State)
    requires Conserved(s)
    requires t.madeBy == s.madeBy && t.list == s.list && t.threads == s.threads
    requires t.deleted == s.deleted && t.leaked == s.leaked
    ensures Conserved(t)
  {
    forall env: nat
      ensures OwnedThread(t, env)
    {
      assert OwnedThread(s, env);
      assert forall r: nat :: MadeBy(s, r, env) ==> MadeBy(t, r, env);
    }
    forall r | 0 <= r < |t.madeBy|
      ensures Places(t, r) == 1
    {
      assert Places(s, r) == 1;
    }
  }

  lemma CheckConserves(s: State, i: nat)
    requires Conserved(s)
    ensures Conserved(DoCheck(s, i))
  {
    if i < |s.work| && s.mutex.None? && ThreadOf(s, s.work[i].w.to.env) == Idle {
      QueueConserves(s, DoCheck(s, i), s.work[i].w.to.env);
    }
  }

  lemma CallConserves(s: State, env: nat)
    requires Conserved(s)
    ensures Conserved(DoCall(s, env))
  {
    if ThreadOf(s, env).Calling? {
      QueueConserves(s, DoCall(s, env), env);
    }
  }

  lemma OnStepConserves(simSlotCount: int, s: State, a: Action)
    requires Conserved(s) && (a.OnStart? || a.OnCheck? || a.Answer? || a.OnPush? || a.OnFail?)
    ensures Conserved(Step(simSlotCount, s, a))
  {
    match a {
      case OnStart(env, kind, slot, fn) => OnStartConserves(s, env, kind, slot, fn);
      case OnCheck(env) => OnCheckConserves(simSlotCount, s, env);
      case Answer(env, ipc, replayed) => AnswerConserves(s, env, ipc, replayed);
      case OnPush(env) => OnEndConserves(s, env);
      case OnFail(env) => OnEndConserves(s, env);
    }
  }

  lemma OffStepConserves(simSlotCount: int, s: State, a: Action)
    requires Conserved(s) && (a.OffStart? || a.OffFinish? || a.Teardown?)
    ensures Conserved(Step(simSlotCount, s, a))
  {
    if a.OffStart? {
      OffStartConserves(s, a.env, a.kind, a.only);
    } else if a.OffFinish? {
      OffFinishConserves(s, a.env);
    } else {
      TeardownConserves(s, a.env);
    }
  }

  lemma EventStepConserves(simSlotCount: int, s: State, a: Action)
    requires Conserved(s) && (a.Post? || a.DispatchEvent?)
    ensures Conserved(Step(simSlotCount, s, a))
  {
    EventConserves(s, Step(simSlotCount, s, a));
  }

  lemma QueueStepConserves(simSlotCount: int, s: State, a: Action)
    requires Conserved(s) && (a.Check? || a.Call?)
    ensures Conserved(Step(simSlotCount, s, a))
  {
    if a.Check? {
      CheckConserves(s, a.i);
    } else {
      CallConserves(s, a.env);
    }
  }

  lemma StepConserves(simSlotCount: int, s: State, a: Action)
    requires Conserved(s)
    ensures Conserved(Step(simSlotCount, s, a))
  {
    if a.OnStart? || a.OnCheck? || a.Answer? || a.OnPush? || a.OnFail? {
      OnStepConserves(simSlotCount, s, a);
    } else if a.OffStart? || a.OffFinish? || a.Teardown? {
      OffStepConserves(simSlotCount, s, a);
    } else if a.Check? || a.Call? {
      QueueStepConserves(simSlotCount, s, a);
    } else {
      EventStepConserves(simSlotCount, s, a);
    }
  }

  lemma {:induction false} RunConserves(simSlotCount: int, actions: seq<Action>)
    ensures Conserved(Run(simSlotCount, actions))
  {
    if actions == [] {
      assert Conserved(Init());
    } else {
      RunConserves(simSlotCount, actions[..|actions| - 1]);
      StepConserves(simSlotCount, Run(simSlotCount, actions[..|actions| - 1]), actions[|actions| - 1]);
    }
  }

  lemma {:induction false} NothingLeaked(simSlotCount: int, actions: seq<Action>)
    requires simSlotCount != 0
    ensures Run(simSlotCount, actions).leaked == multiset{}
  {
    if actions != [] {
      NothingLeaked(simSlotCount, actions[..|actions| - 1]);
    }
  }

  /** A reference is with the context or removal list of its environment, in the list, or deleted. */
  predicate InOneOfThree(s: State) {
    forall r :: 0 <= r < |s.madeBy| ==>
      IdsOf(s.list)[r] + ThreadRefs(ThreadOf(s, s.madeBy[r]))[r] + s.deleted[r] == 1
  }

  /** In every run each created reference is in exactly one of three places, so it is never both in
      use and deleted, exactly when the product has SIM slots: without them an `on` of a kind that
      needs a SIM reports success and drops its reference. */
  lemma ReferencesConserved(simSlotCount: int)
    ensures (forall actions :: InOneOfThree(Run(simSlotCount, actions))) <==> simSlotCount != 0
  {
    if simSlotCount == 0 {
      LostReference();
    } else {
      forall actions
        ensures InOneOfThree(Run(simSlotCount, actions))
      {
        var s := Run(simSlotCount, actions);
        RunConserves(simSlotCount, actions);
        NothingLeaked(simSlotCount, actions);
        forall r | 0 <= r < |s.madeBy|
          ensures IdsOf(s.list)[r] + ThreadRefs(ThreadOf(s, s.madeBy[r]))[r] + s.deleted[r] == 1
        {
          assert Places(s, r) == 1;
        }
      }
    }
  }

  /** On every product, no reference is deleted twice. */
  lemma DeletedAtMostOnce(simSlotCount: int, s: State, r: nat)
    requires Reachable(simSlotCount, s)
    ensures s.deleted[r] <= 1
  {
    var actions :| s == Run(simSlotCount, actions);
    RunConserves(simSlotCount, actions);
    if r in s.deleted {
      assert Places(s, r) == 1;
    }
  }

  lemma LostReference()
    ensures exists actions :: !InOneOfThree(Run(0, actions))
  {
    var actions := [OnStart(0, SimState, 0, 7), OnCheck(0)];
    var first := [OnStart(0, SimState, 0, 7)];
    assert actions[..1] == first && first[..0] == [];
    var s1 := Run(0, first);
    assert s1 == DoOnStart(Run(0, []), 0, SimState, 0, 7);
    var s := Run(0, actions);
    assert s == DoOnCheck(0, s1, 0);
    assert |s.madeBy| == 1 && IdsOf(s.list)[0] + ThreadRefs(ThreadOf(s, s.madeBy[0]))[0] + s.deleted[0] == 0;
  }
}
