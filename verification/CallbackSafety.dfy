/** What every interleaving of the NAPI callback path keeps: the deletion flags say which accepted
    listeners have left the list, no callback runs after its listener was removed, and the replay a
    registration causes finds its listener. */
module CallbackSafety {
  import opened Kinds
  import opened Records
  import opened Listeners
  import opened CallbackQueue
  import opened CallbackRefs
  import opened Napi = NapiListeners

  predicate Listed(list: seq<Listener>, f: nat) {
    exists l :: l in list && l.flag == f
  }

  /** An accepted listener's flag is set exactly when it is not in the list. */
  ghost predicate FlagsExact(s: State) {
    forall f :: f in s.accepted ==> (f in s.deleting <==> !Listed(s.list, f))
  }

  ghost predicate ThreadFlags(s: State, env: nat) {
    HasListener(ThreadOf(s, env)) ==>
      ThreadOf(s, env).l.flag == ThreadOf(s, env).l.ref.id && ThreadOf(s, env).l.flag !in s.accepted
  }

  ghost predicate Flags(s: State) {
    && (forall l :: l in s.list ==> l.flag == l.ref.id && l.flag in s.accepted && l.flag !in s.deleting)
    && (forall f :: f in s.accepted ==> f < |s.madeBy| && (f in s.deleting || Listed(s.list, f)))
    && s.deleting <= s.accepted
    && forall env: nat :: ThreadFlags(s, env)
  }

  predicate AddsUnderMutex(t: Thread) {
    t.Adding? || t.Added?
  }

  /** The mutex is held across steps exactly by a registration that calls the service. */
  ghost predicate MutexHeld(s: State) {
    forall env: nat :: AddsUnderMutex(ThreadOf(s, env)) <==> s.mutex == Some(env)
  }

  /** A queued copy is in the list, or its flag is set. */
  predicate WorkSound(s: State) {
    forall i :: 0 <= i < |s.work| ==> s.work[i].w.to in s.list || s.work[i].w.to.flag in s.deleting
  }

  /** A JS thread that passed the check still has its listener in the list. */
  ghost predicate CallSound(s: State, env: nat) {
    ThreadOf(s, env).Calling? ==> ThreadOf(s, env).item.w.to in s.list && ThreadOf(s, env).item.w.to.env == env
  }

  ghost predicate Sound(s: State) {
    Conserved(s) && Flags(s) && MutexHeld(s) && WorkSound(s) && forall env: nat :: CallSound(s, env)
  }

  // ---------------------------------------------------------------- removals

  lemma OnceInList(s: State, l: Listener)
    requires Conserved(s) && l in s.list
    ensures IdsOf(s.list)[l.ref.id] <= 1
  {
    assert MadeBy(s, l.ref.id, l.env);
    assert Places(s, l.ref.id) == 1;
  }

  /** A reference occurs once in the list, so a kept and a removed listener have different flags. */
  lemma RemovedFlagsAreGone(s: State, sel: Selection, l: Listener)
    requires Conserved(s) && Flags(s) && l in Kept(s.list, sel)
    ensures l in s.list && l.flag !in Napi.FlagsOf(Removed(s.list, sel))
  {
    KeptMembers(s.list, sel, l);
    OnceInList(s, l);
    IdsSplit(s.list, sel);
    IdsOfIs(Kept(s.list, sel), l.ref.id);
    IdsOfIs(Removed(s.list, sel), l.ref.id);
    forall m | m in Removed(s.list, sel)
      ensures m.flag != l.flag
    {
      KeptMembers(s.list, sel, m);
    }
  }

  lemma TakeOutKeepsFlags(s: State, sel: Selection)
    requires Conserved(s) && Flags(s)
    ensures Flags(TakeOut(s, sel))
  {
    var t := TakeOut(s, sel);
    forall l | l in t.list
      ensures l.flag == l.ref.id && l.flag in t.accepted && l.flag !in t.deleting
    {
      RemovedFlagsAreGone(s, sel, l);
    }
    forall f | f in t.accepted
      ensures f in t.deleting || Listed(t.list, f)
    {
      if f !in s.deleting {
        var l :| l in s.list && l.flag == f;
        KeptMembers(s.list, sel, l);
      }
    }
    forall f | f in Napi.FlagsOf(Removed(s.list, sel))
      ensures f in s.accepted
    {
      var l :| l in Removed(s.list, sel) && l.flag == f;
      KeptMembers(s.list, sel, l);
    }
    forall env: nat
      ensures ThreadFlags(t, env)
    {
      assert ThreadFlags(s, env);
    }
  }

  /** A removal by one environment spares the listeners other environments are about to call. */
  lemma TakeOutKeepsWork(s: State, sel: Selection)
    requires Sound(s) && ThreadOf(s, sel.env) == Idle
    ensures WorkSound(TakeOut(s, sel))
    ensures forall env: nat :: CallSound(TakeOut(s, sel), env)
  {
    var t := TakeOut(s, sel);
    forall i | 0 <= i < |t.work|
      ensures t.work[i].w.to in t.list || t.work[i].w.to.flag in t.deleting
    {
      KeptMembers(s.list, sel, s.work[i].w.to);
    }
    forall env: nat
      ensures CallSound(t, env)
    {
      assert CallSound(s, env);
      if ThreadOf(s, env).Calling? {
        KeptMembers(s.list, sel, ThreadOf(s, env).item.w.to);
      }
    }
  }

  // ---------------------------------------------------------------- each step

  /** A step of one thread that changes neither list nor flags nor work, and starts no call. */
  lemma ThreadStepSound(s: State, t: State, env: nat)
    requires Sound(s) && Conserved(t)
    requires t.list == s.list && t.deleting == s.deleting && t.work == s.work && t.accepted == s.accepted
    requires |t.madeBy| >= |s.madeBy| && (forall e: nat :: e != env ==> ThreadOf(t, e) == ThreadOf(s, e))
    requires ThreadFlags(t, env) && !ThreadOf(t, env).Calling?
    requires AddsUnderMutex(ThreadOf(t, env)) <==> t.mutex == Some(env)
    requires || t.mutex == s.mutex
             || (t.mutex == Some(env) && s.mutex == None)
             || (s.mutex == Some(env) && t.mutex == None)
    ensures Sound(t)
  {
    forall e: nat
      ensures ThreadFlags(t, e) && CallSound(t, e) && (AddsUnderMutex(ThreadOf(t, e)) <==> t.mutex == Some(e))
    {
      assert ThreadFlags(s, e) && CallSound(s, e) && (AddsUnderMutex(ThreadOf(s, e)) <==> s.mutex == Some(e));
    }
  }

  lemma OnStartSound(s: State, env: nat, kind: Kind, slot: int, fn: int)
    requires Sound(s)
    ensures Sound(DoOnStart(s, env, kind, slot, fn))
  {
    OnStartConserves(s, env, kind, slot, fn);
    if ThreadOf(s, env) == Idle {
      assert AddsUnderMutex(ThreadOf(s, env)) <==> s.mutex == Some(env);
      ThreadStepSound(s, DoOnStart(s, env, kind, slot, fn), env);
    }
  }

  lemma OtherThreadsFlags(s: State, env: nat, e: nat)
    requires Conserved(s) && Flags(s) && HasListener(ThreadOf(s, env)) && HasListener(ThreadOf(s, e)) && e != env
    ensures ThreadOf(s, e).l.flag != ThreadOf(s, env).l.flag
  {
    assert ThreadFlags(s, e) && OwnedThread(s, e) && ThreadFlags(s, env) && OwnedThread(s, env);
    assert ThreadOf(s, e).l.ref.id in ThreadRefs(ThreadOf(s, e));
    assert ThreadOf(s, env).l.ref.id in ThreadRefs(ThreadOf(s, env));
    assert MadeBy(s, ThreadOf(s, e).l.flag, e) && MadeBy(s, ThreadOf(s, env).l.flag, env);
  }

  lemma PushThreadFlags(s: State, env: nat, l: Listener, e: nat)
    requires Conserved(s) && Flags(s) && HasListener(ThreadOf(s, env)) && l == ThreadOf(s, env).l
    ensures ThreadFlags(Push(s, env, l), e)
  {
    assert ThreadFlags(s, e);
    if e != env && HasListener(ThreadOf(s, e)) {
      OtherThreadsFlags(s, env, e);
    }
  }

  lemma PushFlags(s: State, env: nat, l: Listener)
    requires Conserved(s) && Flags(s) && HasListener(ThreadOf(s, env)) && l == ThreadOf(s, env).l
    ensures Flags(Push(s, env, l))
  {
    var t := Push(s, env, l);
    assert OwnedThread(s, env) && ThreadFlags(s, env) && l.ref.id in ThreadRefs(ThreadOf(s, env));
    assert MadeBy(s, l.flag, env);
    assert l in t.list && forall m :: m in t.list <==> m in s.list || m == l;
    forall f | f in t.accepted
      ensures f in t.deleting || Listed(t.list, f)
    {
      if f != l.flag && f !in s.deleting {
        var m :| m in s.list && m.flag == f;
        assert m in t.list;
      }
    }
    forall e: nat
      ensures ThreadFlags(t, e)
    {
      PushThreadFlags(s, env, l, e);
    }
  }

  lemma PushSound(s: State, env: nat, l: Listener)
    requires Sound(s) && HasListener(ThreadOf(s, env)) && l == ThreadOf(s, env).l
    requires s.mutex == None || s.mutex == Some(env)
    ensures Sound(Push(s, env, l))
  {
    var t := Push(s, env, l);
    PushConserves(s, env, l);
    PushFlags(s, env, l);
    assert forall m :: m in s.list ==> m in t.list;
    forall e: nat
      ensures CallSound(t, e) && (AddsUnderMutex(ThreadOf(t, e)) <==> t.mutex == Some(e))
    {
      assert CallSound(s, e) && (AddsUnderMutex(ThreadOf(s, e)) <==> s.mutex == Some(e));
    }
  }

  lemma OnCheckSound(simSlotCount: int, s: State, env: nat)
    requires Sound(s)
    ensures Sound(DoOnCheck(simSlotCount, s, env))
  {
    OnCheckConserves(simSlotCount, s, env);
    if ThreadOf(s, env).Pending? {
      var t, l := DoOnCheck(simSlotCount, s, env), ThreadOf(s, env).l;
      assert ThreadFlags(s, env) && (AddsUnderMutex(ThreadOf(s, env)) <==> s.mutex == Some(env));
      if t == Push(s, env, l) && s.mutex.None? {
        PushSound(s, env, l);
      } else {
        ThreadStepSound(s, t, env);
      }
    }
  }

  lemma AnswerSound(s: State, env: nat, ipc: Code, replayed: bool)
    requires Sound(s)
    ensures Sound(DoAnswer(s, env, ipc, replayed))
  {
    AnswerConserves(s, env, ipc, replayed);
    if ThreadOf(s, env).Adding? {
      assert ThreadFlags(s, env) && (AddsUnderMutex(ThreadOf(s, env)) <==> s.mutex == Some(env));
      ThreadStepSound(s, DoAnswer(s, env, ipc, replayed), env);
    }
  }

  lemma OnEndSound(s: State, env: nat)
    requires Sound(s)
    ensures Sound(DoOnPush(s, env)) && Sound(DoOnFail(s, env))
  {
    OnEndConserves(s, env);
    assert AddsUnderMutex(ThreadOf(s, env)) <==> s.mutex == Some(env);
    if ThreadOf(s, env).Added? {
      PushSound(s, env, ThreadOf(s, env).l);
    }
    if ThreadOf(s, env).Failed? {
      ThreadStepSound(s, DoOnFail(s, env), env);
    }
  }

  lemma TakeOutSound(s: State, t: State, sel: Selection)
    requires Sound(s) && ThreadOf(s, sel.env) == Idle && s.mutex.None?
    requires Conserved(t) && |t.madeBy| >= |s.madeBy| && t.mutex == s.mutex && t.work == s.work
    requires t.list == TakeOut(s, sel).list && t.deleting == TakeOut(s, sel).deleting && t.accepted == s.accepted
    requires forall e: nat :: e != sel.env ==> ThreadOf(t, e) == ThreadOf(s, e)
    requires ThreadOf(t, sel.env).Removing? || ThreadOf(t, sel.env) == Idle
    ensures Sound(t)
  {
    TakeOutKeepsFlags(s, sel);
    TakeOutKeepsWork(s, sel);
    var o := TakeOut(s, sel);
    forall e: nat
      ensures ThreadFlags(t, e) && CallSound(t, e) && (AddsUnderMutex(ThreadOf(t, e)) <==> t.mutex == Some(e))
    {
      assert ThreadFlags(o, e) && CallSound(o, e) && (AddsUnderMutex(ThreadOf(s, e)) <==> s.mutex == Some(e));
    }
  }

  lemma OffSound(s: State, env: nat, kind: Kind, fn: Option<int>)
    requires Sound(s)
    ensures Sound(DoOffStart(s, env, kind, fn)) && Sound(DoOffFinish(s, env)) && Sound(DoTeardown(s, env))
  {
    OffStartConserves(s, env, kind, fn);
    OffFinishConserves(s, env);
    TeardownConserves(s, env);
    assert AddsUnderMutex(ThreadOf(s, env)) <==> s.mutex == Some(env);
    if ThreadOf(s, env).Removing? {
      ThreadStepSound(s, DoOffFinish(s, env), env);
    }
    if ThreadOf(s, env) == Idle && s.mutex.None? {
      TakeOutSound(s, DoOffStart(s, env, kind, fn), Selection(env, {kind}, fn));
      TakeOutSound(s, DoTeardown(s, env), Everything(env));
    }
  }

  /** A step that touches only events and the dispatch log, and may queue copies of listeners. */
  lemma EventStepSound(s: State, t: State)
    requires Sound(s) && Conserved(t)
    requires t.list == s.list && t.deleting == s.deleting && t.accepted == s.accepted && t.madeBy == s.madeBy
    requires t.threads == s.threads && t.mutex == s.mutex && WorkSound(t)
    ensures Sound(t)
  {
    forall e: nat
      ensures ThreadFlags(t, e) && CallSound(t, e) && (AddsUnderMutex(ThreadOf(t, e)) <==> t.mutex == Some(e))
    {
      assert ThreadFlags(s, e) && CallSound(s, e) && (AddsUnderMutex(ThreadOf(s, e)) <==> s.mutex == Some(e));
    }
  }

  lemma DispatchSound(s: State, i: nat, defaultSlot: int, upTo: nat)
    requires Sound(s)
    ensures Sound(DoDispatch(s, i, defaultSlot, upTo))
  {
    var t := DoDispatch(s, i, defaultSlot, upTo);
    EventConserves(s, t);
    if i < |s.events| && s.mutex.None? {
      forall j | |s.work| <= j < |t.work|
        ensures t.work[j].w.to in t.list
      {
        assert t.work[j].w in WorkFor(s.list, s.events[i], defaultSlot);
        WorkForIs(s.list, s.events[i], defaultSlot, t.work[j].w);
      }
    }
    EventStepSound(s, t);
  }

  lemma CheckSound(s: State, i: nat)
    requires Sound(s)
    ensures Sound(DoCheck(s, i))
  {
    CheckConserves(s, i);
    if i < |s.work| && s.mutex.None? && ThreadOf(s, s.work[i].w.to.env) == Idle {
      var t := DoCheck(s, i);
      forall e: nat
        ensures ThreadFlags(t, e) && CallSound(t, e) && (AddsUnderMutex(ThreadOf(t, e)) <==> t.mutex == Some(e))
      {
        assert ThreadFlags(s, e) && CallSound(s, e) && (AddsUnderMutex(ThreadOf(s, e)) <==> s.mutex == Some(e));
      }
    }
  }

  lemma CallStepSound(s: State, env: nat)
    requires Sound(s)
    ensures Sound(DoCall(s, env))
  {
    CallConserves(s, env);
    if ThreadOf(s, env).Calling? {
      assert AddsUnderMutex(ThreadOf(s, env)) <==> s.mutex == Some(env);
      ThreadStepSound(s, DoCall(s, env), env);
    }
  }

  lemma OnStepSound(simSlotCount: int, s: State, a: Action)
    requires Sound(s) && (a.OnStart? || a.OnCheck? || a.Answer? || a.OnPush? || a.OnFail?)
    ensures Sound(Step(simSlotCount, s, a))
  {
    if a.OnStart? {
      OnStartSound(s, a.env, a.kind, a.slot, a.fn);
    } else if a.OnCheck? {
      OnCheckSound(simSlotCount, s, a.env);
    } else if a.Answer? {
      AnswerSound(s, a.env, a.ipc, a.replayed);
    } else {
      OnEndSound(s, a.env);
    }
  }

  lemma OffStepSound(simSlotCount: int, s: State, a: Action)
    requires Sound(s) && (a.OffStart? || a.OffFinish? || a.Teardown?)
    ensures Sound(Step(simSlotCount, s, a))
  {
    if a.OffStart? {
      OffSound(s, a.env, a.kind, a.only);
    } else {
      OffSound(s, a.env, SimState, None);
    }
  }

  lemma PostSound(s: State, kind: Kind, slot: int)
    requires Sound(s)
    ensures Sound(Arrived(s, Event(kind, slot, None)))
  {
    var t := Arrived(s, Event(kind, slot, None));
    EventConserves(s, t);
    EventStepSound(s, t);
  }

  lemma QueueStepSound(simSlotCount: int, s: State, a: Action)
    requires Sound(s) && (a.Post? || a.DispatchEvent? || a.Check? || a.Call?)
    ensures Sound(Step(simSlotCount, s, a))
  {
    if a.Post? {
      PostSound(s, a.kind, a.slot);
    } else if a.DispatchEvent? {
      DispatchSound(s, a.i, a.defaultSlot, a.upTo);
    } else if a.Check? {
      CheckSound(s, a.i);
    } else {
      CallStepSound(s, a.env);
    }
  }

  lemma StepSound(simSlotCount: int, s: State, a: Action)
    requires Sound(s)
    ensures Sound(Step(simSlotCount, s, a))
  {
    if a.OnStart? || a.OnCheck? || a.Answer? || a.OnPush? || a.OnFail? {
      OnStepSound(simSlotCount, s, a);
    } else if a.OffStart? || a.OffFinish? || a.Teardown? {
      OffStepSound(simSlotCount, s, a);
    } else {
      QueueStepSound(simSlotCount, s, a);
    }
  }

  lemma {:induction false} RunSound(simSlotCount: int, actions: seq<Action>)
    ensures Sound(Run(simSlotCount, actions))
  {
    if actions == [] {
      assert Conserved(Init());
    } else {
      RunSound(simSlotCount, actions[..|actions| - 1]);
      StepSound(simSlotCount, Run(simSlotCount, actions[..|actions| - 1]), actions[|actions| - 1]);
    }
  }

  // ---------------------------------------------------------------- the deletion flag

  /** In every reachable state the flag of an accepted listener is set exactly when the listener is
      not in the list. */
  lemma FlagsAlwaysExact(simSlotCount: int, s: State)
    requires Reachable(simSlotCount, s)
    ensures FlagsExact(s)
  {
    var actions :| s == Run(simSlotCount, actions);
    RunSound(simSlotCount, actions);
  }

  /** A JS thread that passed the check is about to use a reference that has not been deleted, of a
      listener still in the list. */
  lemma CheckedReferenceIsLive(simSlotCount: int, s: State, env: nat)
    requires Reachable(simSlotCount, s) && ThreadOf(s, env).Calling?
    ensures var l := ThreadOf(s, env).item.w.to;
            l in s.list && l.env == env && l.flag !in s.deleting && l.ref.id !in s.deleted
  {
    var actions :| s == Run(simSlotCount, actions);
    RunSound(simSlotCount, actions);
    assert CallSound(s, env);
    var l := ThreadOf(s, env).item.w.to;
    IdsOfIs(s.list, l.ref.id);
    assert MadeBy(s, l.ref.id, l.env);
    assert Places(s, l.ref.id) == 1;
  }

  /** Flags stay set, invocations stay recorded, and a step invokes only listeners in the list. */
  lemma StepSilent(simSlotCount: int, s: State, a: Action)
    requires Sound(s)
    ensures var t := Step(simSlotCount, s, a);
            s.deleting <= t.deleting && s.invoked <= t.invoked
            && forall j :: |s.invoked| <= j < |t.invoked| ==> t.invoked[j].w.to.flag !in s.deleting
  {
    if a.Call? {
      assert CallSound(s, a.env);
    }
  }

  lemma {:induction false} Silence(simSlotCount: int, actions: seq<Action>, k: nat)
    requires k <= |actions|
    ensures var s, t := Run(simSlotCount, actions[..k]), Run(simSlotCount, actions);
            s.deleting <= t.deleting && s.invoked <= t.invoked
            && forall j :: |s.invoked| <= j < |t.invoked| ==> t.invoked[j].w.to.flag !in s.deleting
  {
    if k == |actions| {
      assert actions[..k] == actions;
    } else {
      var front := actions[..|actions| - 1];
      assert front[..k] == actions[..k];
      Silence(simSlotCount, front, k);
      RunSound(simSlotCount, front);
      StepSilent(simSlotCount, Run(simSlotCount, front), actions[|actions| - 1]);
    }
  }

  /** The listeners an `off` or a teardown takes, when the step is enabled. */
  ghost predicate TakesListener(s: State, a: Action, l: Listener) {
    && l in s.list && s.mutex.None?
    && match a
       case OffStart(env, kind, fn) => ThreadOf(s, env) == Idle && Matches(Selection(env, {kind}, fn), l)
       case Teardown(env) => ThreadOf(s, env) == Idle && l.env == env
       case _ => false
  }

  lemma TakenIsFlagged(s: State, sel: Selection, l: Listener)
    requires l in s.list && Matches(sel, l)
    ensures l.flag in TakeOut(s, sel).deleting
  {
    KeptMembers(s.list, sel, l);
  }

  /** The removal sets the flag of every listener it takes. */
  lemma TakesSetsFlag(simSlotCount: int, s: State, a: Action, l: Listener)
    requires TakesListener(s, a, l)
    ensures l.flag in Step(simSlotCount, s, a).deleting
  {
    if a.OffStart? {
      TakenIsFlagged(s, Selection(a.env, {a.kind}, a.only), l);
    } else {
      EverythingMatches(a.env, l);
      TakenIsFlagged(s, Everything(a.env), l);
    }
  }

  lemma RunAfter(simSlotCount: int, actions: seq<Action>, k: nat)
    requires k < |actions|
    ensures Run(simSlotCount, actions[..k + 1]) == Step(simSlotCount, Run(simSlotCount, actions[..k]), actions[k])
  {
    var after := actions[..k + 1];
    assert after[..k] == actions[..k] && after[k] == actions[k];
  }

  lemma InvokedGrows(simSlotCount: int, s: State, a: Action)
    ensures (a.OffStart? || a.Teardown?) ==> Step(simSlotCount, s, a).invoked == s.invoked
  {
  }

  /** No callback after deregistration: in every interleaving, once an `off` or a teardown took a
      listener, no work item invokes it, whether queued before or after. */
  lemma NoCallbackAfterOff(simSlotCount: int, actions: seq<Action>, k: nat, l: Listener)
    requires k < |actions| && TakesListener(Run(simSlotCount, actions[..k]), actions[k], l)
    ensures var s, t := Run(simSlotCount, actions[..k]), Run(simSlotCount, actions);
            forall j :: |s.invoked| <= j < |t.invoked| ==> t.invoked[j].w.to.flag != l.flag
  {
    var s := Run(simSlotCount, actions[..k]);
    TakesSetsFlag(simSlotCount, s, actions[k], l);
    InvokedGrows(simSlotCount, s, actions[k]);
    RunAfter(simSlotCount, actions, k);
    Silence(simSlotCount, actions, k + 1);
  }
}
