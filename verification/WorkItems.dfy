/** What becomes of queued work: in every interleaving each work item is in exactly one place, so
    none is invoked twice and none is lost for a listener that is still listed. */
module WorkItems {
  import opened CallbackQueue
  import opened CallbackSafety
  import opened Napi = NapiListeners

  /** The JS thread of the item's environment passed the check and is about to call. */
  predicate InCall(s: State, x: Item) {
    ThreadOf(s, x.w.to.env) == Calling(x)
  }

  /** In how many places an item is: waiting, about to be called, invoked, skipped. */
  function Spots(s: State, x: Item): nat {
    multiset(s.work)[x] + (if InCall(s, x) then 1 else 0) + multiset(s.invoked)[x] + multiset(s.skipped)[x]
  }

  predicate Known(s: State, x: Item) {
    x.no < |s.queued| && s.queued[x.no] == x.w
  }

  ghost predicate PlacedAreKnown(s: State) {
    forall x :: Spots(s, x) > 0 ==> Known(s, x)
  }

  predicate EachOnce(s: State) {
    forall no :: 0 <= no < |s.queued| ==> Spots(s, Item(no, s.queued[no])) == 1
  }

  predicate SkippedFlagged(s: State) {
    forall x :: x in s.skipped ==> x.w.to.flag in s.deleting
  }

  /** The work all dispatches queued, in order. */
  function AllQueued(ds: seq<Dispatch>): seq<Work> {
    if ds == [] then [] else AllQueued(ds[..|ds| - 1]) + ds[|ds| - 1].queued
  }

  ghost predicate Tracked(s: State) {
    PlacedAreKnown(s) && EachOnce(s) && SkippedFlagged(s) && s.queued == AllQueued(s.dispatches)
  }

  lemma {:induction false} NumberedCount(n: nat, ws: seq<Work>, x: Item)
    ensures multiset(Numbered(n, ws))[x] == if n <= x.no < n + |ws| && ws[x.no - n] == x.w then 1 else 0
  {
    if ws != [] {
      var m := |ws| - 1;
      NumberedCount(n, ws[..m], x);
      assert Numbered(n, ws) == Numbered(n, ws[..m]) + [Item(n + m, ws[m])];
    }
  }

  /** A step of one thread that touches no item and is not a call. */
  ghost predicate SameItems(s: State, t: State, env: nat) {
    && t.work == s.work && t.queued == s.queued && t.dispatches == s.dispatches
    && t.invoked == s.invoked && t.skipped == s.skipped && s.deleting <= t.deleting
    && (forall e: nat :: e != env ==> ThreadOf(t, e) == ThreadOf(s, e))
    && (ThreadOf(t, env) == ThreadOf(s, env) || (!ThreadOf(t, env).Calling? && !ThreadOf(s, env).Calling?))
  }

  lemma ItemsUntouched(s: State, t: State, env: nat)
    requires Tracked(s) && SameItems(s, t, env)
    ensures Tracked(t)
  {
    forall x
      ensures Spots(t, x) == Spots(s, x)
    {
      assert InCall(t, x) <==> InCall(s, x);
    }
  }

  lemma SpotsOfMore(s: State, t: State, added: seq<Item>, x: Item)
    requires t.work == s.work + added && t.threads == s.threads && t.invoked == s.invoked && t.skipped == s.skipped
    ensures Spots(t, x) == Spots(s, x) + multiset(added)[x]
  {
    assert multiset(t.work) == multiset(s.work) + multiset(added);
  }

  /** A dispatch gives exactly its own new items a place. */
  lemma DispatchSpots(s: State, i: nat, defaultSlot: int, upTo: nat, x: Item)
    requires i < |s.events| && s.mutex.None?
    ensures var t := DoDispatch(s, i, defaultSlot, upTo);
            Spots(t, x) == Spots(s, x) + if Known(t, x) && x.no >= |s.queued| then 1 else 0
  {
    var t := DoDispatch(s, i, defaultSlot, upTo);
    var all := WorkFor(s.list, s.events[i], defaultSlot);
    var added := all[..if upTo < |all| then upTo else |all|];
    SpotsOfMore(s, t, Numbered(|s.queued|, added), x);
    NumberedCount(|s.queued|, added, x);
  }

  lemma DispatchTracked(s: State, i: nat, defaultSlot: int, upTo: nat)
    requires Tracked(s)
    ensures Tracked(DoDispatch(s, i, defaultSlot, upTo))
  {
    var t := DoDispatch(s, i, defaultSlot, upTo);
    if i < |s.events| && s.mutex.None? {
      forall x
        ensures Spots(t, x) == Spots(s, x) + if Known(t, x) && x.no >= |s.queued| then 1 else 0
      {
        DispatchSpots(s, i, defaultSlot, upTo, x);
      }
      QueuedStep(s, i, defaultSlot, upTo);
    }
  }

  lemma QueuedStep(s: State, i: nat, defaultSlot: int, upTo: nat)
    requires i < |s.events| && s.mutex.None? && s.queued == AllQueued(s.dispatches)
    ensures var t := DoDispatch(s, i, defaultSlot, upTo);
            s.queued <= t.queued && t.queued == AllQueued(t.dispatches)
  {
    var t := DoDispatch(s, i, defaultSlot, upTo);
    assert t.dispatches[..|s.dispatches|] == s.dispatches;
  }

  lemma WithoutOne(work: seq<Item>, i: nat)
    requires i < |work|
    ensures multiset(work) == multiset(work[..i] + work[i + 1..]) + multiset{work[i]}
  {
    assert work == work[..i] + [work[i]] + work[i + 1..];
  }

  lemma CheckSpots(s: State, i: nat, x: Item)
    requires i < |s.work|
    ensures Spots(DoCheck(s, i), x) == Spots(s, x)
  {
    WithoutOne(s.work, i);
    var t := DoCheck(s, i);
    if t != s && s.work[i].w.to.flag in s.deleting {
      assert t.skipped == s.skipped + [s.work[i]] && t.threads == s.threads;
    } else if t != s {
      assert InCall(t, x) <==> InCall(s, x) || x == s.work[i];
    }
  }

  lemma CheckTracked(s: State, i: nat)
    requires Tracked(s)
    ensures Tracked(DoCheck(s, i))
  {
    var t := DoCheck(s, i);
    if i < |s.work| {
      forall x
        ensures Spots(t, x) == Spots(s, x)
      {
        CheckSpots(s, i, x);
      }
      CheckFrame(s, i);
    }
  }

  lemma CheckFrame(s: State, i: nat)
    requires i < |s.work| && SkippedFlagged(s)
    ensures var t := DoCheck(s, i);
            t.queued == s.queued && t.dispatches == s.dispatches && SkippedFlagged(t)
  {
  }

  lemma CallTracked(s: State, env: nat)
    requires Tracked(s) && CallSound(s, env)
    ensures Tracked(DoCall(s, env))
  {
    assert forall x :: Spots(DoCall(s, env), x) == Spots(s, x);
  }

  lemma OnCheckSameItems(simSlotCount: int, s: State, env: nat)
    ensures SameItems(s, DoOnCheck(simSlotCount, s, env), env)
  {
    if ThreadOf(s, env).Pending? {
      var l := ThreadOf(s, env).l;
      var t := DoOnCheck(simSlotCount, s, env);
      assert t == s || t == Push(s, env, l) || t.threads == s.threads[env := ThreadOf(t, env)];
    }
  }

  lemma OnStepSameItems(simSlotCount: int, s: State, a: Action)
    requires a.OnStart? || a.OnCheck? || a.Answer? || a.OnPush? || a.OnFail?
    ensures SameItems(s, Step(simSlotCount, s, a), a.env)
  {
    if a.OnCheck? {
      OnCheckSameItems(simSlotCount, s, a.env);
    }
  }

  lemma OffStepSameItems(simSlotCount: int, s: State, a: Action)
    requires a.OffStart? || a.OffFinish? || a.Teardown?
    ensures SameItems(s, Step(simSlotCount, s, a), a.env)
  {
  }

  lemma StepTracked(simSlotCount: int, s: State, a: Action)
    requires Tracked(s) && Sound(s)
    ensures Tracked(Step(simSlotCount, s, a))
  {
    if a.OnStart? || a.OnCheck? || a.Answer? || a.OnPush? || a.OnFail? {
      OnStepSameItems(simSlotCount, s, a);
      ItemsUntouched(s, Step(simSlotCount, s, a), a.env);
    } else if a.OffStart? || a.OffFinish? || a.Teardown? {
      OffStepSameItems(simSlotCount, s, a);
      ItemsUntouched(s, Step(simSlotCount, s, a), a.env);
    } else if a.DispatchEvent? {
      DispatchTracked(s, a.i, a.defaultSlot, a.upTo);
    } else if a.Check? {
      CheckTracked(s, a.i);
    } else if a.Call? {
      assert CallSound(s, a.env);
      CallTracked(s, a.env);
    } else {
      ItemsUntouched(s, Step(simSlotCount, s, a), 0);
    }
  }

  lemma {:induction false} RunTracked(simSlotCount: int, actions: seq<Action>)
    ensures Tracked(Run(simSlotCount, actions))
  {
    if actions != [] {
      var front := actions[..|actions| - 1];
      RunTracked(simSlotCount, front);
      RunSound(simSlotCount, front);
      StepTracked(simSlotCount, Run(simSlotCount, front), actions[|actions| - 1]);
    }
  }

  /** In every reachable state each work item a dispatch ever queued is in exactly one place: it waits
      in its loop, its JS thread is about to call, it was invoked once, or it was skipped, and then
      its listener has left the list. So no item is invoked twice and none of a listener still in the
      list is lost: once nothing waits, each was invoked exactly once. */
  lemma EveryItemOnce(simSlotCount: int, s: State, no: nat)
    requires Reachable(simSlotCount, s) && no < |s.queued|
    ensures s.queued == AllQueued(s.dispatches)
    ensures var x := Item(no, s.queued[no]);
            && multiset(s.work)[x] + (if InCall(s, x) then 1 else 0)
               + multiset(s.invoked)[x] + multiset(s.skipped)[x] == 1
            && (x in s.skipped ==> x.w.to.flag in s.deleting && x.w.to !in s.list)
            && (x.w.to in s.list && x !in s.work && !InCall(s, x) ==> multiset(s.invoked)[x] == 1)
  {
    var actions :| s == Run(simSlotCount, actions);
    RunTracked(simSlotCount, actions);
    RunSound(simSlotCount, actions);
    assert Spots(s, Item(no, s.queued[no])) == 1;
  }

  /** Only queued work is ever invoked. */
  lemma OnlyQueuedInvoked(simSlotCount: int, s: State, j: nat)
    requires Reachable(simSlotCount, s) && j < |s.invoked|
    ensures Known(s, s.invoked[j])
    ensures forall k :: 0 <= k < |s.invoked| && k != j ==> s.invoked[k] != s.invoked[j]
  {
    var actions :| s == Run(simSlotCount, actions);
    RunTracked(simSlotCount, actions);
    var x := s.invoked[j];
    assert multiset(s.invoked)[x] > 0 && Spots(s, x) > 0;
    assert Spots(s, Item(x.no, s.queued[x.no])) == 1;
    forall k | 0 <= k < |s.invoked| && k != j
      ensures s.invoked[k] != x
    {
      AtMostOnce(s.invoked, x, k, j);
    }
  }

  lemma AtMostOnce(items: seq<Item>, x: Item, j: nat, k: nat)
    requires multiset(items)[x] == 1 && j < |items| && k < |items| && j != k && items[k] == x
    ensures items[j] != x
  {
    var a, b := if j < k then j else k, if j < k then k else j;
    assert items == items[..a] + [items[a]] + items[a + 1..b] + [items[b]] + items[b + 1..];
  }
}
