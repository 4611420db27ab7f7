/** The listener table of the NAPI front end, as its methods change it under the table mutex. */
module NapiListeners {
  import opened Kinds
  import opened Records
  import opened Listeners

  datatype Status = EventListenerDiff | EventListenerSame | EventListenerPairSame

  /** The kinds whose first registration asks the service to replay the cached value. */
  predicate NotifyNow(k: Kind) {
    k == CallState || k == SimState || k == CallStateEx || k == CCallState || k == SimActive
  }

  predicate IsCallKind(k: Kind) {
    k == CallState || k == CallStateEx || k == CCallState || k == VoIPCall
  }

  /** The slots a NAPI `on` may name. */
  predicate IsValidSlotIdEx(simSlotCount: int, kind: Kind, slot: int) {
    (if IsCallKind(kind) then -1 else 0) <= slot < simSlotCount + 1 || slot == ALL_SLOTS
  }

  /** Two listeners of one environment, slot and event type with strictly equal functions. */
  predicate IsSame(a: Listener, b: Listener) {
    a.env == b.env && PairOf(a) == PairOf(b) && a.ref.fn == b.ref.fn
  }

  function FlagsOf(list: seq<Listener>): set<nat> {
    set l | l in list :: l.flag
  }

  function RefsOf(list: seq<Listener>): (rs: seq<Ref>)
    ensures |rs| == |list| && forall i :: 0 <= i < |list| ==> rs[i] == list[i].ref
  {
    seq(|list|, i requires 0 <= i < |list| => list[i].ref)
  }

  lemma OneMore(list: seq<Listener>, l: Listener)
    ensures PairsOf(list + [l]) == PairsOf(list) + {PairOf(l)}
    ensures FlagsOf(list + [l]) == FlagsOf(list) + {l.flag}
    ensures RefsOf(list + [l]) == RefsOf(list) + [l.ref]
  {
    assert forall m :: m in list + [l] <==> m in list || m == l;
  }

  lemma FlagOneMore(flags: set<nat>, list: seq<Listener>, l: Listener)
    ensures flags + FlagsOf(list + [l]) == (flags + FlagsOf(list)) + {l.flag}
    ensures PairsOf(list + [l]) == PairsOf(list) + {PairOf(l)}
  {
    OneMore(list, l);
  }

  /** A teardown takes every listener of the environment. */
  lemma EverythingMatches(env: nat, l: Listener)
    ensures Matches(Selection(env, KindsOf(ALL_KINDS), None), l) <==> l.env == env
  {
    EveryKindListed();
  }

  /** The selection names one environment, every kind and no single callback. */
  ghost predicate IsEverything(sel: Selection, env: nat) {
    sel.env == env && sel.fn.None? && forall k: Kind :: k in sel.kinds
  }

  lemma RefOneMore(refs: seq<Ref>, list: seq<Listener>, l: Listener)
    ensures refs + RefsOf(list + [l]) == (refs + RefsOf(list)) + [l.ref]
  {
    OneMore(list, l);
  }

  /** An arriving update. `cause` is the flag of the listener whose registration made the service
      replay, when that is where the event comes from. */
  datatype Event = Event(kind: Kind, slot: int, cause: Option<nat>)

  /** A queued work item: a copy of a listener's fields, and the event. */
  datatype Work = Work(to: Listener, event: Event)

  /** Whether an event is for a listener. `defaultSlot` is the default data slot at that moment,
      which the pseudo slot 999 of the two data kinds stands for. */
  predicate NeedsHandling(l: Listener, e: Event, defaultSlot: int) {
    && l.kind == e.kind
    && (e.kind == IccAccount || l.slot == e.slot
        || (IsDefaultDataKind(l.kind) && l.slot == ALL_SLOTS && e.slot == defaultSlot))
  }

  function WorkFor(list: seq<Listener>, e: Event, defaultSlot: int): seq<Work> {
    if list == [] then []
    else
      var l := list[|list| - 1];
      var rest := WorkFor(list[..|list| - 1], e, defaultSlot);
      if NeedsHandling(l, e, defaultSlot) then rest + [Work(l, e)] else rest
  }

  lemma WorkForSnoc(list: seq<Listener>, l: Listener, e: Event, defaultSlot: int)
    ensures WorkFor(list + [l], e, defaultSlot)
            == WorkFor(list, e, defaultSlot) + if NeedsHandling(l, e, defaultSlot) then [Work(l, e)] else []
  {
    assert (list + [l])[..|list|] == list;
  }

  lemma {:induction false} WorkForGrows(list: seq<Listener>, n: nat, e: Event, defaultSlot: int)
    requires n <= |list|
    ensures WorkFor(list[..n], e, defaultSlot) <= WorkFor(list, e, defaultSlot)
  {
    if n < |list| {
      var front := list[..|list| - 1];
      assert front[..n] == list[..n];
      WorkForGrows(front, n, e, defaultSlot);
    } else {
      assert list[..n] == list;
    }
  }

  lemma {:induction false} WorkForIs(list: seq<Listener>, e: Event, defaultSlot: int, w: Work)
    ensures w in WorkFor(list, e, defaultSlot) <==> w.event == e && w.to in list && NeedsHandling(w.to, e, defaultSlot)
  {
    if list != [] {
      WorkForIs(list[..|list| - 1], e, defaultSlot, w);
    }
  }

  /** The table after a registration, the requests it made, and the code it returned, when the
      service answers `ipc` to a request. */
  ghost function Registered(list: seq<Listener>, l: Listener, ipc: Code): (seq<Listener>, seq<Request>, Code) {
    if exists m :: m in list && IsSame(m, l) then (list, [], AlreadyRegistered)
    else if PairOf(l) in PairsOf(list) then (list + [l], [], Success)
    else (if ipc == Success then list + [l] else list, [Add(PairOf(l), NotifyNow(l.kind))], ipc)
  }

  /** `deleting` holds the shared flags that are set; `requests` are the calls made to the service
      so far; `deletedRefs` the references deleted by teardown. */
  class EventListenerHandler {
    var listenerList: seq<Listener>
    var deleting: set<nat>
    var requests: seq<Request>
    var deletedRefs: seq<Ref>

    constructor ()
      ensures listenerList == [] && deleting == {} && requests == [] && deletedRefs == []
    {
      listenerList, deleting, requests, deletedRefs := [], {}, [], [];
    }

    /** The scan stops at the first listener that is the same; otherwise it has seen the whole list. */
    method CheckEventListenerRegister(l: Listener) returns (status: Status)
      ensures status == EventListenerSame <==> exists m :: m in listenerList && IsSame(m, l)
      ensures status == EventListenerSame <==>
                exists m :: m in listenerList && m.env == l.env && PairOf(m) == PairOf(l) && m.ref.fn == l.ref.fn
      ensures status == EventListenerPairSame <==>
                PairOf(l) in PairsOf(listenerList) && !exists m :: m in listenerList && IsSame(m, l)
    {
      status := EventListenerDiff;
      for i := 0 to |listenerList|
        invariant status != EventListenerSame
        invariant forall m :: m in listenerList[..i] ==> !IsSame(m, l)
        invariant status == EventListenerPairSame <==> PairOf(l) in PairsOf(listenerList[..i])
      {
        var listen := listenerList[i];
        if IsSame(listen, l) {
          return EventListenerSame;
        }
        if PairOf(l) == PairOf(listen) {
          status := EventListenerPairSame;
        }
        assert listenerList[..i + 1] == listenerList[..i] + [listen];
      }
      assert listenerList[..|listenerList|] == listenerList;
    }

    method RegisterEventListener(l: Listener, ipc: Code) returns (code: Code)
      modifies `listenerList, `requests
      ensures listenerList == Registered(old(listenerList), l, ipc).0
      ensures requests == old(requests) + Registered(old(listenerList), l, ipc).1
      ensures code == Registered(old(listenerList), l, ipc).2
    {
      var status := CheckEventListenerRegister(l);
      if status == EventListenerSame {
        return AlreadyRegistered;
      }
      if status != EventListenerPairSame {
        requests := requests + [Add(PairOf(l), NotifyNow(l.kind))];
        if ipc != Success {
          return ipc;
        }
      }
      listenerList := listenerList + [l];
      code := Success;
    }

    /** The erase loop: matching listeners leave the list in place, their flags are set, and the
        others keep their order. */
    method RemoveEventListenerRegister(sel: Selection) returns (removed: seq<Listener>, pairs: set<Pair>)
      modifies `listenerList, `deleting
      ensures removed == Removed(old(listenerList), sel) && listenerList == Kept(old(listenerList), sel)
      ensures deleting == old(deleting) + FlagsOf(removed)
      ensures pairs == PairsOf(removed)
    {
      removed, pairs := [], {};
      var it := 0;
      ghost var seen: seq<Listener>, kept: seq<Listener>, rest := [], [], listenerList;
      while it < |listenerList|
        invariant listenerList == kept + rest && |kept| == it && old(listenerList) == seen + rest
        invariant kept == Kept(seen, sel) && removed == Removed(seen, sel)
        invariant deleting == old(deleting) + FlagsOf(removed)
        invariant pairs == PairsOf(removed)
        decreases |rest|
      {
        var l := listenerList[it];
        EraseStep(kept, rest);
        EraseStep(seen, rest);
        KeptSnoc(seen, l, sel);
        if Matches(sel, l) {
          deleting := deleting + {l.flag};
          pairs := pairs + {PairOf(l)};
          FlagOneMore(old(deleting), removed, l);
          removed := removed + [l];
          listenerList := listenerList[..it] + listenerList[it + 1..];
        } else {
          kept := kept + [l];
          it := it + 1;
        }
        seen, rest := seen + [l], rest[1..];
      }
      assert rest == [] && seen + rest == seen && kept + rest == kept;
    }

    method CheckEventTypeExist(p: Pair) returns (found: bool)
      ensures found <==> p in PairsOf(listenerList)
    {
      for i := 0 to |listenerList|
        invariant forall j :: 0 <= j < i ==> PairOf(listenerList[j]) != p
      {
        if PairOf(listenerList[i]) == p {
          return true;
        }
      }
      found := false;
    }

    method CheckRemoveStateObserver(p: Pair, result: Code, ret: Pair -> Code) returns (after: Code)
      modifies `requests
      ensures requests == old(requests) + if p in PairsOf(listenerList) then [] else [Remove(p)]
      ensures after == if p !in PairsOf(listenerList) && ret(p) != Success then ret(p) else result
    {
      after := result;
      var found := CheckEventTypeExist(p);
      if !found {
        requests := requests + [Remove(p)];
        if ret(p) != Success {
          after := ret(p);
        }
      }
    }

    /** Walks a set of pairs in ascending order and asks the service to drop those that no
        listener stands for; a failure does not stop the walk. */
    method DropUnused(pairs: set<Pair>, ret: Pair -> Code) returns (result: Code)
      modifies `requests
      ensures requests == old(requests) + Removes(Gone(Ascending(pairs), PairsOf(listenerList)))
      ensures result == LastFailure(Gone(Ascending(pairs), PairsOf(listenerList)), ret)
    {
      result := Success;
      var rest := pairs;
      ghost var walked: seq<Pair> := [];
      ghost var held := PairsOf(listenerList);
      while rest != {}
        invariant Ascending(pairs) == walked + Ascending(rest)
        invariant requests == old(requests) + Removes(Gone(walked, held))
        invariant result == LastFailure(Gone(walked, held), ret)
        decreases |rest|
      {
        LeastExists(rest);
        var p :| p in rest && IsLeast(rest, p);
        AscendingStep(walked, rest, p);
        WalkStep(old(requests), walked, p, held, ret);
        result := CheckRemoveStateObserver(p, result, ret);
        walked := walked + [p];
        rest := rest - {p};
      }
      assert walked + Ascending(rest) == walked;
    }

    /** `off`: every removed listener's flag is set before the service is asked, all slots are
        tried, and the last failure is the answer. */
    method UnregisterEventListener(sel: Selection, ret: Pair -> Code) returns (result: Code, removed: seq<Listener>)
      requires |sel.kinds| == 1
      modifies `listenerList, `deleting, `requests
      ensures removed == Removed(old(listenerList), sel) && listenerList == Kept(old(listenerList), sel)
      ensures deleting == old(deleting) + FlagsOf(removed)
      ensures requests == old(requests) + Removes(RemovalRequests(old(listenerList), sel))
      ensures result == LastFailure(RemovalRequests(old(listenerList), sel), ret)
    {
      if listenerList == [] {
        return Success, [];
      }
      var pairs;
      removed, pairs := RemoveEventListenerRegister(sel);
      result := DropUnused(pairs, ret);
    }

    /** Dispatch: queues a work item for each listener the event is for, in list order, up to the
        first whose environment has no event loop or whose item the loop does not take. `stop` is the
        place of that listener, or the length of the list. */
    method HandleCallbackInfoUpdate(e: Event, defaultSlot: int, hasLoop: nat -> bool, takesItem: nat -> bool)
      returns (queued: seq<Work>, stop: nat)
      ensures stop <= |listenerList| && queued == WorkFor(listenerList[..stop], e, defaultSlot)
      ensures queued <= WorkFor(listenerList, e, defaultSlot)
      ensures forall i :: 0 <= i < stop && NeedsHandling(listenerList[i], e, defaultSlot) ==>
                hasLoop(listenerList[i].env) && takesItem(i)
      ensures stop < |listenerList| ==>
                && NeedsHandling(listenerList[stop], e, defaultSlot)
                && !(hasLoop(listenerList[stop].env) && takesItem(stop))
    {
      queued, stop := [], 0;
      while stop < |listenerList|
        invariant stop <= |listenerList| && queued == WorkFor(listenerList[..stop], e, defaultSlot)
        invariant forall i :: 0 <= i < stop && NeedsHandling(listenerList[i], e, defaultSlot) ==>
                    hasLoop(listenerList[i].env) && takesItem(i)
      {
        var listen := listenerList[stop];
        assert listenerList[..stop + 1] == listenerList[..stop] + [listen];
        WorkForSnoc(listenerList[..stop], listen, e, defaultSlot);
        if NeedsHandling(listen, e, defaultSlot) {
          if !hasLoop(listen.env) {
            break;
          }
          if !takesItem(stop) {
            break;
          }
          queued := queued + [Work(listen, e)];
        }
        stop := stop + 1;
      }
      WorkForGrows(listenerList, stop, e, defaultSlot);
    }

    /** The `remove_if` of a teardown: flags and references go with the listeners. `sel` names in the
        specification what the closure tests. */
    method RemoveIf(env: nat, ghost sel: Selection) returns (pairs: set<Pair>)
      requires IsEverything(sel, env)
      modifies `listenerList, `deleting, `deletedRefs
      ensures listenerList == Kept(old(listenerList), sel)
      ensures deleting == old(deleting) + FlagsOf(Removed(old(listenerList), sel))
      ensures deletedRefs == old(deletedRefs) + RefsOf(Removed(old(listenerList), sel))
      ensures pairs == PairsOf(Removed(old(listenerList), sel))
    {
      pairs := {};
      var kept: seq<Listener>, i := [], 0;
      ghost var seen: seq<Listener>, rest, removed: seq<Listener> := [], listenerList, [];
      while i < |listenerList|
        invariant unchanged(`listenerList) && listenerList == seen + rest && |seen| == i
        invariant kept == Kept(seen, sel) && removed == Removed(seen, sel)
        invariant deleting == old(deleting) + FlagsOf(removed)
        invariant deletedRefs == old(deletedRefs) + RefsOf(removed)
        invariant pairs == PairsOf(removed)
        decreases |rest|
      {
        var l := listenerList[i];
        EraseStep(seen, rest);
        KeptSnoc(seen, l, sel);
        if l.env == env {
          deleting := deleting + {l.flag};
          pairs := pairs + {PairOf(l)};
          deletedRefs := deletedRefs + [l.ref];
          FlagOneMore(old(deleting), removed, l);
          RefOneMore(old(deletedRefs), removed, l);
          removed := removed + [l];
        } else {
          kept := kept + [l];
        }
        seen, rest, i := seen + [l], rest[1..], i + 1;
      }
      assert rest == [] && seen + rest == seen;
      listenerList := kept;
    }

    /** Environment teardown: every listener of the environment is removed, flagged and its
        reference deleted, and every pair that lost its last listener is dropped. */
    method UnRegisterAllListener(env: nat, ret: Pair -> Code)
      modifies this
      ensures var sel := Selection(env, KindsOf(ALL_KINDS), None);
              && listenerList == Kept(old(listenerList), sel)
              && deleting == old(deleting) + FlagsOf(Removed(old(listenerList), sel))
              && deletedRefs == old(deletedRefs) + RefsOf(Removed(old(listenerList), sel))
              && requests == old(requests) + Removes(RemovalRequests(old(listenerList), sel))
    {
      if listenerList == [] {
        return;
      }
      EveryKindListed();
      var pairs := RemoveIf(env, Selection(env, KindsOf(ALL_KINDS), None));
      var _ := DropUnused(pairs, ret);
    }
  }
}
