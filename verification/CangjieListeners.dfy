/** The listener table of the Cangjie front end. */
module CangjieListeners {
  import opened Kinds
  import opened Records
  import opened Listeners
  import opened Subscriptions

  /** `funcId` -1 is the wildcard of an `off` for every callback; `flag` names the shared
      `isDeleting` cell. */
  datatype CjListener = CjListener(kind: Kind, slot: int, funcId: int, flag: nat)

  function SubOf(l: CjListener): Sub {
    Sub(l.slot, l.kind, l.funcId)
  }

  function Subs(list: seq<CjListener>): seq<Sub> {
    if list == [] then [] else Subs(list[..|list| - 1]) + [SubOf(list[|list| - 1])]
  }

  lemma {:induction false} SubsMembers(list: seq<CjListener>, s: Sub)
    ensures s in Subs(list) <==> exists l :: l in list && SubOf(l) == s
  {
    if list != [] {
      SubsMembers(list[..|list| - 1], s);
    }
  }

  function FuncIds(list: seq<CjListener>): (ids: seq<int>)
    ensures |ids| == |list| && forall i :: 0 <= i < |ids| ==> ids[i] == list[i].funcId
  {
    seq(|list|, i requires 0 <= i < |list| => list[i].funcId)
  }

  function Wildcard(funcId: int): Option<int> {
    if funcId == -1 then None else Some(funcId)
  }

  /** The event types of the Cangjie event map; an `on` or `off` of any other is refused. */
  predicate HasEventType(kind: Kind) {
    kind != CallStateEx && kind != CCallState && kind != SimActive && kind != VoIPCall
  }

  /** The slots a Cangjie `on` may name. */
  predicate IsValidSlotIdEx(simSlotCount: int, kind: Kind, slot: int) {
    (if kind == CallState then -1 else 0) <= slot < simSlotCount + 1
  }

  function CjPairs(list: seq<CjListener>): set<Pair> {
    set l | l in list :: Pair(l.slot, l.kind)
  }

  function CjFlags(list: seq<CjListener>): set<nat> {
    set l | l in list :: l.flag
  }

  predicate CjTakes(kind: Kind, funcId: int, l: CjListener) {
    l.kind == kind && (l.funcId == funcId || funcId == -1)
  }

  function CjKept(list: seq<CjListener>, kind: Kind, funcId: int): seq<CjListener> {
    if list == [] then []
    else
      var l := list[|list| - 1];
      var rest := CjKept(list[..|list| - 1], kind, funcId);
      if CjTakes(kind, funcId, l) then rest else rest + [l]
  }

  function CjRemoved(list: seq<CjListener>, kind: Kind, funcId: int): seq<CjListener> {
    if list == [] then []
    else
      var l := list[|list| - 1];
      var rest := CjRemoved(list[..|list| - 1], kind, funcId);
      if CjTakes(kind, funcId, l) then rest + [l] else rest
  }

  lemma CjSnoc(list: seq<CjListener>, l: CjListener, kind: Kind, funcId: int)
    ensures CjKept(list + [l], kind, funcId)
            == if CjTakes(kind, funcId, l) then CjKept(list, kind, funcId) else CjKept(list, kind, funcId) + [l]
    ensures CjRemoved(list + [l], kind, funcId)
            == if CjTakes(kind, funcId, l) then CjRemoved(list, kind, funcId) + [l] else CjRemoved(list, kind, funcId)
  {
    assert (list + [l])[..|list|] == list;
  }

  lemma CjOneMore(list: seq<CjListener>, l: CjListener)
    ensures CjPairs(list + [l]) == CjPairs(list) + {Pair(l.slot, l.kind)}
    ensures CjFlags(list + [l]) == CjFlags(list) + {l.flag}
    ensures Subs(list + [l]) == Subs(list) + [SubOf(l)]
  {
    assert (list + [l])[..|list|] == list;
    assert forall m :: m in list + [l] <==> m in list || m == l;
  }

  lemma CjFlagSet(flags: set<nat>, list: seq<CjListener>, l: CjListener)
    ensures flags + CjFlags(list + [l]) == (flags + CjFlags(list)) + {l.flag}
    ensures CjPairs(list + [l]) == CjPairs(list) + {Pair(l.slot, l.kind)}
  {
    CjOneMore(list, l);
  }

  ghost function CjUnused(list: seq<CjListener>, kind: Kind, funcId: int): seq<Pair> {
    Gone(Ascending(CjPairs(CjRemoved(list, kind, funcId))), CjPairs(CjKept(list, kind, funcId)))
  }

  predicate CjSame(a: CjListener, b: CjListener) {
    a.kind == b.kind && a.slot == b.slot && a.funcId == b.funcId
  }

  ghost function CjRegistered(list: seq<CjListener>, l: CjListener, ipc: Code): (seq<CjListener>, seq<Request>, Code) {
    if exists m :: m in list && CjSame(m, l) then (list, [], AlreadyRegistered)
    else if Pair(l.slot, l.kind) in CjPairs(list) then (list + [l], [], Success)
    else (if ipc == Success then list + [l] else list, [Add(Pair(l.slot, l.kind), l.kind == CallState)], ipc)
  }

  lemma {:induction false} CjPairsAre(list: seq<CjListener>)
    ensures SubPairs(Subs(list)) == CjPairs(list)
  {
    if list != [] {
      var front, l := list[..|list| - 1], list[|list| - 1];
      CjPairsAre(front);
      CjOneMore(front, l);
      assert list == front + [l];
      assert SubPairs(Subs(front) + [SubOf(l)]) == SubPairs(Subs(front)) + {Pair(l.slot, l.kind)} by {
        RetainedSnoc(Subs(front), SubOf(l), l.kind, None);
      }
    }
  }

  /** As subscriptions, the table keeps and loses what the other front ends keep and lose. */
  lemma {:induction false} CjKeptIs(list: seq<CjListener>, kind: Kind, funcId: int)
    ensures Subs(CjKept(list, kind, funcId)) == Retained(Subs(list), kind, Wildcard(funcId))
    ensures Subs(CjRemoved(list, kind, funcId)) == Taken(Subs(list), kind, Wildcard(funcId))
  {
    if list != [] {
      var front, l := list[..|list| - 1], list[|list| - 1];
      CjKeptIs(front, kind, funcId);
      CjOneMore(front, l);
      assert list == front + [l];
      RetainedSnoc(Subs(front), SubOf(l), kind, Wildcard(funcId));
      CjOneMore(CjKept(front, kind, funcId), l);
      CjOneMore(CjRemoved(front, kind, funcId), l);
    }
  }

  lemma CjUnusedIs(list: seq<CjListener>, kind: Kind, funcId: int)
    ensures CjUnused(list, kind, funcId) == Unused(Subs(list), kind, Wildcard(funcId))
  {
    CjKeptIs(list, kind, funcId);
    CjPairsAre(CjKept(list, kind, funcId));
    CjPairsAre(CjRemoved(list, kind, funcId));
  }

  class ObserverEventHandler {
    var listenerList: seq<CjListener>
    var deleting: set<nat>
    var requests: seq<Request>

    constructor ()
      ensures listenerList == [] && deleting == {} && requests == []
    {
      listenerList, deleting, requests := [], {}, [];
    }

    method RegisterEventListener(l: CjListener, ipc: Code) returns (code: Code)
      modifies `listenerList, `requests
      ensures listenerList == CjRegistered(old(listenerList), l, ipc).0
      ensures requests == old(requests) + CjRegistered(old(listenerList), l, ipc).1
      ensures code == CjRegistered(old(listenerList), l, ipc).2
    {
      var pairSame := false;
      for i := 0 to |listenerList|
        invariant forall m :: m in listenerList[..i] ==> !CjSame(m, l)
        invariant pairSame <==> Pair(l.slot, l.kind) in CjPairs(listenerList[..i])
        invariant unchanged(this)
      {
        var listen := listenerList[i];
        assert listenerList[..i + 1] == listenerList[..i] + [listen];
        if CjSame(listen, l) {
          return AlreadyRegistered;
        }
        if listen.slot == l.slot && listen.kind == l.kind {
          pairSame := true;
        }
      }
      assert listenerList[..|listenerList|] == listenerList;
      if !pairSame {
        requests := requests + [Add(Pair(l.slot, l.kind), l.kind == CallState)];
        if ipc != Success {
          return ipc;
        }
      }
      listenerList := listenerList + [l];
      code := Success;
    }

    /** The erase loop; it sets the flags of the listeners it takes and of no other. */
    method RemoveEventListenerRegister(kind: Kind, funcId: int) returns (pairs: set<Pair>)
      modifies `listenerList, `deleting
      ensures listenerList == CjKept(old(listenerList), kind, funcId)
      ensures pairs == CjPairs(CjRemoved(old(listenerList), kind, funcId))
      ensures deleting == old(deleting) + CjFlags(CjRemoved(old(listenerList), kind, funcId))
    {
      pairs := {};
      var it := 0;
      ghost var seen: seq<CjListener>, kept: seq<CjListener>, rest := [], [], listenerList;
      ghost var removed: seq<CjListener> := [];
      while it < |listenerList|
        invariant listenerList == kept + rest && |kept| == it && old(listenerList) == seen + rest
        invariant kept == CjKept(seen, kind, funcId) && removed == CjRemoved(seen, kind, funcId)
        invariant pairs == CjPairs(removed) && deleting == old(deleting) + CjFlags(removed)
        decreases |rest|
      {
        var l := listenerList[it];
        EraseStep(kept, rest);
        EraseStep(seen, rest);
        CjSnoc(seen, l, kind, funcId);
        if CjTakes(kind, funcId, l) {
          deleting := deleting + {l.flag};
          pairs := pairs + {Pair(l.slot, l.kind)};
          CjFlagSet(old(deleting), removed, l);
          removed := removed + [l];
          listenerList := listenerList[..it] + listenerList[it + 1..];
        } else {
          kept := kept + [l];
          it := it + 1;
        }
        seen, rest := seen + [l], rest[1..];
      }
      assert rest == [] && seen + rest == seen && kept + rest == kept;
    }

    /** The snapshot a dispatch takes under the lock. */
    method Snapshot(kind: Kind, slot: int) returns (snapshot: seq<CjListener>)
      ensures FuncIds(snapshot) == Heard(Subs(listenerList), kind, slot)
      ensures forall l :: l in snapshot ==> l in listenerList
    {
      snapshot := [];
      for i := 0 to |listenerList|
        invariant FuncIds(snapshot) == Heard(Subs(listenerList[..i]), kind, slot)
        invariant forall l :: l in snapshot ==> l in listenerList
      {
        var listen := listenerList[i];
        assert listenerList[..i + 1] == listenerList[..i] + [listen];
        CjOneMore(listenerList[..i], listen);
        HeardSnoc(Subs(listenerList[..i]), SubOf(listen), kind, slot);
        if listen.kind == kind && (kind == IccAccount || listen.slot == slot) {
          assert FuncIds(snapshot + [listen]) == FuncIds(snapshot) + [listen.funcId];
          snapshot := snapshot + [listen];
        }
      }
      assert listenerList[..|listenerList|] == listenerList;
    }

    method CheckRemoveStateObserver(p: Pair, result: Code, ret: Pair -> Code) returns (after: Code)
      modifies `requests
      ensures requests == old(requests) + if p in CjPairs(listenerList) then [] else [Remove(p)]
      ensures after == if p !in CjPairs(listenerList) && ret(p) != Success then ret(p) else result
    {
      for i := 0 to |listenerList|
        invariant forall j :: 0 <= j < i ==> Pair(listenerList[j].slot, listenerList[j].kind) != p
        invariant unchanged(this)
      {
        if listenerList[i].slot == p.slot && listenerList[i].kind == p.kind {
          return result;
        }
      }
      requests := requests + [Remove(p)];
      after := if ret(p) != Success then ret(p) else result;
    }

    method DropUnused(pairs: set<Pair>, ret: Pair -> Code) returns (result: Code)
      modifies `requests
      ensures requests == old(requests) + Removes(Gone(Ascending(pairs), CjPairs(listenerList)))
      ensures result == LastFailure(Gone(Ascending(pairs), CjPairs(listenerList)), ret)
    {
      result := Success;
      var rest := pairs;
      ghost var walked: seq<Pair>, held := [], CjPairs(listenerList);
      while rest != {}
        invariant Ascending(pairs) == walked + Ascending(rest)
        invariant requests == old(requests) + Removes(Gone(walked, held))
        invariant result == LastFailure(Gone(walked, held), ret)
        decreases |rest|
      {
        LeastExists(rest);
        var p :| p in rest && IsLeast(rest, p);
        AscendingStep(walked, rest, p);
        WalkStep(old(requests), walked, p, held, ret);
        result := CheckRemoveStateObserver(p, result, ret);
        walked := walked + [p];
        rest := rest - {p};
      }
      assert walked + Ascending(rest) == walked;
    }

    /** `off`: every slot is tried, and the last failure is the answer. */
    method UnregisterEventListener(kind: Kind, funcId: int, ret: Pair -> Code) returns (result: Code)
      modifies this
      ensures listenerList == CjKept(old(listenerList), kind, funcId)
      ensures deleting == old(deleting) + CjFlags(CjRemoved(old(listenerList), kind, funcId))
      ensures requests == old(requests) + Removes(CjUnused(old(listenerList), kind, funcId))
      ensures result == LastFailure(CjUnused(old(listenerList), kind, funcId), ret)
    {
      if listenerList == [] {
        return Success;
      }
      var pairs := RemoveEventListenerRegister(kind, funcId);
      result := DropUnused(pairs, ret);
    }
  }
}
