/** The listener vector of the ANI front end. Its listeners carry no deletion flag, and a removal
    stops at the first failing call to the service. */
module AniListeners {
  import opened Kinds
  import opened Records
  import opened Listeners
  import opened Subscriptions

  /** The event types an ANI listener can have: those that have a callback variant, exported `on` and
      `off` functions and an execute loop. */
  predicate HasEventType(kind: Kind) {
    kind != VoIPCall && kind != CfuIndicator && kind != VoiceMail
  }

  /** The slots `Register::register` accepts; the exported `on` functions of some event types fix the
      slot (see `FrontEnds.AniExports`). */
  predicate IsValidSlotIdEx(simSlotCount: int, kind: Kind, slot: int) {
    (if kind == CallState || kind == CallStateEx || kind == CCallState then -1 else 0) <= slot < simSlotCount + 1
  }

  function AniRegistered(inner: seq<Sub>, l: Sub, simSlotCount: int, ipc: Code): (seq<Sub>, seq<Request>, Code) {
    if !IsValidSlotIdEx(simSlotCount, l.kind, l.slot) then (inner, [], SlotError)
    else if l in inner then (inner, [], Success)
    else if SubPair(l) in SubPairs(inner) then (inner + [l], [], Success)
    else
      var notify := l.kind == CallState || l.kind == CallStateEx || l.kind == CCallState;
      (if ipc == Success then inner + [l] else inner, [Add(SubPair(l), notify)], ipc)
  }

  /** Index of the first pair whose call fails, or the number of pairs. */
  function FailureAt(ps: seq<Pair>, ret: Pair -> Code): (n: nat)
    ensures n <= |ps| && (n < |ps| ==> ret(ps[n]) != Success)
    ensures forall i :: 0 <= i < n ==> ret(ps[i]) == Success
  {
    if ps == [] || ret(ps[0]) != Success then 0
    else
      var n := FailureAt(ps[1..], ret);
      assert forall i :: 1 <= i <= n ==> ps[i] == ps[1..][i - 1];
      n + 1
  }

  /** The calls actually made: those up to and including the first failure. */
  function Attempted(ps: seq<Pair>, ret: Pair -> Code): seq<Pair> {
    var n := FailureAt(ps, ret);
    if n < |ps| then ps[..n + 1] else ps
  }

  function FirstFailure(ps: seq<Pair>, ret: Pair -> Code): Code {
    var n := FailureAt(ps, ret);
    if n < |ps| then ret(ps[n]) else Success
  }

  lemma FailureAtIs(ps: seq<Pair>, ret: Pair -> Code, n: nat)
    requires n <= |ps| && (n < |ps| ==> ret(ps[n]) != Success)
    requires forall i :: 0 <= i < n ==> ret(ps[i]) == Success
    ensures FailureAt(ps, ret) == n
  {
  }

  lemma {:induction false} GoneConcat(a: seq<Pair>, b: seq<Pair>, held: set<Pair>)
    ensures Gone(a + b, held) == Gone(a, held) + Gone(b, held)
  {
    if b == [] {
      assert a + b == a;
    } else {
      var m := |b| - 1;
      assert a + b == (a + b[..m]) + [b[m]];
      GoneConcat(a, b[..m], held);
      GoneSnoc(a + b[..m], b[m], held);
    }
  }

  predicate AllAccepted(ps: seq<Pair>, ret: Pair -> Code) {
    forall q :: q in ps ==> ret(q) == Success
  }

  /** The walk stops here: every earlier call succeeded and this one fails. */
  lemma StopsAt(all: seq<Pair>, before: seq<Pair>, p: Pair, after: seq<Pair>, ret: Pair -> Code)
    requires all == before + [p] + after
    requires AllAccepted(before, ret)
    requires ret(p) != Success
    ensures Attempted(all, ret) == before + [p] && FirstFailure(all, ret) == ret(p)
  {
    FailureAtIs(all, ret, |before|);
  }

  lemma WalkStops(all: seq<Pair>, walked: seq<Pair>, p: Pair, after: seq<Pair>, held: set<Pair>, ret: Pair -> Code,
                  before: seq<Request>)
    requires all == walked + [p] + after && p !in held
    requires AllAccepted(Gone(walked, held), ret)
    requires ret(p) != Success
    ensures before + Removes(Attempted(Gone(all, held), ret))
            == (before + Removes(Gone(walked, held))) + [Request.Remove(p)]
    ensures FirstFailure(Gone(all, held), ret) == ret(p)
  {
    GoneAround(walked, p, after, held);
    StopsAt(Gone(all, held), Gone(walked, held), p, Gone(after, held), ret);
    RemovesSnoc(Gone(walked, held), p);
    var done := Removes(Gone(walked, held));
    assert before + (done + [Request.Remove(p)]) == (before + done) + [Request.Remove(p)];
  }

  lemma GoneAround(walked: seq<Pair>, p: Pair, after: seq<Pair>, held: set<Pair>)
    requires p !in held
    ensures Gone(walked + [p] + after, held) == Gone(walked, held) + [p] + Gone(after, held)
  {
    GoneConcat(walked + [p], after, held);
    GoneSnoc(walked, p, held);
  }

  lemma OneStep(walked: seq<Pair>, p: Pair, held: set<Pair>, ret: Pair -> Code)
    ensures Removes(Gone(walked + [p], held))
            == Removes(Gone(walked, held)) + if p in held then [] else [Request.Remove(p)]
    ensures AllAccepted(Gone(walked + [p], held), ret) <==>
              AllAccepted(Gone(walked, held), ret) && (p in held || ret(p) == Success)
  {
    GoneSnoc(walked, p, held);
    RemovesSnoc(Gone(walked, held), p);
    if p !in held {
      assert (Gone(walked, held) + [p])[|Gone(walked, held)|] == p;
      assert forall q :: q in Gone(walked, held) ==> q in Gone(walked, held) + [p];
    }
  }

  lemma WalkPasses(all: seq<Pair>, held: set<Pair>, ret: Pair -> Code)
    requires AllAccepted(Gone(all, held), ret)
    ensures Attempted(Gone(all, held), ret) == Gone(all, held)
    ensures FirstFailure(Gone(all, held), ret) == Success
  {
    FailureAtIs(Gone(all, held), ret, |Gone(all, held)|);
  }

  class Register {
    var inner: seq<Sub>
    var requests: seq<Request>

    constructor ()
      ensures inner == [] && requests == []
    {
      inner, requests := [], [];
    }

    method RegisterListener(l: Sub, simSlotCount: int, ipc: Code) returns (code: Code)
      modifies this
      ensures inner == AniRegistered(old(inner), l, simSlotCount, ipc).0
      ensures requests == old(requests) + AniRegistered(old(inner), l, simSlotCount, ipc).1
      ensures code == AniRegistered(old(inner), l, simSlotCount, ipc).2
    {
      if !IsValidSlotIdEx(simSlotCount, l.kind, l.slot) {
        return SlotError;
      }
      var pairSame := false;
      for i := 0 to |inner|
        invariant l !in inner[..i]
        invariant pairSame <==> SubPair(l) in SubPairs(inner[..i])
        invariant unchanged(this)
      {
        assert inner[..i + 1] == inner[..i] + [inner[i]];
        if inner[i] == l {
          return Success;
        }
        if SubPair(inner[i]) == SubPair(l) {
          pairSame := true;
        }
      }
      assert inner[..|inner|] == inner;
      if !pairSame {
        var notify := l.kind == CallState || l.kind == CallStateEx || l.kind == CCallState;
        requests := requests + [Request.Add(SubPair(l), notify)];
        if ipc != Success {
          return ipc;
        }
      }
      inner := inner + [l];
      code := Success;
    }

    /** The loop of every `execute_on_*`: calls the matching callbacks in order. */
    method Execute(kind: Kind, slot: int) returns (called: seq<int>)
      ensures called == Heard(inner, kind, slot)
    {
      called := [];
      for i := 0 to |inner|
        invariant called == Heard(inner[..i], kind, slot)
      {
        var listen := inner[i];
        assert inner[..i + 1] == inner[..i] + [listen];
        HeardSnoc(inner[..i], listen, kind, slot);
        if listen.kind != kind || (kind != IccAccount && listen.slot != slot) {
          continue;
        }
        called := called + [listen.fn];
      }
      assert inner[..|inner|] == inner;
    }

    method CheckEventTypeExist(p: Pair) returns (found: bool)
      ensures found <==> p in SubPairs(inner)
    {
      for i := 0 to |inner|
        invariant forall j :: 0 <= j < i ==> SubPair(inner[j]) != p
      {
        if SubPair(inner[i]) == p {
          return true;
        }
      }
      found := false;
    }

    /** `retain` with a closure that collects the slots of what it drops. */
    method Retain(kind: Kind, fn: Option<int>) returns (pairs: set<Pair>)
      modifies `inner
      ensures inner == Retained(old(inner), kind, fn)
      ensures pairs == SubPairs(Taken(old(inner), kind, fn))
    {
      var kept: seq<Sub> := [];
      pairs := {};
      for i := 0 to |inner|
        invariant unchanged(this)
        invariant kept == Retained(inner[..i], kind, fn)
        invariant pairs == SubPairs(Taken(inner[..i], kind, fn))
      {
        var s := inner[i];
        assert inner[..i + 1] == inner[..i] + [s];
        RetainedSnoc(inner[..i], s, kind, fn);
        RetainedSnoc(Taken(inner[..i], kind, fn), s, kind, fn);
        if s.kind == kind && (fn.None? || s.fn == fn.value) {
          pairs := pairs + {SubPair(s)};
        } else {
          kept := kept + [s];
        }
      }
      assert inner[..|inner|] == inner;
      inner := kept;
    }

    /** One slot of the walk; `ok` is false when the service refused the call. */
    method DropIfUnused(p: Pair, ret: Pair -> Code) returns (ok: bool)
      modifies `requests
      ensures requests == old(requests) + if p in SubPairs(inner) then [] else [Request.Remove(p)]
      ensures ok <==> p in SubPairs(inner) || ret(p) == Success
    {
      var found := CheckEventTypeExist(p);
      if !found {
        requests := requests + [Request.Remove(p)];
      }
      ok := found || ret(p) == Success;
    }

    /** Walks a set of pairs in ascending order, dropping the unused ones, up to a failure. */
    method DropUnused(pairs: set<Pair>, ret: Pair -> Code) returns (result: Code)
      modifies `requests
      ensures requests == old(requests) + Removes(Attempted(Gone(Ascending(pairs), SubPairs(inner)), ret))
      ensures result == FirstFailure(Gone(Ascending(pairs), SubPairs(inner)), ret)
    {
      var rest := pairs;
      ghost var walked: seq<Pair>, held := [], SubPairs(inner);
      while rest != {}
        invariant Ascending(pairs) == walked + Ascending(rest)
        invariant requests == old(requests) + Removes(Gone(walked, held))
        invariant AllAccepted(Gone(walked, held), ret)
        decreases |rest|
      {
        LeastExists(rest);
        var p :| p in rest && IsLeast(rest, p);
        AscendingStep(walked, rest, p);
        OneStep(walked, p, held, ret);
        var ok := DropIfUnused(p, ret);
        if !ok {
          WalkStops(Ascending(pairs), walked, p, Ascending(rest - {p}), held, ret, old(requests));
          return ret(p);
        }
        walked := walked + [p];
        rest := rest - {p};
      }
      assert walked + Ascending(rest) == walked;
      WalkPasses(Ascending(pairs), held, ret);
      result := Success;
    }

    /** `off`: the vector loses every matching listener first; the calls to the service stop at the
        first failure, whose code is the answer. */
    method Unregister(kind: Kind, fn: Option<int>, ret: Pair -> Code) returns (result: Code)
      modifies this
      ensures inner == Retained(old(inner), kind, fn)
      ensures requests == old(requests) + Removes(Attempted(Unused(old(inner), kind, fn), ret))
      ensures result == FirstFailure(Unused(old(inner), kind, fn), ret)
    {
      if inner == [] {
        return Success;
      }
      var pairs := Retain(kind, fn);
      result := DropUnused(pairs, ret);
    }
  }
}
