/** Listener lists: what a front end keeps, removes, and asks of the service when listeners are
    removed. */
module Listeners {
  import opened Kinds
  import opened Records

  /** A reference to a JS function: its own identity, and the function it stands for. */
  datatype Ref = Ref(id: nat, fn: int)

  /** `flag` names the shared `isDeleting` cell of the listener. */
  datatype Listener = Listener(env: nat, kind: Kind, slot: int, ref: Ref, flag: nat)

  /** A (slot, event type) pair: what one service registration of a process is for. */
  datatype Pair = Pair(slot: int, kind: Kind)

  datatype Request = Add(pair: Pair, notify: bool) | Remove(pair: Pair)

  function PairOf(l: Listener): Pair {
    Pair(l.slot, l.kind)
  }

  function PairsOf(list: seq<Listener>): set<Pair> {
    set l | l in list :: PairOf(l)
  }

  /** Which listeners a removal takes: those of one environment, of some kinds, and with one
      callback function when one is named. */
  datatype Selection = Selection(env: nat, kinds: set<Kind>, fn: Option<int>)

  predicate Matches(sel: Selection, l: Listener) {
    l.env == sel.env && l.kind in sel.kinds && (sel.fn.Some? ==> l.ref.fn == sel.fn.value)
  }

  function Kept(list: seq<Listener>, sel: Selection): seq<Listener> {
    if list == [] then []
    else
      var l := list[|list| - 1];
      if Matches(sel, l) then Kept(list[..|list| - 1], sel) else Kept(list[..|list| - 1], sel) + [l]
  }

  function Removed(list: seq<Listener>, sel: Selection): seq<Listener> {
    if list == [] then []
    else
      var l := list[|list| - 1];
      if Matches(sel, l) then Removed(list[..|list| - 1], sel) + [l] else Removed(list[..|list| - 1], sel)
  }

  lemma KeptSnoc(list: seq<Listener>, l: Listener, sel: Selection)
    ensures Kept(list + [l], sel) == if Matches(sel, l) then Kept(list, sel) else Kept(list, sel) + [l]
    ensures Removed(list + [l], sel) == if Matches(sel, l) then Removed(list, sel) + [l] else Removed(list, sel)
  {
    assert (list + [l])[..|list|] == list;
  }

  lemma {:induction false} KeptMembers(list: seq<Listener>, sel: Selection, l: Listener)
    ensures l in Kept(list, sel) <==> l in list && !Matches(sel, l)
    ensures l in Removed(list, sel) <==> l in list && Matches(sel, l)
  {
    if list != [] {
      KeptMembers(list[..|list| - 1], sel, l);
    }
  }

  /** The removal loop conserves the list: position i goes to exactly one of the two lists, to the
      next free place there, so both keep the old order and together they are the old list. */
  lemma {:induction false} RemovalInterleaves(list: seq<Listener>, sel: Selection, i: nat)
    requires i < |list|
    ensures |Kept(list[..i], sel)| + |Removed(list[..i], sel)| == i
    ensures |Kept(list, sel)| + |Removed(list, sel)| == |list|
    ensures if Matches(sel, list[i]) then
              && |Removed(list[..i], sel)| < |Removed(list, sel)|
              && Removed(list, sel)[|Removed(list[..i], sel)|] == list[i]
            else
              |Kept(list[..i], sel)| < |Kept(list, sel)| && Kept(list, sel)[|Kept(list[..i], sel)|] == list[i]
  {
    var n := |list| - 1;
    LengthsAdd(list, sel);
    LengthsAdd(list[..i], sel);
    if i < n {
      RemovalInterleaves(list[..n], sel, i);
      assert list[..n][..i] == list[..i];
    }
  }

  lemma {:induction false} LengthsAdd(list: seq<Listener>, sel: Selection)
    ensures |Kept(list, sel)| + |Removed(list, sel)| == |list|
  {
    if list != [] {
      LengthsAdd(list[..|list| - 1], sel);
    }
  }

  /** Erasing, or passing over, the element at the cursor of a list: `front` lies before it. */
  lemma EraseStep<T>(front: seq<T>, rest: seq<T>)
    requires rest != []
    ensures (front + rest)[|front|] == rest[0]
    ensures (front + rest)[..|front|] + (front + rest)[|front| + 1..] == front + rest[1..]
    ensures front + rest == (front + [rest[0]]) + rest[1..]
  {
    assert (front + rest)[..|front|] == front && (front + rest)[|front| + 1..] == rest[1..];
  }

  // ---------------------------------------------------------------- ordered sets of pairs

  predicate Before(p: Pair, q: Pair) {
    p.slot < q.slot || (p.slot == q.slot && Rank(p.kind) < Rank(q.kind))
  }

  predicate IsLeast(s: set<Pair>, m: Pair) {
    m in s && forall p :: p in s ==> p == m || Before(m, p)
  }

  lemma RankInjective(j: Kind, k: Kind)
    ensures Rank(j) == Rank(k) ==> j == k
  {
  }

  lemma LeastUnique(s: set<Pair>, a: Pair, b: Pair)
    requires IsLeast(s, a) && IsLeast(s, b)
    ensures a == b
  {
  }

  lemma {:induction false} LeastExists(s: set<Pair>)
    requires s != {}
    ensures exists m :: IsLeast(s, m)
    decreases |s|
  {
    var x :| x in s;
    var rest := s - {x};
    if rest == {} {
      assert forall p :: p in s ==> p == x || p in rest;
      assert IsLeast(s, x);
    } else {
      LeastExists(rest);
      var y :| IsLeast(rest, y);
      RankInjective(x.kind, y.kind);
      assert forall p :: p in s ==> p == x || p in rest;
      assert IsLeast(s, if Before(x, y) then x else y);
    }
  }

  ghost function Least(s: set<Pair>): (m: Pair)
    requires s != {}
    ensures IsLeast(s, m)
  {
    LeastExists(s);
    var m :| IsLeast(s, m);
    m
  }

  /** The order in which a `std::set` or a `BTreeSet` is walked. */
  ghost function Ascending(s: set<Pair>): seq<Pair>
    decreases |s|
  {
    if s == {} then [] else [Least(s)] + Ascending(s - {Least(s)})
  }

  ghost predicate Sorted(ps: seq<Pair>) {
    forall i, j :: 0 <= i < j < |ps| ==> Before(ps[i], ps[j])
  }

  lemma {:induction false} AscendingIs(s: set<Pair>)
    ensures Sorted(Ascending(s))
    ensures forall p :: p in Ascending(s) <==> p in s
    decreases |s|
  {
    if s != {} {
      var m := Least(s);
      AscendingIs(s - {m});
      var rest := Ascending(s - {m});
      assert forall i :: 0 <= i < |rest| ==> rest[i] in s - {m};
      assert Ascending(s) == [m] + rest;
      forall i, j | 0 <= i < j < |rest| + 1
        ensures Before(Ascending(s)[i], Ascending(s)[j])
      {
        assert rest[j - 1] in rest;
      }
    }
  }

  /** Taking the least pair off a set takes the first step of the walk. */
  lemma AscendingStep(walked: seq<Pair>, rest: set<Pair>, p: Pair)
    requires IsLeast(rest, p)
    ensures walked + Ascending(rest) == (walked + [p]) + Ascending(rest - {p})
  {
    LeastUnique(rest, p, Least(rest));
  }

  // ---------------------------------------------------------------- the requests of a removal

  /** The pairs of a sequence that are not in a set, in order. */
  function Gone(ps: seq<Pair>, held: set<Pair>): seq<Pair> {
    if ps == [] then []
    else
      var p := ps[|ps| - 1];
      if p in held then Gone(ps[..|ps| - 1], held) else Gone(ps[..|ps| - 1], held) + [p]
  }

  lemma GoneSnoc(ps: seq<Pair>, p: Pair, held: set<Pair>)
    ensures Gone(ps + [p], held) == if p in held then Gone(ps, held) else Gone(ps, held) + [p]
  {
    assert (ps + [p])[..|ps|] == ps;
  }

  /** The code of a removal that tries every pair: the last failure, or Success. */
  function LastFailure(ps: seq<Pair>, ret: Pair -> Code): Code {
    if ps == [] then Success
    else
      var p := ps[|ps| - 1];
      if ret(p) != Success then ret(p) else LastFailure(ps[..|ps| - 1], ret)
  }

  lemma LastFailureSnoc(ps: seq<Pair>, p: Pair, ret: Pair -> Code)
    ensures LastFailure(ps + [p], ret) == if ret(p) != Success then ret(p) else LastFailure(ps, ret)
  {
    assert (ps + [p])[..|ps|] == ps;
  }

  function Removes(ps: seq<Pair>): (rs: seq<Request>)
    ensures |rs| == |ps| && forall i :: 0 <= i < |ps| ==> rs[i] == Remove(ps[i])
  {
    seq(|ps|, i requires 0 <= i < |ps| => Remove(ps[i]))
  }

  lemma RemovesSnoc(ps: seq<Pair>, p: Pair)
    ensures Removes(ps + [p]) == Removes(ps) + [Remove(p)]
  {
  }

  /** The pairs a removal asks the service to drop, in order. */
  ghost function RemovalRequests(list: seq<Listener>, sel: Selection): seq<Pair> {
    Gone(Ascending(PairsOf(Removed(list, sel))), PairsOf(Kept(list, sel)))
  }

  lemma {:induction false} GoneIs(ps: seq<Pair>, held: set<Pair>)
    requires Sorted(ps)
    ensures Sorted(Gone(ps, held))
    ensures forall p :: p in Gone(ps, held) <==> p in ps && p !in held
  {
    if ps != [] {
      var front, last := ps[..|ps| - 1], ps[|ps| - 1];
      GoneIs(front, held);
      var rest := Gone(front, held);
      assert forall p :: p in ps <==> p == last || p in front;
      forall i | 0 <= i < |rest|
        ensures Before(rest[i], last)
      {
        assert rest[i] in front;
      }
    }
  }

  lemma RemovesStep(walked: seq<Pair>, p: Pair, held: set<Pair>)
    ensures Removes(Gone(walked + [p], held)) == Removes(Gone(walked, held)) + if p in held then [] else [Remove(p)]
  {
    GoneSnoc(walked, p, held);
    if p !in held {
      RemovesSnoc(Gone(walked, held), p);
    }
  }

  lemma CodeStep(walked: seq<Pair>, p: Pair, held: set<Pair>, ret: Pair -> Code)
    ensures LastFailure(Gone(walked + [p], held), ret)
            == if p !in held && ret(p) != Success then ret(p) else LastFailure(Gone(walked, held), ret)
  {
    GoneSnoc(walked, p, held);
    if p !in held {
      LastFailureSnoc(Gone(walked, held), p, ret);
    }
  }

  lemma RequestsAssoc(a: seq<Request>, b: seq<Request>, c: seq<Request>)
    ensures a + (b + c) == (a + b) + c
  {
  }

  /** One step of the walk: the request it adds, and the code after it. */
  lemma WalkStep(before: seq<Request>, walked: seq<Pair>, p: Pair, held: set<Pair>, ret: Pair -> Code)
    ensures before + Removes(Gone(walked + [p], held))
            == (before + Removes(Gone(walked, held))) + if p in held then [] else [Remove(p)]
    ensures LastFailure(Gone(walked + [p], held), ret)
            == if p !in held && ret(p) != Success then ret(p) else LastFailure(Gone(walked, held), ret)
  {
    RemovesStep(walked, p, held);
    RequestsAssoc(before, Removes(Gone(walked, held)), if p in held then [] else [Remove(p)]);
    CodeStep(walked, p, held, ret);
  }

  predicate LosesLast(list: seq<Listener>, sel: Selection, p: Pair) {
    && (exists l :: l in list && Matches(sel, l) && PairOf(l) == p)
    && (forall l :: l in list && !Matches(sel, l) ==> PairOf(l) != p)
  }

  /** A removal asks the service, in ascending slot order, to drop exactly the pairs whose last
      listener it removed. */
  lemma RemovalRequestsExact(list: seq<Listener>, sel: Selection)
    ensures Sorted(RemovalRequests(list, sel))
    ensures forall p :: p in RemovalRequests(list, sel) <==> LosesLast(list, sel, p)
  {
    var touched := PairsOf(Removed(list, sel));
    AscendingIs(touched);
    GoneIs(Ascending(touched), PairsOf(Kept(list, sel)));
    forall l
      ensures l in Kept(list, sel) <==> l in list && !Matches(sel, l)
      ensures l in Removed(list, sel) <==> l in list && Matches(sel, l)
    {
      KeptMembers(list, sel, l);
    }
  }

  // ---------------------------------------------------------------- teardown and repeated off

  /** Unregister one event type of an environment after the other: the list left, and every pair
      the service was asked to drop. */
  ghost function OffEach(list: seq<Listener>, env: nat, ks: seq<Kind>): (seq<Listener>, seq<Pair>) {
    if ks == [] then (list, [])
    else
      var before := OffEach(list, env, ks[..|ks| - 1]);
      var sel := Selection(env, {ks[|ks| - 1]}, None);
      (Kept(before.0, sel), before.1 + RemovalRequests(before.0, sel))
  }

  function KindsOf(ks: seq<Kind>): set<Kind> {
    set k | k in ks
  }

  lemma {:induction false} KeptTwice(list: seq<Listener>, env: nat, some: set<Kind>, k: Kind)
    ensures Kept(Kept(list, Selection(env, some, None)), Selection(env, {k}, None))
            == Kept(list, Selection(env, some + {k}, None))
  {
    if list != [] {
      var n := |list| - 1;
      KeptTwice(list[..n], env, some, k);
      KeptSnoc(Kept(list[..n], Selection(env, some, None)), list[n], Selection(env, {k}, None));
    }
  }

  lemma {:induction false} OffEachIs(list: seq<Listener>, env: nat, ks: seq<Kind>)
    ensures OffEach(list, env, ks).0 == Kept(list, Selection(env, KindsOf(ks), None))
    ensures forall p :: p in OffEach(list, env, ks).1 <==> LosesLast(list, Selection(env, KindsOf(ks), None), p)
  {
    if ks == [] {
      assert KindsOf(ks) == {};
      NothingKept(list, env);
    } else {
      var n := |ks| - 1;
      var some := KindsOf(ks[..n]);
      OffEachIs(list, env, ks[..n]);
      KeptTwice(list, env, some, ks[n]);
      assert KindsOf(ks) == some + {ks[n]};
      var left := Kept(list, Selection(env, some, None));
      RemovalRequestsExact(left, Selection(env, {ks[n]}, None));
      forall p
        ensures LosesLast(list, Selection(env, some + {ks[n]}, None), p) <==>
                LosesLast(list, Selection(env, some, None), p) || LosesLast(left, Selection(env, {ks[n]}, None), p)
      {
        LosesInTwo(list, env, some, ks[n], p);
      }
    }
  }

  lemma {:induction false} NothingKept(list: seq<Listener>, env: nat)
    ensures Kept(list, Selection(env, {}, None)) == list
  {
    if list != [] {
      NothingKept(list[..|list| - 1], env);
    }
  }

  lemma LosesInTwo(list: seq<Listener>, env: nat, some: set<Kind>, k: Kind, p: Pair)
    ensures LosesLast(list, Selection(env, some + {k}, None), p) <==>
            LosesLast(list, Selection(env, some, None), p)
            || LosesLast(Kept(list, Selection(env, some, None)), Selection(env, {k}, None), p)
  {
    var sel := Selection(env, some, None);
    forall l
      ensures l in Kept(list, sel) <==> l in list && !Matches(sel, l)
    {
      KeptMembers(list, sel, l);
    }
  }

  /** Teardown equals repeated off. For any order of any event types that includes every type the
      environment listens to, unregistering them one by one leaves the list that teardown leaves,
      and asks the service to drop the same pairs: those the environment held and no other
      environment still holds. */
  lemma TeardownEqualsRepeatedOff(list: seq<Listener>, env: nat, ks: seq<Kind>)
    requires forall l :: l in list && l.env == env ==> l.kind in ks
    ensures OffEach(list, env, ks).0 == Kept(list, Selection(env, KindsOf(ALL_KINDS), None))
    ensures forall p :: p in OffEach(list, env, ks).1 <==>
              p in RemovalRequests(list, Selection(env, KindsOf(ALL_KINDS), None))
    ensures forall p :: p in OffEach(list, env, ks).1 <==>
              (exists l :: l in list && l.env == env && PairOf(l) == p)
              && (forall l :: l in list && l.env != env ==> PairOf(l) != p)
  {
    var all := Selection(env, KindsOf(ALL_KINDS), None);
    var each := Selection(env, KindsOf(ks), None);
    OffEachIs(list, env, ks);
    RemovalRequestsExact(list, all);
    EveryKindListed();
    assert forall l :: l in list ==> (Matches(all, l) <==> l.env == env);
    assert forall l :: l in list ==> (Matches(each, l) <==> l.env == env);
    SameKept(list, each, all);
  }

  lemma EveryKindListed()
    ensures forall k: Kind :: k in KindsOf(ALL_KINDS)
  {
    forall k: Kind
      ensures k in KindsOf(ALL_KINDS)
    {
      assert ALL_KINDS[Rank(k)] == k;
    }
  }

  lemma {:induction false} SameKept(list: seq<Listener>, a: Selection, b: Selection)
    requires forall l :: l in list ==> (Matches(a, l) <==> Matches(b, l))
    ensures Kept(list, a) == Kept(list, b)
  {
    if list != [] {
      SameKept(list[..|list| - 1], a, b);
    }
  }

  predicate Distinct(ps: seq<Pair>) {
    forall i, j :: 0 <= i < j < |ps| ==> ps[i] != ps[j]
  }

  lemma DistinctConcat(a: seq<Pair>, b: seq<Pair>)
    requires Distinct(a) && Distinct(b) && forall p :: p in a ==> p !in b
    ensures Distinct(a + b)
  {
    forall i, j | 0 <= i < j < |a + b|
      ensures (a + b)[i] != (a + b)[j]
    {
      if i < |a| <= j {
        assert a[i] in a && b[j - |a|] in b;
      }
    }
  }

  /** No pair is dropped twice by repeated off either. */
  lemma {:induction false} OffEachAsksOnce(list: seq<Listener>, env: nat, ks: seq<Kind>)
    ensures Distinct(OffEach(list, env, ks).1)
  {
    if ks != [] {
      var n := |ks| - 1;
      OffEachAsksOnce(list, env, ks[..n]);
      OffEachIs(list, env, ks[..n]);
      var before := OffEach(list, env, ks[..n]);
      var sel := Selection(env, {ks[n]}, None);
      RemovalRequestsExact(before.0, sel);
      forall l
        ensures l in before.0 <==> l in list && !Matches(Selection(env, KindsOf(ks[..n]), None), l)
      {
        KeptMembers(list, Selection(env, KindsOf(ks[..n]), None), l);
      }
      DistinctConcat(before.1, RemovalRequests(before.0, sel));
    }
  }
}
