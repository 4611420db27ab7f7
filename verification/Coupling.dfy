/** One process's listener table coupled to the service's record table: calls that fail to connect,
    are dropped, or lose their reply; services that die and restart; silently accepted slots; and
    other processes changing the record table at any time. */
module Coupling {
  import opened Kinds
  import opened Records
  import opened Listeners
  import opened ObserverClient
  import Napi = NapiListeners

  datatype Fate = RequestLost | ReplyLost | Answered

  datatype Call = Call(caller: Caller, lookup: Lookup, fate: Fate)

  /** The process, and the service constants. */
  datatype World = World(cfg: Config, token: int, pid: int)

  /** `todo` are the calls an `off` has still to make while it holds the table mutex. `erred` are the
      pairs whose latest call returned an error, `silent` those whose latest successful registration
      stored nothing, and `since` gives the service instance of that registration. */
  datatype State = State(
    list: seq<Listener>, todo: seq<Pair>,
    proxy: Option<nat>, up: bool, instance: nat, table: seq<Record>,
    erred: set<Pair>, silent: set<Pair>, since: map<Pair, nat>)

  datatype Action =
    | On(l: Listener, observer: nat, call: Call)
    | OffBegin(sel: Selection)
    | OffCall(call: Call)
    | Die
    | Restart
    | DeathReport(instance: nat)
    | OtherAdds(r: Record)
    | OtherRemoves(key: Key)

  function Init(): State {
    State([], [], None, true, 0, [], {}, {}, map[])
  }

  function PairKey(w: World, p: Pair): Key {
    Key(p.slot, Bit(p.kind), w.token, w.pid)
  }

  /** The process holds a service record for the pair. */
  predicate Recorded(w: World, s: State, p: Pair) {
    Present(s.table, PairKey(w, p))
  }

  predicate Mine(w: World, key: Key) {
    key.token == w.token && key.pid == w.pid
  }

  // ---------------------------------------------------------------- calls

  function ServiceAdd(w: World, caller: Caller, table: seq<Record>, r: Record): (seq<Record>, Code) {
    if Gate(caller, r.mask) != Success then (table, Gate(caller, r.mask))
    else if !AcceptedSlot(w.cfg, caller, r.slot) then (table, Success)
    else (Added(table, r), Success)
  }

  function ServiceRemove(caller: Caller, table: seq<Record>, key: Key): (seq<Record>, Code) {
    if Gate(caller, key.mask) != Success then (table, Gate(caller, key.mask))
    else if Present(table, key) then (Erased(table, key), Success)
    else (table, UnregisterDataNotExist)
  }

  /** The request reaches a running service. */
  predicate Delivered(s: State, c: Call) {
    Connected(s.proxy, c.lookup) == Some(s.instance) && s.up && c.fate != RequestLost
  }

  function Returned(s: State, c: Call, answer: Code): Code {
    if Connected(s.proxy, c.lookup).None? then ConnectStubFail
    else if Delivered(s, c) && c.fate == Answered then answer
    else TransportError
  }

  function NewRecord(w: World, p: Pair, observer: nat): Record {
    Record(p.slot, Bit(p.kind), w.token, w.pid, 0, "", "", Some(observer))
  }

  // ---------------------------------------------------------------- steps

  /** The first listener of a pair: the call, and the push when it succeeded. */
  function FirstOn(w: World, s: State, l: Listener, observer: nat, c: Call): State {
    var p := PairOf(l);
    var (table, answer) := ServiceAdd(w, c.caller, s.table, NewRecord(w, p, observer));
    var after := s.(proxy := Connected(s.proxy, c.lookup), table := if Delivered(s, c) then table else s.table);
    if Returned(s, c, answer) != Success then after.(erred := s.erred + {p})
    else after.(list := s.list + [l], erred := s.erred - {p}, since := s.since[p := s.instance],
                silent := if AcceptedSlot(w.cfg, c.caller, p.slot) then s.silent - {p} else s.silent + {p})
  }

  /** `on` keeps the table mutex from the check to the push. */
  ghost function DoOn(w: World, s: State, l: Listener, observer: nat, c: Call): State {
    if s.todo != [] then s
    else if (exists m :: m in s.list && Napi.IsSame(m, l)) || PairOf(l) in PairsOf(s.list) then
      s.(list := Napi.Registered(s.list, l, Success).0)
    else FirstOn(w, s, l, observer, c)
  }

  /** `off` and teardown remove the listeners first, then make one call for each pair left unused. */
  ghost function DoOffBegin(s: State, sel: Selection): State {
    if s.todo != [] then s else s.(list := Kept(s.list, sel), todo := RemovalRequests(s.list, sel))
  }

  function DoOffCall(w: World, s: State, c: Call): State {
    if s.todo == [] then s
    else
      var p := s.todo[0];
      var (table, answer) := ServiceRemove(c.caller, s.table, PairKey(w, p));
      s.(todo := s.todo[1..], proxy := Connected(s.proxy, c.lookup),
         table := if Delivered(s, c) then table else s.table,
         erred := if Returned(s, c, answer) != Success then s.erred + {p} else s.erred - {p})
  }

  ghost function Step(w: World, s: State, a: Action): State {
    match a
    case On(l, observer, c) => DoOn(w, s, l, observer, c)
    case OffBegin(sel) => DoOffBegin(s, sel)
    case OffCall(c) => DoOffCall(w, s, c)
    case Die => s.(up := false, table := [])
    case Restart => if s.up then s else s.(up := true, instance := s.instance + 1, table := [])
    case DeathReport(i) => s.(proxy := if s.proxy == Some(i) then None else s.proxy)
    case OtherAdds(r) => if Mine(w, KeyOf(r)) || !s.up then s else s.(table := Added(s.table, r))
    case OtherRemoves(key) => if Mine(w, key) then s else s.(table := Erased(s.table, key))
  }

  ghost function Run(w: World, actions: seq<Action>): State {
    if actions == [] then Init()
    else Step(w, Run(w, actions[..|actions| - 1]), actions[|actions| - 1])
  }

  // ---------------------------------------------------------------- the coupling

  /** A record without a listener: only after an error, or while an `off` is still calling. */
  ghost predicate RecordsExplained(w: World, s: State) {
    forall p :: Recorded(w, s, p) ==> p in PairsOf(s.list) || p in s.erred || p in s.todo
  }

  /** A listener without a record: only for a silently accepted slot, or when the service instance
      that took the registration has died. */
  ghost predicate ListenersExplained(w: World, s: State) {
    forall p :: p in PairsOf(s.list) ==>
      p in s.since && (Recorded(w, s, p) || p in s.silent || s.since[p] < s.instance || !s.up)
  }

  ghost predicate Coupled(w: World, s: State) {
    && NoDuplicates(s.table)
    && RecordsExplained(w, s)
    && ListenersExplained(w, s)
    && (forall p :: p in s.todo ==> p !in PairsOf(s.list))
    && (forall p :: p in s.since ==> s.since[p] <= s.instance)
  }

  /** What the two table operations do to a key. */
  lemma TableKeys(recs: seq<Record>, r: Record, key: Key, k: Key)
    requires NoDuplicates(recs)
    ensures Present(Added(recs, r), k) <==> Present(recs, k) || k == KeyOf(r)
    ensures Present(Erased(recs, key), k) <==> Present(recs, k) && k != key
  {
    TableKeepsKeysUnique(recs, r, key);
    AddedKeys(recs, r, k);
    ErasedKeys(recs, key, k);
  }

  lemma AddedKeys(recs: seq<Record>, r: Record, k: Key)
    ensures Present(Added(recs, r), k) <==> Present(recs, k) || k == KeyOf(r)
  {
    var n := IndexOf(recs, KeyOf(r));
    if n == |recs| {
      assert (recs + [r])[|recs|] == r;
      if Present(recs, k) {
        var i :| 0 <= i < |recs| && KeyOf(recs[i]) == k;
        assert (recs + [r])[i] == recs[i];
      }
    }
  }

  lemma ErasedKeys(recs: seq<Record>, key: Key, k: Key)
    requires !Present(Erased(recs, key), key)
    ensures Present(Erased(recs, key), k) <==> Present(recs, k) && k != key
  {
    var n, e := IndexOf(recs, key), Erased(recs, key);
    if n < |recs| {
      assert forall i :: 0 <= i < |e| ==> e[i] == if i < n then recs[i] else recs[i + 1];
      if Present(recs, k) && k != key {
        var i :| 0 <= i < |recs| && KeyOf(recs[i]) == k;
        assert e[if i < n then i else i - 1] == recs[i];
      }
    }
  }

  /** Whatever the fate of an add call, the table gained at most the record of its pair. */
  lemma AddedAtMost(w: World, s: State, l: Listener, observer: nat, c: Call)
    requires NoDuplicates(s.table)
    ensures var t := FirstOn(w, s, l, observer, c);
            && NoDuplicates(t.table)
            && (forall q :: q != PairOf(l) ==> (Recorded(w, t, q) <==> Recorded(w, s, q)))
            && (Recorded(w, s, PairOf(l)) ==> Recorded(w, t, PairOf(l)))
            && (PairOf(l) !in t.erred ==>
                  s.up && (AcceptedSlot(w.cfg, c.caller, l.slot) ==> Recorded(w, t, PairOf(l))))
  {
    var p := PairOf(l);
    var r := NewRecord(w, p, observer);
    assert KeyOf(r) == PairKey(w, p);
    TableKeepsKeysUnique(s.table, r, KeyOf(r));
    forall q
      ensures Present(Added(s.table, r), PairKey(w, q)) <==> Recorded(w, s, q) || q == p
    {
      TableKeys(s.table, r, KeyOf(r), PairKey(w, q));
    }
  }

  /** The request reached the running service and the reply came back. */
  predicate ReplyArrives(s: State, c: Call) {
    Connected(s.proxy, c.lookup) == Some(s.instance) && s.up && c.fate == Answered
  }

  /** The client trusts only answers: a first `on` adds its listener exactly when its request reached
      the running service, the service had no objection, and the reply came back. */
  lemma OnlyAnswersCount(w: World, s: State, l: Listener, observer: nat, c: Call)
    requires PairOf(l) !in PairsOf(s.list) && s.todo == []
    ensures DoOn(w, s, l, observer, c).list
            == if ReplyArrives(s, c) && Gate(c.caller, Bit(l.kind)) == Success then s.list + [l] else s.list
  {
    forall m | m in s.list
      ensures !Napi.IsSame(m, l)
    {
      assert PairOf(m) in PairsOf(s.list);
    }
  }

  /** And a call that an `off` makes counts as done exactly when the running service got it, had the
      record and no objection, and the reply came back. */
  lemma OnlyAnswersRemove(w: World, s: State, c: Call)
    requires s.todo != []
    ensures var p := s.todo[0];
            p !in DoOffCall(w, s, c).erred <==>
              ReplyArrives(s, c) && Gate(c.caller, Bit(p.kind)) == Success && Recorded(w, s, p)
  {
  }

  /** A proxy in use is dropped by the report of its own instance's death and by nothing else; a late
      report about an earlier instance leaves it alone. */
  lemma ProxyKept(w: World, s: State, a: Action)
    requires s.proxy.Some?
    ensures Step(w, s, a).proxy == if a == DeathReport(s.proxy.value) then None else s.proxy
  {
  }

  lemma FirstOnCoupled(w: World, s: State, l: Listener, observer: nat, c: Call)
    requires Coupled(w, s) && s.todo == [] && PairOf(l) !in PairsOf(s.list)
    ensures Coupled(w, FirstOn(w, s, l, observer, c))
  {
    AddedAtMost(w, s, l, observer, c);
    Napi.OneMore(s.list, l);
  }

  lemma OnCoupled(w: World, s: State, l: Listener, observer: nat, c: Call)
    requires Coupled(w, s)
    ensures Coupled(w, DoOn(w, s, l, observer, c))
  {
    if s.todo == [] {
      if PairOf(l) in PairsOf(s.list) {
        Napi.OneMore(s.list, l);
      } else {
        forall m | m in s.list
          ensures !Napi.IsSame(m, l)
        {
        }
        FirstOnCoupled(w, s, l, observer, c);
      }
    }
  }

  lemma OffBeginCoupled(w: World, s: State, sel: Selection)
    requires Coupled(w, s)
    ensures Coupled(w, DoOffBegin(s, sel))
  {
    RemovalRequestsExact(s.list, sel);
    forall l
      ensures l in Kept(s.list, sel) <==> l in s.list && !Matches(sel, l)
    {
      KeptMembers(s.list, sel, l);
    }
    var t := DoOffBegin(s, sel);
    forall p | p in PairsOf(s.list) && p !in PairsOf(t.list) && s.todo == []
      ensures p in t.todo
    {
      var l :| l in s.list && PairOf(l) == p;
      assert LosesLast(s.list, sel, p);
    }
  }

  lemma OffCallCoupled(w: World, s: State, c: Call)
    requires Coupled(w, s)
    ensures Coupled(w, DoOffCall(w, s, c))
  {
    if s.todo != [] {
      var p, r := s.todo[0], NewRecord(w, s.todo[0], 0);
      TableKeepsKeysUnique(s.table, r, PairKey(w, p));
      forall q
        ensures Present(Erased(s.table, PairKey(w, p)), PairKey(w, q)) <==> Recorded(w, s, q) && q != p
      {
        TableKeys(s.table, r, PairKey(w, p), PairKey(w, q));
      }
      assert p in s.todo && forall q :: q in s.todo <==> q == p || q in s.todo[1..];
    }
  }

  lemma OthersCoupled(w: World, s: State, r: Record, key: Key)
    requires Coupled(w, s)
    ensures Coupled(w, Step(w, s, OtherAdds(r))) && Coupled(w, Step(w, s, OtherRemoves(key)))
  {
    TableKeepsKeysUnique(s.table, r, key);
    forall q
      ensures !Mine(w, KeyOf(r)) ==> (Present(Added(s.table, r), PairKey(w, q)) <==> Recorded(w, s, q))
      ensures !Mine(w, key) ==> (Present(Erased(s.table, key), PairKey(w, q)) <==> Recorded(w, s, q))
    {
      TableKeys(s.table, r, key, PairKey(w, q));
    }
  }

  lemma StepCoupled(w: World, s: State, a: Action)
    requires Coupled(w, s)
    ensures Coupled(w, Step(w, s, a))
  {
    match a {
      case On(l, observer, c) => OnCoupled(w, s, l, observer, c);
      case OffBegin(sel) => OffBeginCoupled(w, s, sel);
      case OffCall(c) => OffCallCoupled(w, s, c);
      case OtherAdds(r) => OthersCoupled(w, s, r, KeyOf(r));
      case OtherRemoves(key) => OthersCoupled(w, s, NewRecord(w, Pair(0, SimState), 0), key);
      case _ =>
    }
  }

  /** The coupling holds in every run. When no `off` is still calling, a pair recorded for the process
      but without a listener had an error as its latest answer, and a pair with a listener but no
      record was accepted silently or registered with an instance that has died. */
  lemma {:induction false} AlwaysCoupled(w: World, actions: seq<Action>)
    ensures Coupled(w, Run(w, actions))
  {
    if actions != [] {
      AlwaysCoupled(w, actions[..|actions| - 1]);
      StepCoupled(w, Run(w, actions[..|actions| - 1]), actions[|actions| - 1]);
    }
  }

  // ---------------------------------------------------------------- runs without failures

  /** The call connects to the running instance, is answered, and the caller passes the gates. */
  predicate Flawless(s: State, p: Pair, c: Call) {
    && Connected(s.proxy, c.lookup) == Some(s.instance) && c.fate == Answered
    && Gate(c.caller, Bit(p.kind)) == Success
  }

  /** No step of the run fails, and no service dies. */
  ghost predicate NoFailures(w: World, actions: seq<Action>) {
    forall i :: 0 <= i < |actions| ==> StepWorks(w, Run(w, actions[..i]), actions[i])
  }

  lemma RunSnoc(w: World, actions: seq<Action>, a: Action)
    ensures Run(w, actions + [a]) == Step(w, Run(w, actions), a)
  {
    assert (actions + [a])[..|actions|] == actions;
  }

  lemma NoFailuresSnoc(w: World, actions: seq<Action>, a: Action)
    requires NoFailures(w, actions) && StepWorks(w, Run(w, actions), a)
    ensures NoFailures(w, actions + [a])
  {
    var more := actions + [a];
    forall i | 0 <= i < |more|
      ensures StepWorks(w, Run(w, more[..i]), more[i])
    {
      if i < |actions| {
        assert more[..i] == actions[..i] && StepWorks(w, Run(w, actions[..i]), actions[i]);
      } else {
        assert more[..i] == actions;
      }
    }
  }

  /** A run without failures leads to the state. */
  ghost predicate CleanlyReached(w: World, s: State) {
    exists actions :: NoFailures(w, actions) && s == Run(w, actions)
  }

  predicate StepWorks(w: World, s: State, a: Action) {
    match a
    case On(l, _, c) => Flawless(s, PairOf(l), c) && AcceptedSlot(w.cfg, c.caller, l.slot)
    case OffCall(c) => s.todo != [] ==> Flawless(s, s.todo[0], c)
    case Die => false
    case _ => true
  }

  /** The two tables agree, up to the calls an `off` has still to make. */
  ghost predicate InStep(w: World, s: State) {
    && s.up && NoDuplicates(s.table)
    && (forall p :: Recorded(w, s, p) <==> p in PairsOf(s.list) || p in s.todo)
    && (forall p :: p in s.todo ==> p !in PairsOf(s.list))
    && Distinct(s.todo)
  }

  lemma FirstOnInStep(w: World, s: State, l: Listener, observer: nat, c: Call)
    requires InStep(w, s) && s.todo == []
    requires Flawless(s, PairOf(l), c) && AcceptedSlot(w.cfg, c.caller, l.slot)
    ensures InStep(w, FirstOn(w, s, l, observer, c))
  {
    var t := FirstOn(w, s, l, observer, c);
    AddedAtMost(w, s, l, observer, c);
    Napi.OneMore(s.list, l);
    assert t.list == s.list + [l] && PairOf(l) !in t.erred;
  }

  lemma OnInStep(w: World, s: State, l: Listener, observer: nat, c: Call)
    requires InStep(w, s) && Flawless(s, PairOf(l), c) && AcceptedSlot(w.cfg, c.caller, l.slot)
    ensures InStep(w, DoOn(w, s, l, observer, c))
  {
    if s.todo == [] {
      if PairOf(l) in PairsOf(s.list) {
        Napi.OneMore(s.list, l);
      } else {
        forall m | m in s.list
          ensures !Napi.IsSame(m, l)
        {
        }
        FirstOnInStep(w, s, l, observer, c);
      }
    }
  }

  lemma OffBeginInStep(w: World, s: State, sel: Selection)
    requires InStep(w, s)
    ensures InStep(w, DoOffBegin(s, sel))
  {
    var t := DoOffBegin(s, sel);
    RemovalRequestsExact(s.list, sel);
    forall l
      ensures l in Kept(s.list, sel) <==> l in s.list && !Matches(sel, l)
    {
      KeptMembers(s.list, sel, l);
    }
    forall p | s.todo == []
      ensures p in PairsOf(s.list) <==> p in PairsOf(t.list) || p in t.todo
    {
      if l :| l in s.list && PairOf(l) == p {
        assert p in PairsOf(t.list) || LosesLast(s.list, sel, p);
      }
    }
  }

  lemma OffCallInStep(w: World, s: State, c: Call)
    requires InStep(w, s) && s.todo != [] && Flawless(s, s.todo[0], c)
    ensures InStep(w, DoOffCall(w, s, c))
    ensures Returned(s, c, ServiceRemove(c.caller, s.table, PairKey(w, s.todo[0])).1) == Success
  {
    var p, r := s.todo[0], NewRecord(w, s.todo[0], 0);
    assert p in s.todo && Recorded(w, s, p);
    TableKeepsKeysUnique(s.table, r, PairKey(w, p));
    forall q
      ensures Present(Erased(s.table, PairKey(w, p)), PairKey(w, q)) <==> Recorded(w, s, q) && q != p
    {
      TableKeys(s.table, r, PairKey(w, p), PairKey(w, q));
    }
    assert forall q :: q in s.todo <==> q == p || q in s.todo[1..];
    assert p !in s.todo[1..];
  }

  lemma OthersInStep(w: World, s: State, r: Record, key: Key)
    requires InStep(w, s)
    ensures InStep(w, Step(w, s, OtherAdds(r))) && InStep(w, Step(w, s, OtherRemoves(key)))
  {
    TableKeepsKeysUnique(s.table, r, key);
    forall q
      ensures !Mine(w, KeyOf(r)) ==> (Present(Added(s.table, r), PairKey(w, q)) <==> Recorded(w, s, q))
      ensures !Mine(w, key) ==> (Present(Erased(s.table, key), PairKey(w, q)) <==> Recorded(w, s, q))
    {
      TableKeys(s.table, r, key, PairKey(w, q));
    }
  }

  lemma StepInStep(w: World, s: State, a: Action)
    requires InStep(w, s) && StepWorks(w, s, a)
    ensures InStep(w, Step(w, s, a))
  {
    match a {
      case On(l, observer, c) => OnInStep(w, s, l, observer, c);
      case OffBegin(sel) => OffBeginInStep(w, s, sel);
      case OffCall(c) => if s.todo != [] { OffCallInStep(w, s, c); }
      case OtherAdds(r) => OthersInStep(w, s, r, KeyOf(r));
      case OtherRemoves(key) => OthersInStep(w, s, NewRecord(w, Pair(0, SimState), 0), key);
      case _ =>
    }
  }

  /** In a run without failures, after every operation the process has a service record for exactly
      the pairs it has a listener for. */
  lemma {:induction false} TablesAgree(w: World, actions: seq<Action>)
    requires NoFailures(w, actions)
    ensures InStep(w, Run(w, actions))
    ensures var s := Run(w, actions);
            s.todo == [] ==> forall p :: Recorded(w, s, p) <==> p in PairsOf(s.list)
  {
    if actions != [] {
      var front := actions[..|actions| - 1];
      assert forall i :: 0 <= i < |front| ==> front[..i] == actions[..i];
      assert forall i :: 0 <= i < |front| ==> StepWorks(w, Run(w, actions[..i]), actions[i]);
      TablesAgree(w, front);
      StepInStep(w, Run(w, front), actions[|front|]);
    }
  }
}
