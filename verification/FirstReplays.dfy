/** What the service does for the first listener of a pair: whether it replays hangs on the flag the
    front end passes, and the three front ends pass it for different event types. */
module FirstReplays {
  import opened Kinds
  import opened Records
  import opened Updates
  import opened Listeners
  import opened Subscriptions
  import opened Interleaving
  import opened ReplayOrder
  import Admissions
  import Napi = NapiListeners
  import Cj = CangjieListeners
  import Ani = AniListeners

  /** A registration of the pair by a process that the service stores at once. */
  predicate AcceptedNow(cfg: Config, s: State, caller: Caller, r: Record, p: Pair) {
    && s.reading == map[]
    && r.slot == p.slot && r.mask == Bit(p.kind) && r.observer.Some?
    && Admissions.Entitled(caller, p.kind) && Admissions.Storable(cfg, caller, p.slot)
  }

  /** The record the process has for the pair: its own earlier one, or the new one. */
  function RecordKept(s: State, r: Record): Record {
    Effective(Recs(s.table), r)
  }

  /** The service has replayed to the process's record, last of all, the value of the event type it
      holds for the slot. */
  ghost predicate ReplayedNow(cfg: Config, s: State, t: State, r: Record, k: Kind)
    requires k != VoIPCall
  {
    var e := RecordKept(s, r);
    && |t.log| == |s.log| + 1 && t.log[..|s.log|] == s.log
    && t.log[|s.log|].ReplayedTo? && t.log[|s.log|].to == e && e.slot == r.slot && e.token == r.token && e.pid == r.pid
    && t.log[|s.log|].calls == (if Includes(cfg, e, k) then [Sent(e, ReplayCallback(cfg, s.caches, e, k))] else [])
  }

  /** A replay of a record with one event type sends that type's callback alone. */
  lemma SingleReplay(cfg: Config, c: Caches, e: Record, k: Kind)
    requires e.mask == Bit(k) && k != VoIPCall
    ensures Replayed(cfg, c, e, []) == if Includes(cfg, e, k) then [Sent(e, ReplayCallback(cfg, c, e, k))] else []
  {
    var calls := Replayed(cfg, c, e, []);
    var i := Position(k);
    ReplayInOrder(cfg, c, e);
    assert e.mask.kinds == {k};
    forall j: nat | j < 13 && j != i
      ensures !Includes(cfg, e, REPLAY_ORDER[j])
    {
      OrderDistinct(i, j);
    }
    IncludedOne(cfg, e, i, 13);
    IncludedOne(cfg, e, i, i);
  }

  /** When only the i-th type can be included, the count is that of the i-th alone. */
  lemma IncludedOne(cfg: Config, e: Record, i: nat, n: nat)
    requires i < 13 && n <= 13
    requires forall j: nat :: j < 13 && j != i ==> !Includes(cfg, e, REPLAY_ORDER[j])
    ensures Included(cfg, e, REPLAY_ORDER, n) == if i < n && Includes(cfg, e, REPLAY_ORDER[i]) then 1 else 0
  {
    var places := set j: nat | j < n && IncludedAt(cfg, e, REPLAY_ORDER, j);
    if i < n && Includes(cfg, e, REPLAY_ORDER[i]) {
      assert places == {i};
    } else {
      assert places == {};
    }
  }

  function Position(k: Kind): (i: nat)
    requires k != VoIPCall
    ensures i < 13 && REPLAY_ORDER[i] == k
  {
    match k
    case CallState => 0
    case SignalStrengths => 1
    case NetworkState => 2
    case CellInfo => 3
    case SimState => 4
    case DataConnection => 5
    case DataFlow => 6
    case CfuIndicator => 7
    case VoiceMail => 8
    case IccAccount => 9
    case CallStateEx => 10
    case CCallState => 11
    case SimActive => 12
  }

  lemma OrderDistinct(i: nat, j: nat)
    requires i < 13 && j < 13 && i != j
    ensures REPLAY_ORDER[i] != REPLAY_ORDER[j]
  {
    OrderListsAll(CallState);
    assert DistinctKinds(REPLAY_ORDER);
    if i < j {
      assert REPLAY_ORDER[i] != REPLAY_ORDER[j];
    } else {
      assert REPLAY_ORDER[j] != REPLAY_ORDER[i];
    }
  }

  /** What the flag of a registration does. */
  lemma NotifyReplays(cfg: Config, s: State, caller: Caller, r: Record, p: Pair, notify: bool)
    requires AcceptedNow(cfg, s, caller, r, p) && (notify ==> p.kind != VoIPCall)
    ensures var t := Step(cfg, s, Register(caller, r, notify));
            if notify then ReplayedNow(cfg, s, t, r, p.kind) else t.log == s.log
  {
    assert r.mask.kinds == {p.kind};
    Admissions.GateIs(caller, r.mask);
    if notify {
      var n := IndexOf(Recs(s.table), KeyOf(r));
      var e := Pushed(s, r)[n];
      assert e.rec == RecordKept(s, r) && KeyOf(e.rec) == KeyOf(r);
      SingleReplay(cfg, s.caches, e.rec, p.kind);
    }
  }

  // ---------------------------------------------------------------- the three front ends

  /** The first NAPI `on` of a pair makes one call; accepted, it brings the listener the current value
      of call state, SIM state, the restricted call types and SIM activity, and nothing for any other
      event type. */
  lemma NapiFirstOn(cfg: Config, s: State, caller: Caller, r: Record, list: seq<Listener>, l: Listener)
    requires AcceptedNow(cfg, s, caller, r, PairOf(l)) && PairOf(l) !in PairsOf(list)
    ensures var calls := Napi.Registered(list, l, Success).1;
            && |calls| == 1 && calls[0].Add? && calls[0].pair == PairOf(l)
            && var t := Step(cfg, s, Register(caller, r, calls[0].notify));
               if l.kind in {CallState, SimState, CallStateEx, CCallState, SimActive}
               then ReplayedNow(cfg, s, t, r, l.kind)
               else t.log == s.log
  {
    forall m | m in list
      ensures !Napi.IsSame(m, l)
    {
      assert PairOf(m) in PairsOf(list);
    }
    NotifyReplays(cfg, s, caller, r, PairOf(l), Napi.Registered(list, l, Success).1[0].notify);
  }

  /** The first Cangjie `on` of a pair brings the current value of call state only. */
  lemma CjFirstOn(cfg: Config, s: State, caller: Caller, r: Record, list: seq<Cj.CjListener>, l: Cj.CjListener)
    requires AcceptedNow(cfg, s, caller, r, Pair(l.slot, l.kind)) && Pair(l.slot, l.kind) !in Cj.CjPairs(list)
    ensures var calls := Cj.CjRegistered(list, l, Success).1;
            && |calls| == 1 && calls[0].Add? && calls[0].pair == Pair(l.slot, l.kind)
            && var t := Step(cfg, s, Register(caller, r, calls[0].notify));
               if l.kind == CallState then ReplayedNow(cfg, s, t, r, l.kind) else t.log == s.log
  {
    forall m | m in list
      ensures !Cj.CjSame(m, l)
    {
      assert Pair(m.slot, m.kind) in Cj.CjPairs(list);
    }
    NotifyReplays(cfg, s, caller, r, Pair(l.slot, l.kind), Cj.CjRegistered(list, l, Success).1[0].notify);
  }

  /** The first ANI `on` of a pair brings the current value of the three call types. */
  lemma AniFirstOn(cfg: Config, s: State, caller: Caller, r: Record, inner: seq<Sub>, l: Sub, simSlotCount: int)
    requires AcceptedNow(cfg, s, caller, r, SubPair(l)) && SubPair(l) !in SubPairs(inner)
    requires Ani.IsValidSlotIdEx(simSlotCount, l.kind, l.slot)
    ensures var calls := Ani.AniRegistered(inner, l, simSlotCount, Success).1;
            && |calls| == 1 && calls[0].Add? && calls[0].pair == SubPair(l)
            && var t := Step(cfg, s, Register(caller, r, calls[0].notify));
               if l.kind in {CallState, CallStateEx, CCallState} then ReplayedNow(cfg, s, t, r, l.kind)
               else t.log == s.log
  {
    NotifyReplays(cfg, s, caller, r, SubPair(l), Ani.AniRegistered(inner, l, simSlotCount, Success).1[0].notify);
  }
}
