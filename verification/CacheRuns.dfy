/** What the caches, the record table and the replays are after any run. */
module CacheRuns {
  import opened Kinds
  import opened Records
  import opened Updates
  import opened CacheHistory
  import opened Interleaving

  // ---------------------------------------------------------------- caches are a fold of the history

  ghost predicate CachesExpected(cfg: Config, s: State) {
    forall f: Field, slot: int :: Cell(s.caches, f, slot) == Expected(cfg, s.issued, s.replays, f, slot)
  }

  lemma CachesExpectedKept(cfg: Config, s: State, a: Action)
    requires CachesExpected(cfg, s)
    ensures CachesExpected(cfg, Step(cfg, s, a))
  {
    match a {
      case Write(caller, u) => CachesKeptByWrite(cfg, s, caller, u);
      case Register(caller, r, notify) => CachesKeptByRegister(cfg, s, caller, r, notify);
      case _ => CachesUntouched(cfg, s, a);
    }
  }

  lemma CachesUntouched(cfg: Config, s: State, a: Action)
    requires !a.Write? && !a.Register?
    ensures var s' := Step(cfg, s, a);
            s'.caches == s.caches && s'.issued == s.issued && s'.replays == s.replays
  {
  }

  lemma CachesKeptByWrite(cfg: Config, s: State, caller: Caller, u: Update)
    requires CachesExpected(cfg, s)
    ensures CachesExpected(cfg, DoWrite(cfg, s, caller, u))
  {
    forall f: Field, slot: int
      ensures Cell(Written(s.caches, u), f, slot) == Expected(cfg, s.issued + [u], s.replays, f, slot)
    {
      CellWritten(s.caches, u, f, slot);
      ExpectedAfterWrite(cfg, s.issued, s.replays, u, f, slot);
    }
  }

  /** A registration leaves the caches alone or reads them for the record it ends up with. */
  lemma RegisterCaches(cfg: Config, s: State, caller: Caller, r: Record, notify: bool)
    ensures var s' := DoRegister(cfg, s, caller, r, notify);
            var e := Effective(Recs(s.table), r);
            && s'.issued == s.issued
            && ((s'.caches == s.caches && s'.replays == s.replays)
                || (s'.caches == Read(cfg, s.caches, e) && s'.replays == s.replays + [e]))
  {
  }

  lemma CachesKeptByRegister(cfg: Config, s: State, caller: Caller, r: Record, notify: bool)
    requires CachesExpected(cfg, s)
    ensures CachesExpected(cfg, DoRegister(cfg, s, caller, r, notify))
  {
    RegisterCaches(cfg, s, caller, r, notify);
    var e := Effective(Recs(s.table), r);
    forall f: Field, slot: int
      ensures Cell(Read(cfg, s.caches, e), f, slot) == Expected(cfg, s.issued, s.replays + [e], f, slot)
    {
      CellRead(cfg, s.caches, e, f, slot);
      ExpectedAfterReplay(cfg, s.issued, s.replays, e, f, slot);
    }
  }

  /** After any run every cache cell, and so every getter and every replay, holds the last accepted
      write for its slot, else the constructor's seed, else the default an earlier replay
      inserted, else nothing. */
  lemma {:induction false} CachesAreHistory(cfg: Config, actions: seq<Action>)
    ensures CachesExpected(cfg, Run(cfg, actions))
  {
    if actions == [] {
      forall f: Field, slot: int
        ensures Cell(InitialCaches(cfg), f, slot) == Expected(cfg, [], [], f, slot)
      {
        ExpectedInitially(cfg, f, slot);
      }
    } else {
      CachesAreHistory(cfg, actions[..|actions| - 1]);
      CachesExpectedKept(cfg, Run(cfg, actions[..|actions| - 1]), actions[|actions| - 1]);
    }
  }

  // ---------------------------------------------------------------- the key space stays bounded

  /** The slots a cache map can ever have an entry for. */
  predicate KeySpace(cfg: Config, slot: int) {
    Seeded(cfg, slot) || -1 <= slot <= cfg.maxSlotCount + 1 || slot == ALL_SLOTS
  }

  predicate TargetsBounded(cfg: Config, s: State) {
    && (forall j :: 0 <= j < |s.issued| && s.issued[j].ChecksSlot() ==> 0 <= s.issued[j].Target() < cfg.slotSize)
    && (forall j :: 0 <= j < |s.replays| ==>
          -1 <= s.replays[j].slot <= cfg.maxSlotCount + 1 || s.replays[j].slot == ALL_SLOTS)
  }

  lemma TargetsBoundedKept(cfg: Config, s: State, a: Action)
    requires TargetsBounded(cfg, s)
    ensures TargetsBounded(cfg, Step(cfg, s, a))
  {
    match a {
      case Write(caller, u) =>
      case Register(caller, r, notify) =>
        var n := IndexOf(Recs(s.table), KeyOf(r));
        assert Pushed(s, r)[n].rec.slot == r.slot;
      case _ => CachesUntouched(cfg, s, a);
    }
  }

  lemma {:induction false} LastWriteHasWriter(writes: seq<Update>, f: Field, slot: int)
    requires LastWrite(writes, f, slot).Some?
    ensures exists j :: 0 <= j < |writes| && WritesCell(writes[j], f, slot)
  {
    var n := |writes| - 1;
    if !WritesCell(writes[n], f, slot) {
      LastWriteHasWriter(writes[..n], f, slot);
      var j :| 0 <= j < n && WritesCell(writes[..n][j], f, slot);
      assert writes[j] == writes[..n][j];
    }
  }

  lemma {:induction false} TargetsBoundedAlways(cfg: Config, actions: seq<Action>)
    ensures TargetsBounded(cfg, Run(cfg, actions))
  {
    if actions != [] {
      TargetsBoundedAlways(cfg, actions[..|actions| - 1]);
      TargetsBoundedKept(cfg, Run(cfg, actions[..|actions| - 1]), actions[|actions| - 1]);
    }
  }

  /** However long the run, no cache map gains a key outside the seeded slots (the writable ones
      and -1) and the slots a registration can be accepted for. */
  lemma CacheKeysBounded(cfg: Config, s: State, f: Field, slot: int)
    requires Reachable(cfg, s) && Cell(s.caches, f, slot).Some?
    ensures KeySpace(cfg, slot)
  {
    var actions :| s == Run(cfg, actions);
    CachesAreHistory(cfg, actions);
    TargetsBoundedAlways(cfg, actions);
    if LastWrite(s.issued, f, slot).Some? {
      LastWriteHasWriter(s.issued, f, slot);
      var j :| 0 <= j < |s.issued| && WritesCell(s.issued[j], f, slot);
      assert s.issued[j].Target() == slot;
    }
  }

  // ---------------------------------------------------------------- cached tuples are untorn

  /** The map values behind the cells of the tuples. */
  lemma TupleCells(c: Caches, slot: int)
    ensures Cell(c, FCallState, slot) == (if slot in c.callState then Some(Num(c.callState[slot])) else None)
    ensures Cell(c, FNumber, slot) == (if slot in c.number then Some(Text(c.number[slot])) else None)
    ensures Cell(c, FSimState, slot) == (if slot in c.simState then Some(Num(c.simState[slot])) else None)
    ensures Cell(c, FSimReason, slot) == (if slot in c.simReason then Some(Num(c.simReason[slot])) else None)
    ensures Cell(c, FCardType, slot) == (if slot in c.cardType then Some(Num(c.cardType[slot])) else None)
    ensures Cell(c, FDataState, slot) == (if slot in c.dataState then Some(Num(c.dataState[slot])) else None)
    ensures Cell(c, FDataNetwork, slot) == (if slot in c.dataNetwork then Some(Num(c.dataNetwork[slot])) else None)
  {
  }

  /** What a slot's SIM cells hold: the triple of its last SIM update, or all defaults. */
  predicate SimTripleWhole(c: Caches, issued: seq<Update>, slot: int) {
    && (slot in c.simState <==> slot in c.simReason) && (slot in c.simState <==> slot in c.cardType)
    && (slot in c.simState ==>
          match LastSim(issued, slot)
          case Some(u) =>
            u in issued && u == SetSimState(slot, c.cardType[slot], c.simState[slot], c.simReason[slot])
          case None => c.cardType[slot] == c.simState[slot] == c.simReason[slot] == 0)
  }

  predicate ConnectionPairWhole(c: Caches, issued: seq<Update>, slot: int) {
    && (slot in c.dataState <==> slot in c.dataNetwork)
    && (slot in c.dataState ==>
          match LastConnection(issued, slot)
          case Some(u) =>
            u in issued && u == SetDataConnection(slot, c.dataState[slot], c.dataNetwork[slot])
          case None => c.dataState[slot] == c.dataNetwork[slot] == 0)
  }

  /** The call state of a slot no update has written. */
  function InitialState(cfg: Config, slot: int): int {
    if Seeded(cfg, slot) then cfg.callUnknown else 0
  }

  /** A slot's call state and number: those of its last call-state update, or the constructor's or
      the type's defaults. */
  predicate CallPairWhole(cfg: Config, c: Caches, issued: seq<Update>, slot: int) {
    match LastCall(issued, slot)
    case Some(u) =>
      && u in issued && slot in c.callState && c.callState[slot] == u.state
      && slot in c.number && c.number[slot] == u.number
    case None =>
      && (slot in c.callState ==> c.callState[slot] == InitialState(cfg, slot))
      && (slot in c.number ==> c.number[slot] == "")
  }

  lemma SimTripleIsWhole(cfg: Config, s: State, slot: int)
    requires CachesExpected(cfg, s)
    ensures SimTripleWhole(s.caches, s.issued, slot)
  {
    OneWriter(s.issued, slot);
    TupleCells(s.caches, slot);
    assert ReadBefore(cfg, s.replays, FSimState, slot) <==> ReadBefore(cfg, s.replays, FSimReason, slot);
    assert ReadBefore(cfg, s.replays, FSimState, slot) <==> ReadBefore(cfg, s.replays, FCardType, slot);
  }

  lemma ConnectionPairIsWhole(cfg: Config, s: State, slot: int)
    requires CachesExpected(cfg, s)
    ensures ConnectionPairWhole(s.caches, s.issued, slot)
  {
    OneWriter(s.issued, slot);
    TupleCells(s.caches, slot);
    assert ReadBefore(cfg, s.replays, FDataState, slot) <==> ReadBefore(cfg, s.replays, FDataNetwork, slot);
  }

  lemma CallPairIsWhole(cfg: Config, s: State, slot: int)
    requires CachesExpected(cfg, s)
    ensures CallPairWhole(cfg, s.caches, s.issued, slot)
  {
    OneCallWriter(s.issued, slot);
    TupleCells(s.caches, slot);
    assert Cell(s.caches, FCallState, slot) == Expected(cfg, s.issued, s.replays, FCallState, slot);
    assert Cell(s.caches, FNumber, slot) == Expected(cfg, s.issued, s.replays, FNumber, slot);
  }

  /** In every reachable state the three SIM maps have the same keys, and each slot's triple is
      the triple of the slot's last SIM update or all defaults; likewise the connection pair, and the
      pair of call state and incoming number. */
  lemma CachedTuplesUntorn(cfg: Config, s: State, slot: int)
    requires Reachable(cfg, s)
    ensures SimTripleWhole(s.caches, s.issued, slot) && ConnectionPairWhole(s.caches, s.issued, slot)
    ensures CallPairWhole(cfg, s.caches, s.issued, slot)
  {
    var actions :| s == Run(cfg, actions);
    CachesAreHistory(cfg, actions);
    SimTripleIsWhole(cfg, s, slot);
    ConnectionPairIsWhole(cfg, s, slot);
    CallPairIsWhole(cfg, s, slot);
  }

  // ---------------------------------------------------------------- what the caches mean to a reader

  /** The caches that a history of writes alone leaves. */
  function WrittenAll(cfg: Config, writes: seq<Update>): Caches {
    if writes == [] then InitialCaches(cfg)
    else Written(WrittenAll(cfg, writes[..|writes| - 1]), writes[|writes| - 1])
  }

  lemma {:induction false} WrittenAllCells(cfg: Config, writes: seq<Update>, f: Field, slot: int)
    ensures Cell(WrittenAll(cfg, writes), f, slot) == Expected(cfg, writes, [], f, slot)
  {
    if writes == [] {
      ExpectedInitially(cfg, f, slot);
    } else {
      var n := |writes| - 1;
      WrittenAllCells(cfg, writes[..n], f, slot);
      CellWritten(WrittenAll(cfg, writes[..n]), writes[n], f, slot);
      ExpectedAfterWrite(cfg, writes[..n], [], writes[n], f, slot);
      assert writes[..n] + [writes[n]] == writes;
    }
  }

  /** What `operator[]` yields for a cell. */
  function CellOr(c: Caches, f: Field, slot: int): Value {
    match f
    case FCallState => Num(At(c.callState, slot, 0))
    case FNumber => Text(At(c.number, slot, ""))
    case FSignals => Elements(At(c.signals, slot, []))
    case FCells => Elements(At(c.cells, slot, []))
    case FNetwork => Network(At(c.network, slot, None))
    case FSimState => Num(At(c.simState, slot, 0))
    case FSimReason => Num(At(c.simReason, slot, 0))
    case FCardType => Num(At(c.cardType, slot, 0))
    case FDataState => Num(At(c.dataState, slot, 0))
    case FDataNetwork => Num(At(c.dataNetwork, slot, 0))
    case FDataFlow => Num(At(c.dataFlow, slot, 0))
    case FCfu => Flag(At(c.cfu, slot, false))
    case FVoiceMail => Flag(At(c.voiceMail, slot, false))
    case FSimActive => Flag(At(c.simActive, slot, false))
  }

  lemma CellOrIs(c: Caches, f: Field, slot: int)
    ensures CellOr(c, f, slot) == if Cell(c, f, slot).Some? then Cell(c, f, slot).value else Default(f)
  {
  }

  predicate CallAndRadioAgree(c: Caches, d: Caches, slot: int) {
    && At(c.callState, slot, 0) == At(d.callState, slot, 0) && At(c.number, slot, "") == At(d.number, slot, "")
    && At(c.signals, slot, []) == At(d.signals, slot, []) && At(c.cells, slot, []) == At(d.cells, slot, [])
    && At(c.network, slot, None) == At(d.network, slot, None)
  }

  predicate SimAndDataAgree(c: Caches, d: Caches, slot: int) {
    && At(c.simState, slot, 0) == At(d.simState, slot, 0) && At(c.simReason, slot, 0) == At(d.simReason, slot, 0)
    && At(c.cardType, slot, 0) == At(d.cardType, slot, 0) && At(c.dataState, slot, 0) == At(d.dataState, slot, 0)
    && At(c.dataNetwork, slot, 0) == At(d.dataNetwork, slot, 0) && At(c.dataFlow, slot, 0) == At(d.dataFlow, slot, 0)
  }

  predicate FlagsAgree(c: Caches, d: Caches, slot: int) {
    && At(c.cfu, slot, false) == At(d.cfu, slot, false) && At(c.voiceMail, slot, false) == At(d.voiceMail, slot, false)
    && At(c.simActive, slot, false) == At(d.simActive, slot, false)
  }

  /** A reader of this slot cannot tell the two caches apart. */
  predicate AgreeAt(c: Caches, d: Caches, slot: int) {
    CallAndRadioAgree(c, d, slot) && SimAndDataAgree(c, d, slot) && FlagsAgree(c, d, slot)
  }

  predicate SameCell(c: Caches, d: Caches, f: Field, slot: int) {
    CellOr(c, f, slot) == CellOr(d, f, slot)
  }

  lemma CallAndRadioCellsAgree(c: Caches, d: Caches, slot: int)
    requires SameCell(c, d, FCallState, slot) && SameCell(c, d, FNumber, slot) && SameCell(c, d, FSignals, slot)
    requires SameCell(c, d, FCells, slot) && SameCell(c, d, FNetwork, slot)
    ensures CallAndRadioAgree(c, d, slot)
  {
  }

  lemma SimAndDataCellsAgree(c: Caches, d: Caches, slot: int)
    requires SameCell(c, d, FSimState, slot) && SameCell(c, d, FSimReason, slot) && SameCell(c, d, FCardType, slot)
    requires SameCell(c, d, FDataState, slot) && SameCell(c, d, FDataNetwork, slot) && SameCell(c, d, FDataFlow, slot)
    ensures SimAndDataAgree(c, d, slot)
  {
  }

  lemma FlagCellsAgree(c: Caches, d: Caches, slot: int)
    requires SameCell(c, d, FCfu, slot) && SameCell(c, d, FVoiceMail, slot) && SameCell(c, d, FSimActive, slot)
    ensures FlagsAgree(c, d, slot)
  {
  }

  /** To every reader the caches are what the accepted writes alone make them: the defaults that
      replays insert are the values a missing entry stands for. */
  lemma CachesReadAsWritten(cfg: Config, s: State, slot: int)
    requires CachesExpected(cfg, s)
    ensures AgreeAt(s.caches, WrittenAll(cfg, s.issued), slot)
  {
    forall f: Field
      ensures SameCell(s.caches, WrittenAll(cfg, s.issued), f, slot)
    {
      WrittenAllCells(cfg, s.issued, f, slot);
      assert Cell(s.caches, f, slot) == Expected(cfg, s.issued, s.replays, f, slot);
      CellOrIs(s.caches, f, slot);
      CellOrIs(WrittenAll(cfg, s.issued), f, slot);
    }
    CallAndRadioCellsAgree(s.caches, WrittenAll(cfg, s.issued), slot);
    SimAndDataCellsAgree(s.caches, WrittenAll(cfg, s.issued), slot);
    FlagCellsAgree(s.caches, WrittenAll(cfg, s.issued), slot);
  }

  lemma NumberIsNumberAfter(cfg: Config, writes: seq<Update>, slot: int)
    ensures At(WrittenAll(cfg, writes).number, slot, "") == NumberAfter(writes, slot)
  {
    WrittenAllCells(cfg, writes, FNumber, slot);
    OneCallWriter(writes, slot);
    TupleCells(WrittenAll(cfg, writes), slot);
  }

  lemma ReplayedAgree(cfg: Config, c: Caches, d: Caches, r: Record)
    requires AgreeAt(c, d, r.slot)
    ensures Replayed(cfg, c, r, []) == Replayed(cfg, d, r, [])
  {
    var s1 := RadioReplay(cfg, c, r, []);
    assert s1 == RadioReplay(cfg, d, r, []);
    var s2 := SimAndConnectionReplay(cfg, c, r, s1);
    assert s2 == SimAndConnectionReplay(cfg, d, r, s1);
    var s3 := IndicatorReplay(cfg, c, r, s2);
    assert s3 == IndicatorReplay(cfg, d, r, s2);
    assert ExReplay(cfg, c, r, s3) == ExReplay(cfg, d, r, s3);
  }
}
