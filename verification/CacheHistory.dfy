/** Reading the caches cell by cell, and what a history of writes and replays makes of a cell. */
module CacheHistory {
  import opened Kinds
  import opened Records
  import opened Updates

  datatype Field =
    | FCallState | FNumber | FSignals | FCells | FNetwork | FSimState | FSimReason | FCardType
    | FDataState | FDataNetwork | FDataFlow | FCfu | FVoiceMail | FSimActive

  datatype Value = Num(n: int) | Text(t: string) | Elements(v: seq<nat>) | Network(p: Option<nat>) | Flag(b: bool)

  /** One cell of one cache map; None when the map has no entry for the slot. */
  function Cell(c: Caches, f: Field, slot: int): Option<Value> {
    match f
    case FCallState => if slot in c.callState then Some(Num(c.callState[slot])) else None
    case FNumber => if slot in c.number then Some(Text(c.number[slot])) else None
    case FSignals => if slot in c.signals then Some(Elements(c.signals[slot])) else None
    case FCells => if slot in c.cells then Some(Elements(c.cells[slot])) else None
    case FNetwork => if slot in c.network then Some(Network(c.network[slot])) else None
    case FSimState => if slot in c.simState then Some(Num(c.simState[slot])) else None
    case FSimReason => if slot in c.simReason then Some(Num(c.simReason[slot])) else None
    case FCardType => if slot in c.cardType then Some(Num(c.cardType[slot])) else None
    case FDataState => if slot in c.dataState then Some(Num(c.dataState[slot])) else None
    case FDataNetwork => if slot in c.dataNetwork then Some(Num(c.dataNetwork[slot])) else None
    case FDataFlow => if slot in c.dataFlow then Some(Num(c.dataFlow[slot])) else None
    case FCfu => if slot in c.cfu then Some(Flag(c.cfu[slot])) else None
    case FVoiceMail => if slot in c.voiceMail then Some(Flag(c.voiceMail[slot])) else None
    case FSimActive => if slot in c.simActive then Some(Flag(c.simActive[slot])) else None
  }

  function Default(f: Field): Value {
    match f
    case FNumber => Text("")
    case FSignals => Elements([])
    case FCells => Elements([])
    case FNetwork => Network(None)
    case FCfu => Flag(false)
    case FVoiceMail => Flag(false)
    case FSimActive => Flag(false)
    case _ => Num(0)
  }

  /** What an update stores in a cache map at its target slot. */
  function StoredBy(u: Update, f: Field): Option<Value> {
    match u
    case SetDataConnection(_, d, n) =>
      if f == FDataState then Some(Num(d)) else if f == FDataNetwork then Some(Num(n)) else None
    case SetDataFlow(_, x) => if f == FDataFlow then Some(Num(x)) else None
    case SetCallState(st, num) =>
      if f == FCallState then Some(Num(st)) else if f == FNumber then Some(Text(num)) else None
    case SetCallStateForSlot(_, st, num) =>
      if f == FCallState then Some(Num(st)) else if f == FNumber then Some(Text(num)) else None
    case SetSimState(_, t, st, r) =>
      if f == FSimState then Some(Num(st)) else if f == FSimReason then Some(Num(r))
      else if f == FCardType then Some(Num(t)) else None
    case SetSignalInfo(_, v) => if f == FSignals then Some(Elements(v)) else None
    case SetCellInfo(_, v) => if f == FCells then Some(Elements(v)) else None
    case SetNetworkState(_, n) => if f == FNetwork then Some(Network(n)) else None
    case SetCfuIndicator(_, b) => if f == FCfu then Some(Flag(b)) else None
    case SetIccAccount => None
    case SetVoiceMail(_, b) => if f == FVoiceMail then Some(Flag(b)) else None
    case SetSimActive(_, b) => if f == FSimActive then Some(Flag(b)) else None
    case SetVoIPCall(_) => None
  }

  predicate WritesCell(u: Update, f: Field, slot: int) {
    u.Target() == slot && StoredBy(u, f).Some?
  }

  /** The cache maps a replay to this record reads. */
  predicate ReadsField(cfg: Config, r: Record, f: Field) {
    match f
    case FCallState => Replays(cfg, r, CallState) || Replays(cfg, r, CallStateEx) || Replays(cfg, r, CCallState)
    case FNumber => (Replays(cfg, r, CallState) && IsCanReadCallHistory(cfg, r)) || Replays(cfg, r, CCallState)
    case FSignals => Replays(cfg, r, SignalStrengths)
    case FCells => Replays(cfg, r, CellInfo)
    case FNetwork => Replays(cfg, r, NetworkState)
    case FSimState => Replays(cfg, r, SimState)
    case FSimReason => Replays(cfg, r, SimState)
    case FCardType => Replays(cfg, r, SimState)
    case FDataState => Replays(cfg, r, DataConnection)
    case FDataNetwork => Replays(cfg, r, DataConnection)
    case FDataFlow => Replays(cfg, r, DataFlow)
    case FCfu => Replays(cfg, r, CfuIndicator)
    case FVoiceMail => Replays(cfg, r, VoiceMail)
    case FSimActive => Replays(cfg, r, SimActive)
  }

  /** A write changes exactly the cells of its own maps at its own slot. */
  lemma CellWritten(c: Caches, u: Update, f: Field, slot: int)
    ensures Cell(Written(c, u), f, slot) == (if WritesCell(u, f, slot) then StoredBy(u, f) else Cell(c, f, slot))
  {
    if u.SetSimState? {
      CellWrittenBySim(c, u, f, slot);
    } else if u.SetDataConnection? || u.SetCallState? || u.SetCallStateForSlot? {
      CellWrittenByPair(c, u, f, slot);
    } else if u.SetDataFlow? || u.SetSignalInfo? || u.SetCellInfo? || u.SetNetworkState? {
      CellWrittenByRadio(c, u, f, slot);
    } else {
      CellWrittenByFlag(c, u, f, slot);
    }
  }

  lemma CellWrittenBySim(c: Caches, u: Update, f: Field, slot: int)
    requires u.SetSimState?
    ensures Cell(Written(c, u), f, slot) == (if WritesCell(u, f, slot) then StoredBy(u, f) else Cell(c, f, slot))
  {
  }

  lemma CellWrittenByPair(c: Caches, u: Update, f: Field, slot: int)
    requires u.SetDataConnection? || u.SetCallState? || u.SetCallStateForSlot?
    ensures Cell(Written(c, u), f, slot) == (if WritesCell(u, f, slot) then StoredBy(u, f) else Cell(c, f, slot))
  {
  }

  lemma CellWrittenByRadio(c: Caches, u: Update, f: Field, slot: int)
    requires u.SetDataFlow? || u.SetSignalInfo? || u.SetCellInfo? || u.SetNetworkState?
    ensures Cell(Written(c, u), f, slot) == (if WritesCell(u, f, slot) then StoredBy(u, f) else Cell(c, f, slot))
  {
  }

  lemma CellWrittenByFlag(c: Caches, u: Update, f: Field, slot: int)
    requires u.SetCfuIndicator? || u.SetIccAccount? || u.SetVoiceMail? || u.SetSimActive? || u.SetVoIPCall?
    ensures Cell(Written(c, u), f, slot) == (if WritesCell(u, f, slot) then StoredBy(u, f) else Cell(c, f, slot))
  {
  }

  /** A replay creates the cells it reads, with the type's default, and changes no other. */
  lemma CellRead(cfg: Config, c: Caches, r: Record, f: Field, slot: int)
    ensures Cell(Read(cfg, c, r), f, slot) ==
            (if slot == r.slot && ReadsField(cfg, r, f) && Cell(c, f, slot).None? then Some(Default(f))
             else Cell(c, f, slot))
  {
    if f == FCallState || f == FNumber {
      CallCellRead(cfg, c, r, f, slot);
    } else if f == FSimState || f == FSimReason || f == FCardType || f == FDataState || f == FDataNetwork {
      TupleCellRead(cfg, c, r, f, slot);
    } else {
      SingleCellRead(cfg, c, r, f, slot);
    }
  }

  lemma CallCellRead(cfg: Config, c: Caches, r: Record, f: Field, slot: int)
    requires f == FCallState || f == FNumber
    ensures Cell(Read(cfg, c, r), f, slot) ==
            (if slot == r.slot && ReadsField(cfg, r, f) && Cell(c, f, slot).None? then Some(Default(f))
             else Cell(c, f, slot))
  {
  }

  lemma TupleCellRead(cfg: Config, c: Caches, r: Record, f: Field, slot: int)
    requires f == FSimState || f == FSimReason || f == FCardType || f == FDataState || f == FDataNetwork
    ensures Cell(Read(cfg, c, r), f, slot) ==
            (if slot == r.slot && ReadsField(cfg, r, f) && Cell(c, f, slot).None? then Some(Default(f))
             else Cell(c, f, slot))
  {
  }

  lemma SingleCellRead(cfg: Config, c: Caches, r: Record, f: Field, slot: int)
    requires f == FSignals || f == FCells || f == FNetwork || f == FDataFlow || f == FCfu || f == FVoiceMail
          || f == FSimActive
    ensures Cell(Read(cfg, c, r), f, slot) ==
            (if slot == r.slot && ReadsField(cfg, r, f) && Cell(c, f, slot).None? then Some(Default(f))
             else Cell(c, f, slot))
  {
  }

  // ---------------------------------------------------------------- histories

  /** The value of the last update in the history that wrote this cell. */
  function LastWrite(writes: seq<Update>, f: Field, slot: int): Option<Value> {
    if writes == [] then None
    else if WritesCell(writes[|writes| - 1], f, slot) then StoredBy(writes[|writes| - 1], f)
    else LastWrite(writes[..|writes| - 1], f, slot)
  }

  predicate ReadBefore(cfg: Config, replays: seq<Record>, f: Field, slot: int) {
    exists i :: 0 <= i < |replays| && replays[i].slot == slot && ReadsField(cfg, replays[i], f)
  }

  /** What a getter or a replay finds in a cell after a history: the last accepted write, else
      the constructor's unknown call state for a seeded slot, else the type's default when an
      earlier replay read the cell, else nothing. */
  function Expected(cfg: Config, writes: seq<Update>, replays: seq<Record>, f: Field, slot: int): Option<Value> {
    var last := LastWrite(writes, f, slot);
    if last.Some? then last
    else if f == FCallState && Seeded(cfg, slot) then Some(Num(cfg.callUnknown))
    else if ReadBefore(cfg, replays, f, slot) then Some(Default(f))
    else None
  }

  lemma ExpectedInitially(cfg: Config, f: Field, slot: int)
    ensures Cell(InitialCaches(cfg), f, slot) == Expected(cfg, [], [], f, slot)
  {
    SeedsAre(cfg, if cfg.slotSize == 0 then 1 else if cfg.slotSize < 0 then 0 else cfg.slotSize, slot);
  }

  lemma ExpectedAfterWrite(cfg: Config, writes: seq<Update>, replays: seq<Record>, u: Update, f: Field, slot: int)
    ensures Expected(cfg, writes + [u], replays, f, slot) ==
            (if WritesCell(u, f, slot) then StoredBy(u, f) else Expected(cfg, writes, replays, f, slot))
  {
    assert (writes + [u])[..|writes|] == writes;
  }

  lemma ExpectedAfterReplay(cfg: Config, writes: seq<Update>, replays: seq<Record>, r: Record, f: Field, slot: int)
    ensures Expected(cfg, writes, replays + [r], f, slot) ==
            (if slot == r.slot && ReadsField(cfg, r, f) && Expected(cfg, writes, replays, f, slot).None?
             then Some(Default(f)) else Expected(cfg, writes, replays, f, slot))
  {
    var more := replays + [r];
    assert more[|replays|] == r;
    assert forall i :: 0 <= i < |replays| ==> more[i] == replays[i];
  }

  /** The last accepted SIM update of a slot. */
  function LastSim(writes: seq<Update>, slot: int): Option<Update> {
    if writes == [] then None
    else
      var u := writes[|writes| - 1];
      if u.SetSimState? && u.slot == slot then Some(u) else LastSim(writes[..|writes| - 1], slot)
  }

  function LastConnection(writes: seq<Update>, slot: int): Option<Update> {
    if writes == [] then None
    else
      var u := writes[|writes| - 1];
      if u.SetDataConnection? && u.slot == slot then Some(u) else LastConnection(writes[..|writes| - 1], slot)
  }

  predicate WritesCall(u: Update, slot: int) {
    u.Target() == slot && (u.SetCallState? || u.SetCallStateForSlot?)
  }

  /** The last accepted call-state update of a slot; -1 stands for all slots. */
  function LastCall(writes: seq<Update>, slot: int): (u: Option<Update>)
    ensures u.Some? ==> WritesCall(u.value, slot)
  {
    if writes == [] then None
    else
      var u := writes[|writes| - 1];
      if WritesCall(u, slot) then Some(u)
      else LastCall(writes[..|writes| - 1], slot)
  }

  /** The incoming number the history leaves for a slot. */
  function NumberAfter(writes: seq<Update>, slot: int): string {
    match LastCall(writes, slot)
    case Some(u) => u.number
    case None => ""
  }

  /** The call state and the number of a slot have one common writer. */
  lemma {:induction false} OneCallWriter(writes: seq<Update>, slot: int)
    ensures match LastCall(writes, slot)
            case Some(u) =>
              && u in writes && WritesCall(u, slot)
              && LastWrite(writes, FCallState, slot) == Some(Num(u.state))
              && LastWrite(writes, FNumber, slot) == Some(Text(u.number))
            case None => LastWrite(writes, FCallState, slot) == LastWrite(writes, FNumber, slot) == None
  {
    if writes != [] {
      OneCallWriter(writes[..|writes| - 1], slot);
    }
  }

  /** An update that no later one overwrites is the last write of its cells. */
  lemma {:induction false} LastWriteFrom(writes: seq<Update>, w: nat, f: Field)
    requires w < |writes| && StoredBy(writes[w], f).Some?
    requires forall v :: w < v < |writes| ==> !WritesCell(writes[v], f, writes[w].Target())
    ensures LastWrite(writes, f, writes[w].Target()) == StoredBy(writes[w], f)
  {
    if w < |writes| - 1 {
      LastWriteFrom(writes[..|writes| - 1], w, f);
    }
  }

  /** The three SIM cells of a slot, and the two data-connection cells, have one common writer. */
  lemma {:induction false} OneWriter(writes: seq<Update>, slot: int)
    ensures match LastSim(writes, slot)
            case Some(u) =>
              && u in writes && u.SetSimState? && u.slot == slot
              && LastWrite(writes, FSimState, slot) == Some(Num(u.simState))
              && LastWrite(writes, FSimReason, slot) == Some(Num(u.reason))
              && LastWrite(writes, FCardType, slot) == Some(Num(u.cardType))
            case None =>
              LastWrite(writes, FSimState, slot) == LastWrite(writes, FSimReason, slot) ==
              LastWrite(writes, FCardType, slot) == None
    ensures match LastConnection(writes, slot)
            case Some(u) =>
              && u in writes && u.SetDataConnection? && u.slot == slot
              && LastWrite(writes, FDataState, slot) == Some(Num(u.dataState))
              && LastWrite(writes, FDataNetwork, slot) == Some(Num(u.networkType))
            case None => LastWrite(writes, FDataState, slot) == LastWrite(writes, FDataNetwork, slot) == None
  {
    if writes != [] {
      OneWriter(writes[..|writes| - 1], slot);
    }
  }
}
