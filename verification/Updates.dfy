/** The per-slot caches of the service, the updates that write them, the callbacks that leave
    the service, and what a fan-out or a replay sends. */
module Updates {
  import opened Kinds
  import opened Records

  /** One accepted call of an `UpdateXxx` entry point. */
  datatype Update =
    | SetDataConnection(slot: int, dataState: int, networkType: int)
    | SetDataFlow(slot: int, flow: int)
    | SetCallState(state: int, number: string)
    | SetCallStateForSlot(slot: int, state: int, number: string)
    | SetSimState(slot: int, cardType: int, simState: int, reason: int)
    | SetSignalInfo(slot: int, signals: seq<nat>)
    | SetCellInfo(slot: int, cells: seq<nat>)
    | SetNetworkState(slot: int, network: Option<nat>)
    | SetCfuIndicator(slot: int, cfu: bool)
    | SetIccAccount
    | SetVoiceMail(slot: int, voiceMail: bool)
    | SetSimActive(slot: int, active: bool)
    | SetVoIPCall(info: nat)
  {
    /** The slot whose caches the update writes; -1 stands for "all slots" call state. */
    function Target(): int {
      match this
      case SetCallState(_, _) => -1
      case SetIccAccount => -1
      case SetVoIPCall(_) => -1
      case _ => slot
    }

    /** The entry points that write a cache under the exclusive lock before they fan out. */
    predicate Writes() {
      !SetIccAccount? && !SetVoIPCall?
    }

    predicate ChecksSlot() {
      Writes() && !SetCallState?
    }
  }

  datatype Callback =
    | OnDataConnection(slot: int, dataState: int, networkType: int)
    | OnDataFlow(slot: int, flow: int)
    | OnCallState(slot: int, state: int, number: string)
    | OnCallStateEx(slot: int, state: int)
    | OnCCallState(slot: int, state: int, number: string)
    | OnSimState(slot: int, cardType: int, simState: int, reason: int)
    | OnSignalInfo(slot: int, signals: seq<nat>)
    | OnCellInfo(slot: int, cells: seq<nat>)
    | OnNetworkState(slot: int, network: Option<nat>)
    | OnCfuIndicator(slot: int, cfu: bool)
    | OnIccAccount
    | OnVoiceMail(slot: int, voiceMail: bool)
    | OnSimActive(slot: int, active: bool)
    | OnVoIPCall(info: nat)
  {
    function Kind(): Kind {
      match this
      case OnDataConnection(_, _, _) => DataConnection
      case OnDataFlow(_, _) => DataFlow
      case OnCallState(_, _, _) => CallState
      case OnCallStateEx(_, _) => CallStateEx
      case OnCCallState(_, _, _) => CCallState
      case OnSimState(_, _, _, _) => SimState
      case OnSignalInfo(_, _) => SignalStrengths
      case OnCellInfo(_, _) => CellInfo
      case OnNetworkState(_, _) => NetworkState
      case OnCfuIndicator(_, _) => CfuIndicator
      case OnIccAccount => IccAccount
      case OnVoiceMail(_, _) => VoiceMail
      case OnSimActive(_, _) => SimActive
      case OnVoIPCall(_) => VoIPCall
    }
  }

  /** A callback together with the record whose observer received it. */
  datatype Sent = Sent(to: Record, cb: Callback)

  // ---------------------------------------------------------------- caches

  datatype Caches = Caches(
    callState: map<int, int>,
    number: map<int, string>,
    signals: map<int, seq<nat>>,
    cells: map<int, seq<nat>>,
    network: map<int, Option<nat>>,
    simState: map<int, int>,
    simReason: map<int, int>,
    cardType: map<int, int>,
    dataState: map<int, int>,
    dataNetwork: map<int, int>,
    dataFlow: map<int, int>,
    cfu: map<int, bool>,
    voiceMail: map<int, bool>,
    simActive: map<int, bool>)

  /** The value `operator[]` yields: the stored one, or the default it would insert. */
  function At<V>(m: map<int, V>, slot: int, default: V): V {
    if slot in m then m[slot] else default
  }

  /** What a getter finds. */
  function Stored<V>(m: map<int, V>, slot: int): Option<V> {
    if slot in m then Some(m[slot]) else None
  }

  /** The map after `operator[]` was used to read it. */
  function Touched<V>(m: map<int, V>, slot: int, default: V): (t: map<int, V>)
    ensures slot in t && t[slot] == At(m, slot, default)
  {
    if slot in m then m else m[slot := default]
  }

  /** The exclusive phase of an update. */
  function Written(c: Caches, u: Update): Caches {
    match u
    case SetDataConnection(s, d, n) => c.(dataState := c.dataState[s := d], dataNetwork := c.dataNetwork[s := n])
    case SetDataFlow(s, f) => c.(dataFlow := c.dataFlow[s := f])
    case SetCallState(st, num) => c.(callState := c.callState[-1 := st], number := c.number[-1 := num])
    case SetCallStateForSlot(s, st, num) => c.(callState := c.callState[s := st], number := c.number[s := num])
    case SetSimState(s, t, st, r) =>
      c.(simState := c.simState[s := st], simReason := c.simReason[s := r], cardType := c.cardType[s := t])
    case SetSignalInfo(s, v) => c.(signals := c.signals[s := v])
    case SetCellInfo(s, v) => c.(cells := c.cells[s := v])
    case SetNetworkState(s, n) => c.(network := c.network[s := n])
    case SetCfuIndicator(s, b) => c.(cfu := c.cfu[s := b])
    case SetIccAccount => c
    case SetVoiceMail(s, b) => c.(voiceMail := c.voiceMail[s := b])
    case SetSimActive(s, b) => c.(simActive := c.simActive[s := b])
    case SetVoIPCall(_) => c
  }

  // ---------------------------------------------------------------- fan-out

  /** What an update sends to one record during its fan-out; `cached` is the incoming number
      cached for the update's slot at that moment. */
  function CallbackFor(cfg: Config, u: Update, r: Record, cached: string): Option<Callback> {
    match u
    case SetDataConnection(s, d, n) =>
      if IsExistStateListener(r, DataConnection) && (r.slot == s || r.slot == ALL_SLOTS)
      then Some(OnDataConnection(s, d, n)) else None
    case SetDataFlow(s, f) =>
      if IsExistStateListener(r, DataFlow) && (r.slot == s || r.slot == ALL_SLOTS)
      then Some(OnDataFlow(s, f)) else None
    case SetCallState(st, num) => CallFamily(cfg, r, -1, st, num, num)
    case SetCallStateForSlot(s, st, num) => CallFamily(cfg, r, s, st, cached, num)
    case SetSimState(s, t, st, rs) =>
      if IsExistStateListener(r, SimState) && r.slot == s then Some(OnSimState(s, t, st, rs)) else None
    case SetSignalInfo(s, v) =>
      if IsExistStateListener(r, SignalStrengths) && r.slot == s then Some(OnSignalInfo(s, v)) else None
    case SetCellInfo(s, v) =>
      if IsExistStateListener(r, CellInfo) && r.slot == s then Some(OnCellInfo(s, v)) else None
    case SetNetworkState(s, n) =>
      if IsExistStateListener(r, NetworkState) && r.slot == s && n.Some? then Some(OnNetworkState(s, n)) else None
    case SetCfuIndicator(s, b) =>
      if IsExistStateListener(r, CfuIndicator) && r.slot == s then Some(OnCfuIndicator(s, b)) else None
    case SetIccAccount =>
      if IsExistStateListener(r, IccAccount) then Some(OnIccAccount) else None
    case SetVoiceMail(s, b) =>
      if IsExistStateListener(r, VoiceMail) && r.slot == s then Some(OnVoiceMail(s, b)) else None
    case SetSimActive(s, b) =>
      if IsExistStateListener(r, SimActive) && r.slot == s then Some(OnSimActive(s, b)) else None
    case SetVoIPCall(info) =>
      if IsExistStateListener(r, VoIPCall) && CanManageCallForDevices(cfg, r) then Some(OnVoIPCall(info)) else None
  }

  /** The call-family choice: at most one callback, by priority CallState, CallStateEx,
      CCallState; the last one only for tokens that may manage calls. */
  function CallFamily(cfg: Config, r: Record, slot: int, state: int, shown: string, number: string): Option<Callback> {
    if r.slot != slot || r.observer.None? then None
    else if HasBit(r.mask, CallState) then
      Some(OnCallState(slot, state, if IsCanReadCallHistory(cfg, r) then shown else ""))
    else if HasBit(r.mask, CallStateEx) then Some(OnCallStateEx(slot, state))
    else if HasBit(r.mask, CCallState) && CanManageCallForDevices(cfg, r) then
      Some(OnCCallState(slot, state, number))
    else None
  }

  function AppendTo(sent: seq<Sent>, to: Record, cb: Option<Callback>): seq<Sent> {
    match cb
    case Some(value) => sent + [Sent(to, value)]
    case None => sent
  }

  /** The callbacks of a fan-out over the first n records of a table, in table order. */
  function FanOutTo(cfg: Config, u: Update, recs: seq<Record>, cached: string, n: nat): seq<Sent>
    requires n <= |recs|
  {
    if n == 0 then []
    else AppendTo(FanOutTo(cfg, u, recs, cached, n - 1), recs[n - 1], CallbackFor(cfg, u, recs[n - 1], cached))
  }

  function FanOut(cfg: Config, u: Update, recs: seq<Record>, cached: string): seq<Sent> {
    FanOutTo(cfg, u, recs, cached, |recs|)
  }

  function CodeOf(sent: seq<Sent>): Code {
    if sent == [] then DataNotExist else Success
  }

  // ---------------------------------------------------------------- replay

  predicate Replays(cfg: Config, r: Record, k: Kind) {
    && r.observer.Some?
    && HasBit(r.mask, k)
    && k != VoIPCall
    && (k == CCallState ==> CanManageCallForDevices(cfg, r))
  }

  /** The callback a replay sends for one kind. */
  function ReplayCallback(cfg: Config, c: Caches, r: Record, k: Kind): Callback
    requires k != VoIPCall
  {
    match k
    case NetworkState => OnNetworkState(r.slot, At(c.network, r.slot, None))
    case CallStateEx => OnCallStateEx(r.slot, At(c.callState, r.slot, 0))
    case CallState =>
      OnCallState(r.slot, At(c.callState, r.slot, 0),
                  if IsCanReadCallHistory(cfg, r) then At(c.number, r.slot, "") else "")
    case CellInfo => OnCellInfo(r.slot, At(c.cells, r.slot, []))
    case SignalStrengths => OnSignalInfo(r.slot, At(c.signals, r.slot, []))
    case SimState =>
      OnSimState(r.slot, At(c.cardType, r.slot, 0), At(c.simState, r.slot, 0), At(c.simReason, r.slot, 0))
    case DataConnection =>
      OnDataConnection(r.slot, At(c.dataState, r.slot, 0), At(c.dataNetwork, r.slot, 0))
    case DataFlow => OnDataFlow(r.slot, At(c.dataFlow, r.slot, 0))
    case CfuIndicator => OnCfuIndicator(r.slot, At(c.cfu, r.slot, false))
    case VoiceMail => OnVoiceMail(r.slot, At(c.voiceMail, r.slot, false))
    case IccAccount => OnIccAccount
    case CCallState =>
      var st := At(c.callState, r.slot, 0);
      OnCCallState(r.slot, if st == cfg.callUnknown then cfg.callIdle else st, At(c.number, r.slot, ""))
    case SimActive => OnSimActive(r.slot, At(c.simActive, r.slot, false))
  }

  /** A callback, appended when the record replays its kind. */
  function Push(cfg: Config, r: Record, cb: Callback, k: Kind, sent: seq<Sent>): seq<Sent> {
    if Replays(cfg, r, k) then sent + [Sent(r, cb)] else sent
  }

  function RadioReplay(cfg: Config, c: Caches, r: Record, sent: seq<Sent>): seq<Sent> {
    var phone := if IsCanReadCallHistory(cfg, r) then At(c.number, r.slot, "") else "";
    var s1 := Push(cfg, r, OnCallState(r.slot, At(c.callState, r.slot, 0), phone), CallState, sent);
    var s2 := Push(cfg, r, OnSignalInfo(r.slot, At(c.signals, r.slot, [])), SignalStrengths, s1);
    var s3 := Push(cfg, r, OnNetworkState(r.slot, At(c.network, r.slot, None)), NetworkState, s2);
    Push(cfg, r, OnCellInfo(r.slot, At(c.cells, r.slot, [])), CellInfo, s3)
  }

  function SimAndConnectionReplay(cfg: Config, c: Caches, r: Record, sent: seq<Sent>): seq<Sent> {
    var sim := OnSimState(r.slot, At(c.cardType, r.slot, 0), At(c.simState, r.slot, 0), At(c.simReason, r.slot, 0));
    var s1 := Push(cfg, r, sim, SimState, sent);
    var data := OnDataConnection(r.slot, At(c.dataState, r.slot, 0), At(c.dataNetwork, r.slot, 0));
    var s2 := Push(cfg, r, data, DataConnection, s1);
    Push(cfg, r, OnDataFlow(r.slot, At(c.dataFlow, r.slot, 0)), DataFlow, s2)
  }

  function IndicatorReplay(cfg: Config, c: Caches, r: Record, sent: seq<Sent>): seq<Sent> {
    var s1 := Push(cfg, r, OnCfuIndicator(r.slot, At(c.cfu, r.slot, false)), CfuIndicator, sent);
    var s2 := Push(cfg, r, OnVoiceMail(r.slot, At(c.voiceMail, r.slot, false)), VoiceMail, s1);
    Push(cfg, r, OnIccAccount, IccAccount, s2)
  }

  function ExReplay(cfg: Config, c: Caches, r: Record, sent: seq<Sent>): seq<Sent> {
    var state := At(c.callState, r.slot, 0);
    var s1 := Push(cfg, r, OnCallStateEx(r.slot, state), CallStateEx, sent);
    var shown := if state == cfg.callUnknown then cfg.callIdle else state;
    var s2 := Push(cfg, r, OnCCallState(r.slot, shown, At(c.number, r.slot, "")), CCallState, s1);
    Push(cfg, r, OnSimActive(r.slot, At(c.simActive, r.slot, false)), SimActive, s2)
  }

  /** What has been sent after a replay: the earlier calls, then one callback for each kind the
      record replays, in the order the service walks the kinds. */
  function Replayed(cfg: Config, c: Caches, r: Record, sent: seq<Sent>): seq<Sent> {
    ExReplay(cfg, c, r, IndicatorReplay(cfg, c, r, SimAndConnectionReplay(cfg, c, r, RadioReplay(cfg, c, r, sent))))
  }

  /** A cache map after a replay that reads it when `wasRead` holds. */
  function TouchedIf<V>(wasRead: bool, m: map<int, V>, slot: int, default: V): map<int, V> {
    if wasRead then Touched(m, slot, default) else m
  }

  function ReadRadio(cfg: Config, c: Caches, r: Record): Caches {
    c.(callState := TouchedIf(Replays(cfg, r, CallState), c.callState, r.slot, 0),
       number := TouchedIf(Replays(cfg, r, CallState) && IsCanReadCallHistory(cfg, r), c.number, r.slot, ""),
       signals := TouchedIf(Replays(cfg, r, SignalStrengths), c.signals, r.slot, []),
       network := TouchedIf(Replays(cfg, r, NetworkState), c.network, r.slot, None),
       cells := TouchedIf(Replays(cfg, r, CellInfo), c.cells, r.slot, []))
  }

  function ReadSimAndConnection(cfg: Config, c: Caches, r: Record): Caches {
    var sim := Replays(cfg, r, SimState);
    var data := Replays(cfg, r, DataConnection);
    c.(simState := TouchedIf(sim, c.simState, r.slot, 0),
       simReason := TouchedIf(sim, c.simReason, r.slot, 0),
       cardType := TouchedIf(sim, c.cardType, r.slot, 0),
       dataState := TouchedIf(data, c.dataState, r.slot, 0),
       dataNetwork := TouchedIf(data, c.dataNetwork, r.slot, 0),
       dataFlow := TouchedIf(Replays(cfg, r, DataFlow), c.dataFlow, r.slot, 0))
  }

  function ReadIndicators(cfg: Config, c: Caches, r: Record): Caches {
    c.(cfu := TouchedIf(Replays(cfg, r, CfuIndicator), c.cfu, r.slot, false),
       voiceMail := TouchedIf(Replays(cfg, r, VoiceMail), c.voiceMail, r.slot, false))
  }

  function ReadEx(cfg: Config, c: Caches, r: Record): Caches {
    c.(callState := TouchedIf(Replays(cfg, r, CallStateEx) || Replays(cfg, r, CCallState), c.callState, r.slot, 0),
       number := TouchedIf(Replays(cfg, r, CCallState), c.number, r.slot, ""),
       simActive := TouchedIf(Replays(cfg, r, SimActive), c.simActive, r.slot, false))
  }

  /** The caches after a replay: every cell it read now exists. */
  function Read(cfg: Config, c: Caches, r: Record): Caches {
    ReadEx(cfg, ReadIndicators(cfg, ReadSimAndConnection(cfg, ReadRadio(cfg, c, r), r), r), r)
  }

  // ---------------------------------------------------------------- the constructor's caches

  function SeedUpTo(cfg: Config, n: nat): map<int, int> {
    if n == 0 then map[] else SeedUpTo(cfg, n - 1)[n - 1 := cfg.callUnknown]
  }

  function InitialCallState(cfg: Config): map<int, int> {
    SeedUpTo(cfg, if cfg.slotSize == 0 then 1 else if cfg.slotSize < 0 then 0 else cfg.slotSize)[-1 := cfg.callUnknown]
  }

  function InitialCaches(cfg: Config): Caches {
    Caches(InitialCallState(cfg),
           map[], map[], map[], map[], map[], map[], map[], map[], map[], map[], map[], map[], map[])
  }

  /** The slots that start with the unknown call state: the writable ones, "all slots", and slot
      0 of a product without modems. */
  predicate Seeded(cfg: Config, slot: int) {
    0 <= slot < cfg.slotSize || slot == -1 || (cfg.slotSize == 0 && slot == 0)
  }

  lemma SeedsAre(cfg: Config, n: nat, slot: int)
    ensures slot in SeedUpTo(cfg, n) <==> 0 <= slot < n
    ensures slot in SeedUpTo(cfg, n) ==> SeedUpTo(cfg, n)[slot] == cfg.callUnknown
  {
  }

  /** The entry checks of an update, in the order the entry points make them. */
  function Admit(cfg: Config, caller: Caller, u: Update): Code {
    if u.ChecksSlot() && !(0 <= u.Target() < cfg.slotSize) then SlotError
    else if SetTelephonyState !in caller.granted || (u.SetCellInfo? && CellLocation !in caller.granted)
    then PermissionDenied
    else Success
  }
}
