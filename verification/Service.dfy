/** The state registry service: the cache maps and the record vector it updates in place.
    Every method is one call that runs alone; the Interleaving module runs the same phases
    concurrently. `sent` records the observer calls in the order they are made. */
module Service {
  import opened Kinds
  import opened Records
  import opened Updates

  class TelephonyStateRegistryService {
    const cfg: Config
    var stateRecords: seq<Record>
    var caches: Caches
    var sent: seq<Sent>

    constructor (cfg: Config)
      ensures this.cfg == cfg
      ensures stateRecords == [] && sent == []
      ensures caches == InitialCaches(cfg)
    {
      this.cfg := cfg;
      stateRecords, sent := [], [];
      var callState := map[];
      var i := 0;
      while i < cfg.slotSize
        invariant 0 <= i <= (if cfg.slotSize < 0 then 0 else cfg.slotSize)
        invariant callState == SeedUpTo(cfg, i)
      {
        callState := callState[i := cfg.callUnknown];
        i := i + 1;
      }
      if cfg.slotSize == 0 {
        callState := callState[0 := cfg.callUnknown];
      }
      callState := callState[-1 := cfg.callUnknown];
      caches := Caches(callState, map[], map[], map[], map[], map[], map[], map[], map[], map[], map[], map[],
                       map[], map[]);
    }

    predicate VerifySlotId(slotId: int) {
      0 <= slotId < cfg.slotSize
    }

    /** `operator[]` on the number cache: the key is there whenever a fan-out gets here. */
    function GetCallIncomingNumberForSlotId(record: Record, slotId: int): string
      requires slotId in caches.number
      reads this`caches
    {
      if IsCanReadCallHistory(cfg, record) then caches.number[slotId] else ""
    }

    /** The condition and the observer call of each entry point's loop, for one record. */
    method CallFor(u: Update, record: Record) returns (call: Option<Callback>)
      requires u.SetCallStateForSlot? ==> u.slot in caches.number
      ensures call == CallbackFor(cfg, u, record, At(caches.number, u.Target(), ""))
    {
      call := None;
      match u {
        case SetDataConnection(slotId, dataState, networkType) =>
          if IsExistStateListener(record, DataConnection) && (record.slot == slotId || record.slot == ALL_SLOTS) {
            call := Some(OnDataConnection(slotId, dataState, networkType));
          }
        case SetDataFlow(slotId, flowData) =>
          if IsExistStateListener(record, DataFlow) && (record.slot == slotId || record.slot == ALL_SLOTS) {
            call := Some(OnDataFlow(slotId, flowData));
          }
        case SetCallState(state, number) =>
          if IsExistStateListener(record, CallState) && record.slot == -1 {
            call := Some(OnCallState(record.slot, state, if IsCanReadCallHistory(cfg, record) then number else ""));
          } else if IsExistStateListener(record, CallStateEx) && record.slot == -1 {
            call := Some(OnCallStateEx(record.slot, state));
          } else if IsExistStateListener(record, CCallState) && record.slot == -1 {
            if CanManageCallForDevices(cfg, record) {
              call := Some(OnCCallState(record.slot, state, number));
            }
          }
        case SetCallStateForSlot(slotId, state, number) =>
          if IsExistStateListener(record, CallState) && record.slot == slotId {
            call := Some(OnCallState(slotId, state, GetCallIncomingNumberForSlotId(record, slotId)));
          } else if IsExistStateListener(record, CallStateEx) && record.slot == slotId {
            call := Some(OnCallStateEx(slotId, state));
          } else if IsExistStateListener(record, CCallState) && record.slot == slotId {
            if CanManageCallForDevices(cfg, record) {
              call := Some(OnCCallState(record.slot, state, number));
            }
          }
        case SetSimState(slotId, cardType, state, reason) =>
          if IsExistStateListener(record, SimState) && record.slot == slotId {
            call := Some(OnSimState(slotId, cardType, state, reason));
          }
        case SetSignalInfo(slotId, vec) =>
          if IsExistStateListener(record, SignalStrengths) && record.slot == slotId {
            call := Some(OnSignalInfo(slotId, vec));
          }
        case SetCellInfo(slotId, vec) =>
          if IsExistStateListener(record, CellInfo) && record.slot == slotId {
            call := Some(OnCellInfo(slotId, vec));
          }
        case SetNetworkState(slotId, networkState) =>
          if IsExistStateListener(record, NetworkState) && record.slot == slotId && networkState.Some? {
            call := Some(OnNetworkState(slotId, networkState));
          }
        case SetCfuIndicator(slotId, cfu) =>
          if IsExistStateListener(record, CfuIndicator) && record.slot == slotId {
            call := Some(OnCfuIndicator(slotId, cfu));
          }
        case SetIccAccount =>
          if IsExistStateListener(record, IccAccount) {
            call := Some(OnIccAccount);
          }
        case SetVoiceMail(slotId, voiceMail) =>
          if IsExistStateListener(record, VoiceMail) && record.slot == slotId {
            call := Some(OnVoiceMail(slotId, voiceMail));
          }
        case SetSimActive(slotId, active) =>
          if IsExistStateListener(record, SimActive) && record.slot == slotId {
            call := Some(OnSimActive(slotId, active));
          }
        case SetVoIPCall(info) =>
          if IsExistStateListener(record, VoIPCall) && CanManageCallForDevices(cfg, record) {
            call := Some(OnVoIPCall(info));
          }
      }
    }

    /** The shared-lock phase every entry point ends with: one pass over the record vector. */
    method Notify(u: Update) returns (result: Code)
      requires u.SetCallStateForSlot? ==> u.slot in caches.number
      modifies this`sent
      ensures var out := FanOut(cfg, u, stateRecords, At(caches.number, u.Target(), ""));
              sent == old(sent) + out && result == CodeOf(out)
    {
      ghost var cached := At(caches.number, u.Target(), "");
      result := DataNotExist;
      var i := 0;
      while i < |stateRecords|
        invariant 0 <= i <= |stateRecords|
        invariant sent == old(sent) + FanOutTo(cfg, u, stateRecords, cached, i)
        invariant result == CodeOf(FanOutTo(cfg, u, stateRecords, cached, i))
      {
        var record := stateRecords[i];
        var call := CallFor(u, record);
        if call.Some? {
          sent := sent + [Sent(record, call.value)];
          result := Success;
        }
        i := i + 1;
      }
    }

    /** What one accepted or rejected update leaves behind: the caches it wrote, the table
        untouched, the callbacks of its fan-out appended, and the code it returned. */
    twostate predicate Updated(caller: Caller, u: Update, result: Code)
      reads this
    {
      && stateRecords == old(stateRecords)
      && (Admit(cfg, caller, u) != Success ==>
            unchanged(this) && result == Admit(cfg, caller, u))
      && (Admit(cfg, caller, u) == Success ==>
            var out := FanOut(cfg, u, stateRecords, At(caches.number, u.Target(), ""));
            caches == Written(old(caches), u) && sent == old(sent) + out && result == CodeOf(out))
    }

    method UpdateCellularDataConnectState(caller: Caller, slotId: int, dataState: int, networkType: int)
      returns (result: Code)
      modifies this
      ensures Updated(caller, SetDataConnection(slotId, dataState, networkType), result)
    {
      if !VerifySlotId(slotId) {
        return SlotError;
      }
      if SetTelephonyState !in caller.granted {
        return PermissionDenied;
      }
      caches := caches.(dataState := caches.dataState[slotId := dataState],
                       dataNetwork := caches.dataNetwork[slotId := networkType]);
      result := Notify(SetDataConnection(slotId, dataState, networkType));
    }

    method UpdateCellularDataFlow(caller: Caller, slotId: int, flowData: int) returns (result: Code)
      modifies this
      ensures Updated(caller, SetDataFlow(slotId, flowData), result)
    {
      if !VerifySlotId(slotId) {
        return SlotError;
      }
      if SetTelephonyState !in caller.granted {
        return PermissionDenied;
      }
      caches := caches.(dataFlow := caches.dataFlow[slotId := flowData]);
      result := Notify(SetDataFlow(slotId, flowData));
    }

    method UpdateCallState(caller: Caller, state: int, number: string) returns (result: Code)
      modifies this
      ensures Updated(caller, SetCallState(state, number), result)
    {
      if SetTelephonyState !in caller.granted {
        return PermissionDenied;
      }
      caches := caches.(callState := caches.callState[-1 := state],
                       number := caches.number[-1 := number]);
      result := Notify(SetCallState(state, number));
    }

    method UpdateCallStateForSlotId(caller: Caller, slotId: int, state: int, number: string) returns (result: Code)
      modifies this
      ensures Updated(caller, SetCallStateForSlot(slotId, state, number), result)
    {
      if !VerifySlotId(slotId) {
        return SlotError;
      }
      if SetTelephonyState !in caller.granted {
        return PermissionDenied;
      }
      caches := caches.(callState := caches.callState[slotId := state],
                       number := caches.number[slotId := number]);
      result := Notify(SetCallStateForSlot(slotId, state, number));
    }

    method UpdateSimState(caller: Caller, slotId: int, cardType: int, state: int, reason: int) returns (result: Code)
      modifies this
      ensures Updated(caller, SetSimState(slotId, cardType, state, reason), result)
    {
      if !VerifySlotId(slotId) {
        return SlotError;
      }
      if SetTelephonyState !in caller.granted {
        return PermissionDenied;
      }
      caches := caches.(simState := caches.simState[slotId := state],
                       simReason := caches.simReason[slotId := reason],
                       cardType := caches.cardType[slotId := cardType]);
      result := Notify(SetSimState(slotId, cardType, state, reason));
    }

    method UpdateSignalInfo(caller: Caller, slotId: int, vec: seq<nat>) returns (result: Code)
      modifies this
      ensures Updated(caller, SetSignalInfo(slotId, vec), result)
    {
      if !VerifySlotId(slotId) {
        return SlotError;
      }
      if SetTelephonyState !in caller.granted {
        return PermissionDenied;
      }
      caches := caches.(signals := caches.signals[slotId := vec]);
      result := Notify(SetSignalInfo(slotId, vec));
    }

    method UpdateCellInfo(caller: Caller, slotId: int, vec: seq<nat>) returns (result: Code)
      modifies this
      ensures Updated(caller, SetCellInfo(slotId, vec), result)
    {
      if !VerifySlotId(slotId) {
        return SlotError;
      }
      if SetTelephonyState !in caller.granted || CellLocation !in caller.granted {
        return PermissionDenied;
      }
      caches := caches.(cells := caches.cells[slotId := vec]);
      result := Notify(SetCellInfo(slotId, vec));
    }

    method UpdateNetworkState(caller: Caller, slotId: int, networkState: Option<nat>) returns (result: Code)
      modifies this
      ensures Updated(caller, SetNetworkState(slotId, networkState), result)
    {
      if !VerifySlotId(slotId) {
        return SlotError;
      }
      if SetTelephonyState !in caller.granted {
        return PermissionDenied;
      }
      caches := caches.(network := caches.network[slotId := networkState]);
      result := Notify(SetNetworkState(slotId, networkState));
    }

    method UpdateCfuIndicator(caller: Caller, slotId: int, cfu: bool) returns (result: Code)
      modifies this
      ensures Updated(caller, SetCfuIndicator(slotId, cfu), result)
    {
      if !VerifySlotId(slotId) {
        return SlotError;
      }
      if SetTelephonyState !in caller.granted {
        return PermissionDenied;
      }
      caches := caches.(cfu := caches.cfu[slotId := cfu]);
      result := Notify(SetCfuIndicator(slotId, cfu));
    }

    method UpdateIccAccount(caller: Caller) returns (result: Code)
      modifies this
      ensures Updated(caller, SetIccAccount, result)
    {
      if SetTelephonyState !in caller.granted {
        return PermissionDenied;
      }
      result := Notify(SetIccAccount);
    }

    method UpdateVoiceMailMsgIndicator(caller: Caller, slotId: int, voiceMail: bool) returns (result: Code)
      modifies this
      ensures Updated(caller, SetVoiceMail(slotId, voiceMail), result)
    {
      if !VerifySlotId(slotId) {
        return SlotError;
      }
      if SetTelephonyState !in caller.granted {
        return PermissionDenied;
      }
      caches := caches.(voiceMail := caches.voiceMail[slotId := voiceMail]);
      result := Notify(SetVoiceMail(slotId, voiceMail));
    }

    method UpdateSimActiveState(caller: Caller, slotId: int, active: bool) returns (result: Code)
      modifies this
      ensures Updated(caller, SetSimActive(slotId, active), result)
    {
      if !VerifySlotId(slotId) {
        return SlotError;
      }
      if SetTelephonyState !in caller.granted {
        return PermissionDenied;
      }
      caches := caches.(simActive := caches.simActive[slotId := active]);
      result := Notify(SetSimActive(slotId, active));
    }

    method UpdateVoIPCallState(caller: Caller, info: nat) returns (result: Code)
      modifies this
      ensures Updated(caller, SetVoIPCall(info), result)
    {
      if SetTelephonyState !in caller.granted {
        return PermissionDenied;
      }
      result := Notify(SetVoIPCall(info));
    }

    /** Replays the cached values to a record. Each `operator[]` read inserts the default value
        when the slot has no entry. */
    method UpdateData(record: Record)
      modifies this
      ensures stateRecords == old(stateRecords)
      ensures caches == Read(cfg, old(caches), record)
      ensures sent == Replayed(cfg, old(caches), record, old(sent))
    {
      if record.observer.None? {
        return;
      }
      UpdateRadioData(record);
      UpdateSimAndConnectionData(record);
      UpdateIndicatorData(record);
      UpdateDataEx(record);
    }

    /** The branches of `UpdateData` for call state, signal, network and cells. */
    method UpdateRadioData(record: Record)
      requires record.observer.Some?
      modifies `caches, `sent
      ensures caches == ReadRadio(cfg, old(caches), record)
      ensures sent == RadioReplay(cfg, old(caches), record, old(sent))
    {
      var s := record.slot;
      if HasBit(record.mask, CallState) {
        caches := caches.(callState := Touched(caches.callState, s, 0));
        if IsCanReadCallHistory(cfg, record) {
          caches := caches.(number := Touched(caches.number, s, ""));
        }
        var phoneNumber := if IsCanReadCallHistory(cfg, record) then caches.number[s] else "";
        sent := sent + [Sent(record, OnCallState(s, caches.callState[s], phoneNumber))];
      }
      if HasBit(record.mask, SignalStrengths) {
        caches := caches.(signals := Touched(caches.signals, s, []));
        sent := sent + [Sent(record, OnSignalInfo(s, caches.signals[s]))];
      }
      if HasBit(record.mask, NetworkState) {
        caches := caches.(network := Touched(caches.network, s, None));
        sent := sent + [Sent(record, OnNetworkState(s, caches.network[s]))];
      }
      if HasBit(record.mask, CellInfo) {
        caches := caches.(cells := Touched(caches.cells, s, []));
        sent := sent + [Sent(record, OnCellInfo(s, caches.cells[s]))];
      }
    }

    /** The branches for SIM state, data connection and data flow. */
    method UpdateSimAndConnectionData(record: Record)
      requires record.observer.Some?
      modifies `caches, `sent
      ensures caches == ReadSimAndConnection(cfg, old(caches), record)
      ensures sent == SimAndConnectionReplay(cfg, old(caches), record, old(sent))
    {
      var s := record.slot;
      if HasBit(record.mask, SimState) {
        caches := caches.(simState := Touched(caches.simState, s, 0), simReason := Touched(caches.simReason, s, 0),
                          cardType := Touched(caches.cardType, s, 0));
        sent := sent + [Sent(record, OnSimState(s, caches.cardType[s], caches.simState[s], caches.simReason[s]))];
      }
      if HasBit(record.mask, DataConnection) {
        caches := caches.(dataState := Touched(caches.dataState, s, 0),
                          dataNetwork := Touched(caches.dataNetwork, s, 0));
        sent := sent + [Sent(record, OnDataConnection(s, caches.dataState[s], caches.dataNetwork[s]))];
      }
      if HasBit(record.mask, DataFlow) {
        caches := caches.(dataFlow := Touched(caches.dataFlow, s, 0));
        sent := sent + [Sent(record, OnDataFlow(s, caches.dataFlow[s]))];
      }
    }

    /** The branches for the two indicators and the account event. */
    method UpdateIndicatorData(record: Record)
      requires record.observer.Some?
      modifies `caches, `sent
      ensures caches == ReadIndicators(cfg, old(caches), record)
      ensures sent == IndicatorReplay(cfg, old(caches), record, old(sent))
    {
      var s := record.slot;
      if HasBit(record.mask, CfuIndicator) {
        caches := caches.(cfu := Touched(caches.cfu, s, false));
        sent := sent + [Sent(record, OnCfuIndicator(s, caches.cfu[s]))];
      }
      if HasBit(record.mask, VoiceMail) {
        caches := caches.(voiceMail := Touched(caches.voiceMail, s, false));
        sent := sent + [Sent(record, OnVoiceMail(s, caches.voiceMail[s]))];
      }
      if HasBit(record.mask, IccAccount) {
        sent := sent + [Sent(record, OnIccAccount)];
      }
    }

    /** The second half of the replay; like the first it does nothing without an observer. */
    method UpdateDataEx(record: Record)
      modifies `caches, `sent
      ensures caches == ReadEx(cfg, old(caches), record)
      ensures sent == ExReplay(cfg, old(caches), record, old(sent))
    {
      if record.observer.None? {
        return;
      }
      var s := record.slot;
      if HasBit(record.mask, CallStateEx) {
        caches := caches.(callState := Touched(caches.callState, s, 0));
        sent := sent + [Sent(record, OnCallStateEx(s, caches.callState[s]))];
      }
      assert sent == Push(cfg, record, OnCallStateEx(s, At(old(caches).callState, s, 0)), CallStateEx, old(sent));
      if HasBit(record.mask, CCallState) {
        if CanManageCallForDevices(cfg, record) {
          caches := caches.(callState := Touched(caches.callState, s, 0));
          var state := caches.callState[s];
          if state == cfg.callUnknown {
            state := cfg.callIdle;
          }
          caches := caches.(number := Touched(caches.number, s, ""));
          sent := sent + [Sent(record, OnCCallState(s, state, caches.number[s]))];
        }
      }
      if HasBit(record.mask, SimActive) {
        caches := caches.(simActive := Touched(caches.simActive, s, false));
        sent := sent + [Sent(record, OnSimActive(s, caches.simActive[s]))];
      }
    }

    /** Adds a record unless one with the same slot, mask, token and pid is stored, and replays
        to the record it ends up with. The scan variable is reused for the new record. */
    method RegisterStateChange(caller: Caller, telephonyObserver: Option<nat>, slotId: int, mask: Mask,
                               bundleName: string, isUpdate: bool, pid: int, uid: int, tokenId: int,
                               appIdentifier: string)
      returns (result: Code)
      modifies this
      ensures Gate(caller, mask) != Success ==> unchanged(this) && result == Gate(caller, mask)
      ensures Gate(caller, mask) == Success && !AcceptedSlot(cfg, caller, slotId) ==>
                unchanged(this) && result == Success
      ensures Gate(caller, mask) == Success && AcceptedSlot(cfg, caller, slotId) ==>
                var r := Record(slotId, mask, tokenId, pid, uid, bundleName, appIdentifier, telephonyObserver);
                var e := Effective(old(stateRecords), r);
                && result == Success
                && stateRecords == Added(old(stateRecords), r)
                && caches == (if isUpdate then Read(cfg, old(caches), e) else old(caches))
                && sent == (if isUpdate then Replayed(cfg, old(caches), e, old(sent)) else old(sent))
    {
      if !CheckCallerIsSystemApp(caller, mask) {
        return IllegalUseOfSystemApi;
      }
      if !CheckPermission(caller, mask) {
        return PermissionDenied;
      }
      if !IsMultiSimsCapabilitySupported(cfg, caller, slotId) {
        return Success;
      }
      if (slotId > cfg.maxSlotCount + 1 || slotId < -1) && slotId != ALL_SLOTS {
        return Success;
      }
      ghost var r := Record(slotId, mask, tokenId, pid, uid, bundleName, appIdentifier, telephonyObserver);
      var isExist := false;
      var record := Record(0, Mask({}, 0), 0, 0, 0, "", "", None);
      var i := 0;
      while i < |stateRecords|
        invariant 0 <= i <= |stateRecords| && !isExist
        invariant forall j :: 0 <= j < i ==> KeyOf(stateRecords[j]) != KeyOf(r)
      {
        record := stateRecords[i];
        if record.slot == slotId && record.mask == mask && record.token == tokenId && record.pid == pid {
          isExist := true;
          break;
        }
        i := i + 1;
      }
      IndexOfIs(stateRecords, KeyOf(r), i);
      if !isExist {
        record := record.(pid := pid);
        record := record.(uid := uid);
        record := record.(slot := slotId);
        record := record.(mask := mask);
        record := record.(bundleName := bundleName);
        record := record.(token := tokenId);
        record := record.(appIdentifier := appIdentifier);
        record := record.(observer := telephonyObserver);
        stateRecords := stateRecords + [record];
      }
      if isUpdate {
        UpdateData(record);
      }
      result := Success;
    }

    /** Erases the first record with this key. */
    method UnregisterStateChange(caller: Caller, slotId: int, mask: Mask, tokenId: int, pid: int) returns (result: Code)
      modifies `stateRecords
      ensures Gate(caller, mask) != Success ==> unchanged(`stateRecords) && result == Gate(caller, mask)
      ensures Gate(caller, mask) == Success ==>
                var key := Key(slotId, mask, tokenId, pid);
                && stateRecords == Erased(old(stateRecords), key)
                && result == (if Present(old(stateRecords), key) then Success else UnregisterDataNotExist)
    {
      if !CheckCallerIsSystemApp(caller, mask) {
        return IllegalUseOfSystemApi;
      }
      if !CheckPermission(caller, mask) {
        return PermissionDenied;
      }
      result := UnregisterDataNotExist;
      ghost var key := Key(slotId, mask, tokenId, pid);
      var i := 0;
      while i < |stateRecords|
        invariant 0 <= i <= |stateRecords|
        invariant forall j :: 0 <= j < i ==> KeyOf(stateRecords[j]) != key
        invariant stateRecords == old(stateRecords) && result == UnregisterDataNotExist
      {
        var it := stateRecords[i];
        if it.slot == slotId && it.mask == mask && it.token == tokenId && it.pid == pid {
          IndexOfIs(stateRecords, key, i);
          stateRecords := stateRecords[..i] + stateRecords[i + 1..];
          return Success;
        }
        i := i + 1;
      }
      IndexOfIs(stateRecords, key, i);
    }

    static lemma HasElement(s: set<int>)
      ensures s == {} || exists x: int :: x in s
    {
      if forall x: int :: x !in s {
        assert s == {};
      }
    }

    /** The search every getter makes over its cache map; None stands for TELEPHONY_ERROR. */
    static method Find(m: map<int, int>, slotId: int) returns (result: Option<int>)
      ensures result == if slotId in m then Some(m[slotId]) else None
    {
      var rest := m.Keys;
      while rest != {}
        invariant rest <= m.Keys
        invariant slotId in m ==> slotId in rest
        decreases |rest|
      {
        HasElement(rest);
        var it :| it in rest;
        if it == slotId {
          return Some(m[it]);
        }
        rest := rest - {it};
      }
      result := None;
    }

    method GetCallState(slotId: int) returns (result: Option<int>)
      ensures result == Stored(caches.callState, slotId)
    {
      result := Find(caches.callState, slotId);
    }

    method GetSimState(slotId: int) returns (result: Option<int>)
      ensures result == Stored(caches.simState, slotId)
    {
      result := Find(caches.simState, slotId);
    }

    method GetCardType(slotId: int) returns (result: Option<int>)
      ensures result == Stored(caches.cardType, slotId)
    {
      result := Find(caches.cardType, slotId);
    }

    method GetLockReason(slotId: int) returns (result: Option<int>)
      ensures result == Stored(caches.simReason, slotId)
    {
      result := Find(caches.simReason, slotId);
    }

    method GetCellularDataConnectionState(slotId: int) returns (result: Option<int>)
      ensures result == Stored(caches.dataState, slotId)
    {
      result := Find(caches.dataState, slotId);
    }

    method GetCellularDataConnectionNetworkType(slotId: int) returns (result: Option<int>)
      ensures result == Stored(caches.dataNetwork, slotId)
    {
      result := Find(caches.dataNetwork, slotId);
    }

    method GetCellularDataFlow(slotId: int) returns (result: Option<int>)
      ensures result == Stored(caches.dataFlow, slotId)
    {
      result := Find(caches.dataFlow, slotId);
    }
  }
}
