/** Service records, the admission gates in front of the record table, and the table itself. */
module Records {
  import opened Kinds

  datatype Option<+T> = None | Some(value: T)

  /** The result codes of the service and of the client library. */
  datatype Code =
    | Success
    | SlotError
    | PermissionDenied
    | DataNotExist
    | UnregisterDataNotExist
    | IllegalUseOfSystemApi
    | AlreadyRegistered
    | ConnectStubFail
    | TransportError

  datatype Permission = GetNetworkInfo | CellLocation | ManageCallForDevices | SetTelephonyState

  /** What the access-token kit answers about the caller of one IPC request. */
  datatype Caller = Caller(systemApp: bool, nativeOrShell: bool, systemAppToken: bool, granted: set<Permission>)

  /** Constants of one service instance: the number of writable slots, the largest slot count,
      two call-status values, and the per-token answers of the access-token kit. */
  datatype Config = Config(
    slotSize: int, maxSlotCount: int,
    callUnknown: int, callIdle: int,
    readCallLog: set<int>, manageCall: set<int>)

  datatype Record = Record(
    slot: int, mask: Mask, token: int, pid: int,
    uid: int, bundleName: string, appIdentifier: string, observer: Option<nat>)

  datatype Key = Key(slot: int, mask: Mask, token: int, pid: int)

  function KeyOf(r: Record): Key {
    Key(r.slot, r.mask, r.token, r.pid)
  }

  predicate IsExistStateListener(r: Record, k: Kind) {
    r.observer.Some? && HasBit(r.mask, k)
  }

  predicate IsCanReadCallHistory(cfg: Config, r: Record) {
    r.token in cfg.readCallLog
  }

  predicate CanManageCallForDevices(cfg: Config, r: Record) {
    r.token in cfg.manageCall
  }

  // ---------------------------------------------------------------- admission

  predicate CheckCallerIsSystemApp(caller: Caller, mask: Mask) {
    && (HasBit(mask, CellInfo) ==> caller.systemApp)
    && (HasBit(mask, CfuIndicator) ==> caller.systemApp)
    && (HasBit(mask, VoiceMail) ==> caller.systemApp)
  }

  predicate CheckPermission(caller: Caller, mask: Mask) {
    && (HasBit(mask, NetworkState) ==> GetNetworkInfo in caller.granted)
    && (HasBit(mask, CellInfo) ==> CellLocation in caller.granted)
    && (HasBit(mask, CCallState) ==> ManageCallForDevices in caller.granted)
    && (HasBit(mask, SimActive) ==> SetTelephonyState in caller.granted)
    && (HasBit(mask, VoIPCall) ==> ManageCallForDevices in caller.granted)
  }

  predicate IsMultiSimsCapabilitySupported(cfg: Config, caller: Caller, slot: int) {
    slot < cfg.maxSlotCount || caller.nativeOrShell || caller.systemAppToken
  }

  /** A registration that passes the permission gates is stored only for these slots; for every
      other slot the service answers Success and stores nothing. */
  predicate AcceptedSlot(cfg: Config, caller: Caller, slot: int) {
    && IsMultiSimsCapabilitySupported(cfg, caller, slot)
    && ((-1 <= slot <= cfg.maxSlotCount + 1) || slot == ALL_SLOTS)
  }

  function Gate(caller: Caller, mask: Mask): Code {
    if !CheckCallerIsSystemApp(caller, mask) then IllegalUseOfSystemApi
    else if !CheckPermission(caller, mask) then PermissionDenied
    else Success
  }

  // ---------------------------------------------------------------- the table

  predicate Present(recs: seq<Record>, key: Key) {
    exists i :: 0 <= i < |recs| && KeyOf(recs[i]) == key
  }

  /** No two records share slot, mask, token and pid. */
  ghost predicate NoDuplicates(recs: seq<Record>) {
    forall i, j :: 0 <= i < j < |recs| ==> KeyOf(recs[i]) != KeyOf(recs[j])
  }

  /** Index of the first record with this key, or the length of the table. */
  function IndexOf(recs: seq<Record>, key: Key): (n: nat)
    ensures n <= |recs|
    ensures n < |recs| ==> KeyOf(recs[n]) == key
    ensures forall i :: 0 <= i < n ==> KeyOf(recs[i]) != key
  {
    if recs == [] || KeyOf(recs[0]) == key then 0
    else
      var n := IndexOf(recs[1..], key);
      assert forall i :: 1 <= i <= n ==> recs[i] == recs[1..][i - 1];
      n + 1
  }

  function Added(recs: seq<Record>, r: Record): seq<Record> {
    if IndexOf(recs, KeyOf(r)) < |recs| then recs else recs + [r]
  }

  function Erased(recs: seq<Record>, key: Key): seq<Record> {
    var n := IndexOf(recs, key);
    if n < |recs| then recs[..n] + recs[n + 1..] else recs
  }

  /** The record a registration ends up with: the stored one when the key is present (so the
      old observer is kept), the new one otherwise. */
  function Effective(recs: seq<Record>, r: Record): (e: Record)
    ensures KeyOf(e) == KeyOf(r)
  {
    var n := IndexOf(recs, KeyOf(r));
    if n < |recs| then recs[n] else r
  }

  lemma IndexOfIs(recs: seq<Record>, key: Key, n: nat)
    requires n <= |recs|
    requires n < |recs| ==> KeyOf(recs[n]) == key
    requires forall i :: 0 <= i < n ==> KeyOf(recs[i]) != key
    ensures IndexOf(recs, key) == n
  {
  }

  /** Both table operations keep the key unique. */
  lemma TableKeepsKeysUnique(recs: seq<Record>, r: Record, key: Key)
    requires NoDuplicates(recs)
    ensures NoDuplicates(Added(recs, r))
    ensures NoDuplicates(Erased(recs, key))
    ensures !Present(Erased(recs, key), key)
  {
    var n := IndexOf(recs, key);
    if n < |recs| {
      var e := Erased(recs, key);
      assert forall i :: 0 <= i < |e| ==> e[i] == if i < n then recs[i] else recs[i + 1];
    }
  }

  /** Register then unregister of an absent key restores the exact table; registering a present
      key changes nothing and answers with the stored record. */
  lemma RegisterUnregisterRoundTrip(recs: seq<Record>, r: Record)
    ensures !Present(recs, KeyOf(r)) ==> Erased(Added(recs, r), KeyOf(r)) == recs && Effective(recs, r) == r
    ensures Present(recs, KeyOf(r)) ==> Added(recs, r) == recs && Effective(recs, r) in recs
  {
    if !Present(recs, KeyOf(r)) {
      var t := recs + [r];
      IndexOfIs(recs, KeyOf(r), |recs|);
      IndexOfIs(t, KeyOf(r), |recs|);
      assert t[..|recs|] + t[|recs| + 1..] == recs;
    }
  }
}
