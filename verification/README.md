# Telephony state registry: a verified model

The telephony state registry is a publish/subscribe protocol. A system service keeps per-slot
caches of telephony state and a vector of records; each record says which process observes which
event types on which slot. Updates write a cache and then fan out to the matching records, and a
registration may replay the cached values. In every client process a front end (NAPI, Cangjie or
ANI) keeps its own listener table, registers with the service only for the first listener of a
(slot, event type) pair, and unregisters after the last one.

The project models both layers and proves what they keep:

| file | what it models |
|---|---|
| `Kinds`, `Records`, `Updates` | event types and masks, service records with their admission gates, updates, callbacks, caches, fan-out and replay |
| `Service` | the service class with its loops and in-place updates, one call at a time |
| `FanOuts`, `FanOutRuns` | which record receives what, in which order, and when an update succeeds; over all runs, what each fan-out callback says and to whom |
| `Interleaving` | the service as a state machine over its critical sections: cache writes and registrations under the exclusive lock, fan-outs one record per step under the shared lock, any number of them at once |
| `Admissions` | whom the service lets register and update, as answers and over all runs |
| `Deliveries`, `Draining`, `ReplayRuns`, `ReplayOrder`, `CurrentValues` | no update missed, none delivered twice, fan-outs always end, replays are complete and in order, and every replayed record gets to see the values cached now |
| `CacheHistory`, `CacheRuns`, `LogRuns` | the caches and everything sent to observers as a function of the accepted updates; cached and replayed tuples (SIM triple, data connection, call state with its number) are never a mix of two updates; which number a call-state fan-out shows |
| `Privacy` | phone numbers reach only tokens that may see them (a two-run property) |
| `SerialRuns` | the record table over whole runs, and the link between the class and the state machine |
| `Listeners`, `NapiListeners` | listener lists and the NAPI listener table class; teardown against repeated `off` |
| `Subscriptions`, `CangjieListeners`, `AniListeners`, `FrontEnds` | the other two front ends and the agreement of all three |
| `FirstReplays` | what the first listener of a pair brings from the service, for each front end |
| `CallbackQueue`, `CallbackRefs`, `CallbackSafety`, `Registrations`, `WorkItems`, `ReplayDispatch` | NAPI callbacks in flight: `on`, `off`, teardown, events, work items and callback references, in every interleaving |
| `ObserverClient`, `Coupling` | the client's connection to the service, and one process's listener table coupled to the service's record table under failing calls and service deaths |
| `Aggregation` | the per-process aggregation against the simple system with one record per listener |
| `ListCodec` | the tagged lists of signal and cell information in a parcel |

`dafny verify dfyconfig.toml` checks everything.

## How the model reads the code

- Registration masks are 32-bit words. A mask is modelled as the set of event types whose bit is set
  plus the remaining bits; `MaskOfWord` ties it to the bits of the word.
- The service keeps its cache maps in fields of its own. The class holds the fourteen maps in one
  record-valued field `caches` that the methods reassign. `operator[]` on a map inserts a default
  for a missing key; this is modelled wherever the code reads that way.
- Outgoing calls are appended to logs (`sent`, `requests`, `invoked`), which are ordinary fields, so
  their order can be stated.
- Answers of the access-token kit are parameters of a call (`Caller`) or fixed per token (`Config`).
  The number of slots, `MAX_SLOT_COUNT`, `SIM_SLOT_COUNT`, the signal and cell limits, and the
  call-status values come from another repository and are parameters.
- The result of a call to the service is a parameter of the front-end operation that makes it; the
  `Coupling` machine chooses among "no connection", "request lost", "reply lost" and "answered".
- A front end's tables are driven with the event types its listeners can have: the fourteen of
  NAPI's event map, the ten of Cangjie's, and the eleven for which ANI has a callback, exported
  functions and an execute loop (the ANI enum also names call forwarding and voice mail, which nothing
  can subscribe to). The slots are those `NativeOn` and `Register::register` accept. What the exported
  Cangjie and ANI functions can ask for is less; `CjExports` and `AniExports` say what.
- A JS function is an identity number (`fn`); a reference to it has its own identity (`id`).
- Where code and documentation differ the model follows the code. `README.md:63` of the repository
  asks for two location permissions for cell information, while the service checks the one
  cell-location permission at registration and on update; `README.md:66` says that only
  READ_CALL_LOG opens the phone number, while the restricted call-state event shows it to tokens
  that may manage calls.
- The branch of `UpdateCellInfo` that handles a record without observer cannot be reached, because
  the selection already asks for an observer. It is not modelled separately.

## Main results that qualify a promise

- References are conserved for all runs exactly when the product has SIM slots
  (`ReferencesConserved`); without them an `on` of a SIM event type loses its reference.
- A data-connection or data-flow update reaches a listener twice when the process holds both the
  update's slot and the pseudo slot 999 (`DataKindsOncePerRecord`), and a run without failures leads
  there (`DataUpdateHandledTwice`). An account or VoIP event, whose fan-out does not compare slots,
  reaches a listener once for every slot on which its process listens to the type
  (`SlotlessOncePerSlot`). `AggregationInRuns` gives the count for every event type.
- A call-state fan-out of one slot shows the number of the slot's last call-state update at the
  visit, its own update's or a later one's (`CallStateNumber`); it is the pair it was called with
  exactly when that number is still its own (`CallStatePairWhole`), and a run in which it is not
  exists (`TornCallState`).
- Fan-out sends one call-family callback per record by priority; a replay sends all of them
  (`CallFamilyPriority`, `ReplayIgnoresPriority`).
- The front ends differ in the event types and slots they take: neither of the Cangjie and ANI tables
  takes all that the other takes (`TakersDiffer`, `MissingTypeDiffers`), though the exported functions
  are nested (`ExportsNested`). They also differ in the Cangjie wildcard -1 (`WildcardDiffers`) and in
  failing removals (`RemovalsUnderFailure`).
- The two list parsers agree exactly on sizes in range for both (`ParsersAgree`).

## Model

| member | source | states |
|---|---|---|
| Kinds.MaskOfWord | frameworks/ets/ani/observer/src/register.rs:39-54 | testing a bit of a mask word is membership in the modelled mask, an event type's own value is the mask with just that type, and the bits are in enum order |
| Records.TableKeepsKeysUnique | services/src/telephony_state_registry_service.cpp:608-655 | adding and erasing keep (slot, mask, token, pid) unique, and erasing removes the key |
| Records.RegisterUnregisterRoundTrip | services/src/telephony_state_registry_service.cpp:608-655 | register then unregister of an absent key restores the exact record sequence; registering a present key changes nothing and answers with the stored record |
| Updates.SeedsAre | services/src/telephony_state_registry_service.cpp:59-68 | exactly the slots below the count start with the unknown call state |
| Service.TelephonyStateRegistryService.constructor | services/src/telephony_state_registry_service.cpp:44-69 | the service starts without records and with only the unknown call states cached |
| Service.TelephonyStateRegistryService.CallFor | services/src/telephony_state_registry_service.cpp:213-240 | the observer call each entry point's loop makes for one record, with the call-family else-if chain and its permission checks |
| Service.TelephonyStateRegistryService.Notify | services/src/telephony_state_registry_service.cpp:153-168 | one pass over the record vector makes exactly the fan-out's calls in table order and answers Success iff there was one |
| Service.TelephonyStateRegistryService.UpdateCellularDataConnectState | services/src/telephony_state_registry_service.cpp:136-171 | slot and permission gates, both connection caches written, then the fan-out |
| Service.TelephonyStateRegistryService.UpdateCellularDataFlow | services/src/telephony_state_registry_service.cpp:173-199 | slot and permission gates, flow cache written, then the fan-out |
| Service.TelephonyStateRegistryService.UpdateCallState | services/src/telephony_state_registry_service.cpp:201-241 | permission gate only, state and number cached for slot -1, then the fan-out |
| Service.TelephonyStateRegistryService.UpdateCallStateForSlotId | services/src/telephony_state_registry_service.cpp:243-282 | slot and permission gates, state and number cached, fan-out with the cached number |
| Service.TelephonyStateRegistryService.UpdateSimState | services/src/telephony_state_registry_service.cpp:284-311 | the three SIM caches are written together before the fan-out |
| Service.TelephonyStateRegistryService.UpdateSignalInfo | services/src/telephony_state_registry_service.cpp:314-345 | gates, cache write and fan-out of a signal update |
| Service.TelephonyStateRegistryService.UpdateCellInfo | services/src/telephony_state_registry_service.cpp:348-382 | slot gate, both permissions, cache write and fan-out of a cell update |
| Service.TelephonyStateRegistryService.UpdateNetworkState | services/src/telephony_state_registry_service.cpp:385-429 | gates, cache write and fan-out; a null state is cached but sent to nobody |
| Service.TelephonyStateRegistryService.UpdateCfuIndicator | services/src/telephony_state_registry_service.cpp:431-456 | gates, cache write and fan-out of a call-forwarding indicator |
| Service.TelephonyStateRegistryService.UpdateIccAccount | services/src/telephony_state_registry_service.cpp:458-476 | permission gate and a fan-out that ignores slots and writes no cache |
| Service.TelephonyStateRegistryService.UpdateVoiceMailMsgIndicator | services/src/telephony_state_registry_service.cpp:478-503 | gates, cache write and fan-out of a voice-mail indicator |
| Service.TelephonyStateRegistryService.UpdateSimActiveState | services/src/telephony_state_registry_service.cpp:505-529 | gates, cache write and fan-out of a SIM activity change |
| Service.TelephonyStateRegistryService.UpdateVoIPCallState | services/src/telephony_state_registry_service.cpp:531-548 | permission gate and a fan-out to tokens that may manage calls, without cache; what it sends to whom is `FanOutRuns.VoIPCallsArrive` |
| Service.TelephonyStateRegistryService.UpdateData | services/src/telephony_state_registry_service.cpp:715-764 | the replay of a record appends the calls of `Replayed`, with the cached or default values, and inserts the cells it reads; that these are one call per included type in the fixed order is `ReplayOrder.ReplayInOrder` |
| Service.TelephonyStateRegistryService.UpdateDataEx | services/src/telephony_state_registry_service.cpp:766-791 | the replay's second half, with the unknown call state shown as idle in the restricted event only; nothing without an observer |
| Service.TelephonyStateRegistryService.RegisterStateChange | services/src/telephony_state_registry_service.cpp:589-636 | gates (exactly those of `Admissions.RegistrationAnswer`), silent acceptance, one record per key built from the arguments alone, replay to the record kept |
| Service.TelephonyStateRegistryService.UnregisterStateChange | services/src/telephony_state_registry_service.cpp:638-659 | gates (those of `Admissions.UnregistrationAnswer`), then erases exactly the record with the key, or answers that there is none |
| Service.TelephonyStateRegistryService.Find | services/src/telephony_state_registry_service.cpp:974-987 | the getters' search finds the slot's cached value iff there is one |
| Service.TelephonyStateRegistryService.GetCallState | services/src/telephony_state_registry_service.cpp:989-1001 | answers the cached call state of the slot |
| Service.TelephonyStateRegistryService.GetSimState | services/src/telephony_state_registry_service.cpp:974-987 | answers the cached SIM state of the slot |
| Service.TelephonyStateRegistryService.GetLockReason | services/src/telephony_state_registry_service.cpp:1059-1071 | answers the cached lock reason of the slot |
| FanOuts.ReceivedInPlace | services/src/telephony_state_registry_service.cpp:153-168 | a selected record's callback stands in the output just after those of the records before it |
| FanOuts.SentForARecord | services/src/telephony_state_registry_service.cpp:153-168 | every emitted callback was sent for a selected record, at that record's place |
| FanOuts.SuccessIffReceived | services/src/telephony_state_registry_service.cpp:300-310 | an update answers Success iff some record received a callback |
| FanOuts.OneCallbackEach | services/src/telephony_state_registry_service.cpp:213-240 | no record of a table with unique keys receives two callbacks of one update |
| FanOuts.CallFamilyPriority | services/src/telephony_state_registry_service.cpp:213-240 | of the call-family bits only the highest one counts, and nothing is sent when that is the restricted type without permission |
| FanOuts.ReplayIgnoresPriority | services/src/telephony_state_registry_service.cpp:715-791 | a stored record with both unrestricted call-state types gets both callbacks from a replay, and exactly one, the numbered one, from a call-state update |
| FanOutRuns.EveryCallbackDue | services/src/telephony_state_registry_service.cpp:136-548 | in every interleaving each fan-out callback carries the very values of an update its record observes, on a slot the update is for; a slot's call-state update shows the slot's number at the visit, the restricted event always its own |
| FanOutRuns.EveryDueCallbackArrives | services/src/telephony_state_registry_service.cpp:136-548 | every live record an update is for, registered when it was issued, gets it exactly once or is still held by the fan-out; no other record ever gets it |
| FanOutRuns.VoIPCallsArrive | services/src/telephony_state_registry_service.cpp:531-548 | every callback of a VoIP update carries its information, to an observer of the event whose token may manage calls; every such record registered in time gets it once or is still held |
| Admissions.RegistrationAnswer | services/src/telephony_state_registry_service.cpp:589-606 | which answer a registration gets: a caller who lacks what an event type of the mask needs changes nothing and gets the matching error, any other is answered Success and stored if the slot allows it |
| Admissions.UnregistrationAnswer | services/src/telephony_state_registry_service.cpp:638-659 | the same for an unregistration |
| Admissions.UpdateAnswer | services/src/telephony_state_registry_service.cpp:348-362 | a slot the device lacks, then a missing permission, is refused without effect; any other update is accepted |
| Admissions.EveryoneVouched | services/src/telephony_state_registry_service.cpp:662-700 | in every run each stored record, and each observer call by event type, goes back to a registration whose caller was entitled to it, and each accepted update to a caller who may make it |
| Deliveries.NoMissedUpdate | services/src/telephony_state_registry_service.cpp:147-168 | in every interleaving each accepted update reaches each live record registered before it exactly once, or its fan-out still holds it; never twice, and never a record it does not select |
| Draining.FanOutsEnd | services/src/telephony_state_registry_service.cpp:147-168 | from every reachable state, in whatever order the fan-out threads run: the state fixes the number of steps still to take, some thread can take the next one until then, and at the end every live record got each update it was registered for and that notifies it exactly once |
| Draining.EveryStateDrains | services/src/telephony_state_registry_service.cpp:147-168 | every reachable state has a continuation of fan-out steps alone to such an end |
| Deliveries.InvAlways | services/src/telephony_state_registry_service.cpp:607-632 | tickets, cursors, registration order and the delivery account are kept by every step of every run |
| ReplayRuns.ReplayMembers | services/src/telephony_state_registry_service.cpp:715-791 | a call is in a replay exactly when it is the call of a type the record replays |
| ReplayOrder.ReplayInOrder | services/src/telephony_state_registry_service.cpp:715-791 | a replay sends one call for each event type of the mask but VoIP, the restricted one only to tokens that may manage calls, in the fixed order of the code and nothing else |
| ReplayOrder.OneCallbackPerKind | services/src/telephony_state_registry_service.cpp:715-791 | each event type has exactly one call in a replay that includes it and none in one that does not |
| ReplayOrder.ReplayAppends | services/src/telephony_state_registry_service.cpp:715-764 | what a replay sends does not depend on what was sent before |
| ReplayOrder.ReplaysInOrder | services/src/telephony_state_registry_service.cpp:607-632 | in every interleaving each replay in the log is complete, without repetition and in order |
| CurrentValues.CurrentValueReaches | services/src/telephony_state_registry_service.cpp:607-632 | for every replayed kind of a live record, its replay showed the values cached now, or the update that wrote them was a null network state, or is still in flight, or was delivered exactly once with those values |
| CacheHistory.CellWritten | services/src/telephony_state_registry_service.cpp:147-150 | a write changes exactly its own cells |
| CacheHistory.CellRead | services/src/telephony_state_registry_service.cpp:715-791 | a replay inserts defaults in exactly the cells it reads and changes no stored value |
| CacheRuns.CachesAreHistory | services/src/telephony_state_registry_service.cpp:59-68 | after any run each cell holds the last accepted write, else the seed, else the default a replay inserted, else nothing |
| CacheRuns.CacheKeysBounded | services/src/telephony_state_registry_service.cpp:602-606 | cache keys stay within the seeded slots and the slots a registration can be accepted for |
| CacheRuns.CachedTuplesUntorn | services/src/telephony_state_registry_service.cpp:294-298 | the SIM maps have equal keys and each slot's triple is that of its last update or all defaults; likewise the connection pair, and the pair of call state and number |
| CacheRuns.CachesReadAsWritten | services/src/telephony_state_registry_service.cpp:715-791 | to a reader the caches are what the accepted writes alone make them, whatever defaults replays inserted |
| LogRuns.ObserversSeeSoundCallbacks | services/src/telephony_state_registry_service.cpp:147-168 | in every reachable state the whole log is determined by the accepted updates: each fan-out callback is its update's with the slot's number at the visit, each replay is the replay of the values last written before it |
| LogRuns.ReplaysUntorn | services/src/telephony_state_registry_service.cpp:738-746 | every replayed SIM triple, connection pair and call state with number comes from the slot's last update or is all default |
| LogRuns.CallStateNumber | services/src/telephony_state_registry_service.cpp:254-265 | a call-state fan-out shows its own state and, to tokens that may read it, the number of the slot's last call-state update at the visit, issued no earlier than itself; to others none |
| LogRuns.CallStatePairWhole | services/src/telephony_state_registry_service.cpp:254-265 | a call-state fan-out shows its own pair iff the number its slot has at the visit is its own (or, without permission, its own is empty); always when no other update of the slot came in between |
| Privacy.NumberIndependence | services/src/telephony_state_registry_service.cpp:214-240 | two runs that differ only in phone numbers stay alike for everyone who may not see numbers |
| Privacy.NumbersStayPrivate | services/src/telephony_state_registry_service.cpp:705-713 | such runs return equal codes and send equal callbacks, by fan-out or replay, to unprivileged records |
| SerialRuns.TableAlwaysUniqueAndOrdered | services/src/telephony_state_registry_service.cpp:608-632 | in every run keys are unique and records stand in first-registration order |
| SerialRuns.FanOutNeverInserts | services/src/telephony_state_registry_service.cpp:705-713 | the number cache always has the key a fan-out reads under the shared lock |
| SerialRuns.SerialUpdate | services/src/telephony_state_registry_service.cpp:147-168 | an update run alone, phase by phase, does what the entry point's contract says |
| SerialRuns.SerialRegister | services/src/telephony_state_registry_service.cpp:607-635 | a registration that gets the lock does in the state machine what `RegisterStateChange` does alone: same record table, caches, answer and replay |
| SerialRuns.SerialUnregister | services/src/telephony_state_registry_service.cpp:647-659 | the same for an unregistration |
| SerialRuns.TornCallState | services/src/telephony_state_registry_service.cpp:254-265 | a run from the initial state in which a fan-out shows its own state with a later update's number |
| Listeners.RemovalInterleaves | frameworks/js/napi/src/event_listener_handler.cpp:534-564 | kept and removed listeners interleave to the old list, both in the old order |
| Listeners.RemovalRequestsExact | frameworks/js/napi/src/event_listener_handler.cpp:566-596 | remove calls go out in ascending order for exactly the pairs whose last listener was removed |
| Listeners.TeardownEqualsRepeatedOff | frameworks/js/napi/src/event_listener_handler.cpp:618-657 | teardown leaves the list, and drops the pairs, of unregistering the environment's event types one by one in any order: those no other environment still holds |
| Listeners.OffEachAsksOnce | frameworks/js/napi/src/event_listener_handler.cpp:598-657 | repeated off drops no pair twice |
| NapiListeners.EventListenerHandler.CheckEventListenerRegister | frameworks/js/napi/src/event_listener_handler.cpp:462-477 | reports "same" iff an equal listener exists, "pair same" iff only the pair is held |
| NapiListeners.EventListenerHandler.RegisterEventListener | frameworks/js/napi/src/event_listener_handler.cpp:479-513 | a duplicate changes nothing, a held pair only appends, a new pair calls the service first and is pushed only on success |
| NapiListeners.EventListenerHandler.RemoveEventListenerRegister | frameworks/js/napi/src/event_listener_handler.cpp:534-564 | the erase loop keeps, removes and flags exactly the right listeners, in order |
| NapiListeners.EventListenerHandler.CheckRemoveStateObserver | frameworks/js/napi/src/event_listener_handler.cpp:566-576 | one remove call iff no listener of the pair is left; only a failure replaces the result |
| NapiListeners.EventListenerHandler.UnregisterEventListener | frameworks/js/napi/src/event_listener_handler.cpp:578-596 | all pairs are tried in order and the last failure is returned |
| NapiListeners.EventListenerHandler.UnRegisterAllListener | frameworks/js/napi/src/event_listener_handler.cpp:618-657 | teardown removes, flags and deletes the references of exactly the environment's listeners and drops the unused pairs |
| NapiListeners.EventListenerHandler.HandleCallbackInfoUpdate | frameworks/js/napi/src/event_listener_handler.cpp:670-717 | queues one work item per listener the event is for, in list order, up to exactly the first whose environment has no event loop or whose item the loop refuses |
| NapiListeners.WorkForIs | frameworks/js/napi/src/event_listener_handler.cpp:1061-1080 | the queued items are exactly those of the listeners that need the event, the 999 rule included |
| FirstReplays.NapiFirstOn | frameworks/js/napi/src/event_listener_handler.cpp:486-507 | the first NAPI listener of a pair makes one call; accepted, it ends the log with a replay of the current value for call state, SIM state, the restricted call types and SIM activity, and leaves the log alone for every other type |
| FirstReplays.CjFirstOn | frameworks/cj/src/observer_event_handler.cpp:216-247 | the same for Cangjie, which asks for call state only |
| FirstReplays.AniFirstOn | frameworks/ets/ani/observer/src/cxx/observer_ani.cpp:191-217 | the same for ANI, which asks for the three call types |
| CangjieListeners.ObserverEventHandler.RegisterEventListener | frameworks/cj/src/observer_event_handler.cpp:216-247 | as in NAPI, without environments |
| CangjieListeners.ObserverEventHandler.RemoveEventListenerRegister | frameworks/cj/src/observer_event_handler.cpp:258-271 | the erase loop with the wildcard -1 |
| CangjieListeners.ObserverEventHandler.UnregisterEventListener | frameworks/cj/src/observer_event_handler.cpp:295-313 | all slots are tried and the last failure is returned |
| CangjieListeners.ObserverEventHandler.Snapshot | frameworks/cj/src/observer_event_handler.cpp:329-340 | the snapshot holds exactly the listeners of the slot and type, in order |
| CangjieListeners.CjKeptIs | frameworks/cj/src/observer_event_handler.cpp:258-271 | as subscriptions, the Cangjie loop keeps and takes what the ANI retain does |
| AniListeners.Register.RegisterListener | frameworks/ets/ani/observer/src/register.rs:143-170 | slot check, duplicate accepted silently, call and push for a new pair |
| AniListeners.Register.Retain | frameworks/ets/ani/observer/src/register.rs:196-216 | retain keeps the others in order and collects the slots it dropped |
| AniListeners.Register.Execute | frameworks/ets/ani/observer/src/register.rs:233-258 | an execute loop calls exactly the callbacks of the slot and type, in order |
| AniListeners.Register.Unregister | frameworks/ets/ani/observer/src/register.rs:185-231 | the calls stop after the first failing one, whose code is returned; the vector has already lost every match |
| FrontEnds.FrontEndsAgree | frameworks/js/napi/src/event_listener_handler.cpp:462-616 | after any sequence of on and off of the eight common event types, on slots all three take, the front ends hold the same subscriptions in order and made the same calls in order |
| FrontEnds.FrontEndsDispatchAlike | frameworks/cj/src/observer_event_handler.cpp:316-343 | after such a sequence an arriving update goes to the same callbacks in the same order in all three |
| FrontEnds.HeldIffStanding | frameworks/ets/ani/observer/src/register.rs:143-216 | after any sequence of commands at all each front end holds exactly the subscriptions that it takes and that no later off ended |
| FrontEnds.TakersDiffer | frameworks/cj/src/telephony_observer_impl.cpp:31-117 | which event types and slots each front end takes and exactly where two of them differ, both ways: Cangjie alone has call forwarding and voice mail, ANI alone the restricted call types and SIM activity |
| FrontEnds.ExportsNested | frameworks/ets/ani/observer/src/observer.rs:75-474 | through the exported functions ANI offers all that Cangjie offers and NAPI all that ANI offers, with the exact difference |
| FrontEnds.MissingTypeDiffers | frameworks/ets/ani/observer/ets/@ohos.telephony.observer.ets:108-138 | one on is stored by exactly the front ends that take it: a type Cangjie lacks by NAPI and ANI, a type ANI lacks by NAPI and Cangjie |
| FrontEnds.OnAnswers | frameworks/ets/ani/observer/src/register.rs:143-170 | what an on answers and stores in all three for every answer of the service: a first listener is stored iff accepted, a duplicate is reported by NAPI and Cangjie and not by ANI |
| FrontEnds.WildcardDiffers | frameworks/cj/src/observer_event_handler.cpp:263-263 | exactly when a Cangjie off of callback -1 does what the other front ends would do |
| FrontEnds.RemovalsUnderFailure | frameworks/ets/ani/observer/src/register.rs:216-230 | which calls and which code the two removal styles give under failures, and when they coincide |
| CallbackRefs.ReferencesConserved | frameworks/js/napi/src/napi_state_registry.cpp:79-143 | for all runs each created reference is in exactly one of context or removal list, listener list and deleted set, iff the product has SIM slots |
| CallbackRefs.DeletedAtMostOnce | frameworks/js/napi/src/napi_state_registry.cpp:274-306 | no reference is ever deleted twice |
| CallbackSafety.FlagsAlwaysExact | frameworks/js/napi/src/event_listener_handler.cpp:515-564 | in every reachable state an accepted listener's flag is set iff it is not in the list |
| CallbackSafety.CheckedReferenceIsLive | frameworks/js/napi/src/event_listener_handler.cpp:761-784 | a thread that passed the check uses a reference not yet deleted, of a listener still in the list |
| CallbackSafety.NoCallbackAfterOff | frameworks/js/napi/src/event_listener_handler.cpp:578-657 | after an off or teardown took a listener nothing invokes it, in every interleaving |
| Registrations.OnCheckRegisters | frameworks/js/napi/src/event_listener_handler.cpp:459-513 | in the interleaved model the check of an on decides as the registration running alone: duplicate, further listener of a held pair, or call under the mutex |
| Registrations.OnlyDuplicatesFail | frameworks/js/napi/src/event_listener_handler.cpp:462-477 | an on is refused as a duplicate exactly for a listener of the same environment, slot, type and function |
| Registrations.OnEndRegisters | frameworks/js/napi/src/event_listener_handler.cpp:503-513 | in every interleaving a refusal leaves the list alone, and the push after an acceptance makes it what the registration running alone makes of the list at that moment |
| Registrations.OffTakesNamed | frameworks/js/napi/src/event_listener_handler.cpp:515-596 | an off in the interleaved model takes exactly the listeners of the environment, type and callback it names |
| Registrations.TeardownTakesAll | frameworks/js/napi/src/event_listener_handler.cpp:618-657 | a teardown takes exactly the listeners of its environment |
| ReplayDispatch.DispatchStepServes | frameworks/js/napi/src/event_listener_handler.cpp:670-717 | a dispatch queues one work item for each listener the event is for, in list order, all of them or exactly as many as the loops took; the 999 rule stated for both data types |
| ReplayDispatch.DispatchServesAll | frameworks/js/napi/src/event_listener_handler.cpp:670-717 | the same for every dispatch logged in a reachable state |
| ReplayDispatch.EachServedOnce | frameworks/js/napi/src/event_listener_handler.cpp:670-784 | from dispatch to callback: a served listener's item waits, is about to be called, was invoked once, or was skipped after the listener had left the list |
| ReplayDispatch.EveryEventOnce | frameworks/js/napi/src/event_listener_handler.cpp:444-457 | each event that ever arrived still waits or was dispatched, once |
| WorkItems.EveryItemOnce | frameworks/js/napi/src/event_listener_handler.cpp:670-784 | in every reachable state each queued work item waits, or its thread is about to call, or it was invoked once, or it was skipped because its listener left the list; none is lost for a listener still in the list |
| WorkItems.OnlyQueuedInvoked | frameworks/js/napi/src/event_listener_handler.cpp:761-784 | every invocation is of a queued work item, and no item is invoked twice |
| ReplayDispatch.ReplayNeverLost | frameworks/js/napi/src/event_listener_handler.cpp:479-513 | a replay caused by an accepted first registration is dispatched with its listener in the list and its work item queued, unless the loops stopped the dispatch early, or the listener is already removed |
| ObserverClient.TelephonyObserverClient.GetProxy | frameworks/native/observer/src/telephony_observer_client.cpp:30-61 | keeps the proxy it has untouched, otherwise takes a usable one; a proxy to another process always has its death recipient attached, a local object is kept without |
| ObserverClient.TelephonyObserverClient.OnRemoteDied | frameworks/native/observer/src/telephony_observer_client.cpp:63-80 | drops the proxy of the dead instance only |
| ObserverClient.TelephonyObserverClient.Call | frameworks/native/observer/src/telephony_observer_client.cpp:82-101 | a call without proxy answers the connection error, otherwise the service's answer |
| ObserverClient.FirstConnectionStays | frameworks/native/observer/src/telephony_observer_client.cpp:30-61 | over any number of calls the client uses the first usable connection until a death is reported |
| Coupling.AlwaysCoupled | frameworks/js/napi/src/event_listener_handler.cpp:479-616 | in every run a recorded pair without listener had an error as latest answer or waits for its call, and a listened pair without record was accepted silently or registered with a dead instance |
| Coupling.OnlyAnswersCount | frameworks/native/observer/src/telephony_observer_client.cpp:82-91 | a first listener is stored exactly when the running service got the request, agreed, and the reply came back |
| Coupling.OnlyAnswersRemove | frameworks/native/observer/src/telephony_observer_client.cpp:93-101 | a removal counts as done exactly when the running service got it, had the record, agreed, and the reply came back |
| Coupling.ProxyKept | frameworks/native/observer/src/telephony_observer_client.cpp:63-80 | whatever happens, a proxy is dropped by the report of its own instance's death only |
| Coupling.TablesAgree | services/src/telephony_state_registry_service.cpp:600-659 | in runs without failures the process has records for exactly the pairs it has listeners for, after every operation |
| Aggregation.AggregationRefines | frameworks/js/napi/src/event_listener_handler.cpp:670-717 | what a process queues for an update and type is what the one-record-per-listener system queues, once for each callback that arrives |
| Aggregation.ArrivesForAListener | services/src/telephony_state_registry_service.cpp:153-168 | something arrives iff the update selects the pair of some listener |
| Aggregation.ArrivesOncePerPair | services/src/telephony_state_registry_service.cpp:153-168 | an update reaches the process once for each pair it listens to that the update selects |
| Aggregation.SlotMatchedExactlyOnce | frameworks/js/napi/src/event_listener_handler.cpp:1061-1080 | for slot-matched types every listener is reached exactly once, in list order |
| Aggregation.DataKindsOncePerRecord | frameworks/js/napi/src/event_listener_handler.cpp:1061-1080 | for the data types a listener is reached once per held pair among the update's slot and 999 |
| Aggregation.SlotlessOncePerSlot | services/src/telephony_state_registry_service.cpp:458-476 | an account or VoIP event reaches each listener once for every slot on which the process listens to the type |
| Aggregation.DataUpdateHandledTwice | frameworks/js/napi/src/event_listener_handler.cpp:1061-1080 | for either data type a run without failures reaches a state in which one update is handled twice by each listener it is for |
| Aggregation.AggregationInRuns | frameworks/js/napi/src/event_listener_handler.cpp:479-512 | after every operation of every run without failures, for every update and event type, what is queued is the simple system's work once per selected pair the process listens to; exactly once for slot-matched types |
| ListCodec.WriteList | frameworks/native/observer/src/telephony_observer_proxy.cpp:97-154 | the lists that are sent, and the words they put in the parcel |
| ListCodec.ObserverReads | frameworks/native/observer/src/telephony_observer.cpp:225-332 | what the observer reads from any parcel, malformed ones included, and where it stops |
| ListCodec.StubReads | services/src/telephony_state_registry_stub.cpp:192-334 | what the stub reads, with its own size rules |
| ListCodec.ListRoundTrip | frameworks/native/observer/src/telephony_observer.cpp:225-268 | a coded list is read back whole iff all its types are known, and then the parcel is consumed |
| ListCodec.UnknownTypeKeepsPrefix | frameworks/native/observer/src/telephony_observer.cpp:263-266 | with an unknown type the result starts with exactly the elements before it and has at most the announced number |
| ListCodec.SentListsAreReceived | frameworks/native/observer/src/telephony_observer_proxy.cpp:108-117 | a sent list arrives iff its types are known and it has at most 100 elements; longer ones lose what is past 100 |
| ListCodec.ParsersAgree | services/src/telephony_state_registry_stub.cpp:213-284 | stub and observer agree on all equal bytes iff the size is in range for both |

## Left out

- Common-event publishing, logging, timers, `Dump` and its helper: output plumbing.
- The extension library loaded at start: it may rewrite payloads; the model covers the service without it.
- Access-token answers that change for one token during a run: the per-token permissions of the fan-out are fixed.
- Element codecs (`Marshalling`, `ReadFromParcel`): defined in another repository. `SelfDelimiting` states what the list codec needs of them. The known types are GSM, CDMA, LTE, NR and WCDMA for signals and GSM, LTE and NR for cells; their numeric tags are parameters.
- JS object construction, the enum conversion tables, error-code conversion and the `.ets` and FFI forwarding.
- "No callback after off" for Cangjie: its dispatch reads the flag outside the lock after taking a snapshot, so the claim does not hold there.
- Cangjie's dispatch after its snapshot: the flag checks and calls for the snapshot's listeners.
- Failing allocations (`TELEPHONY_ERR_LOCAL_PTR_NULL` paths), JS handle scopes that cannot be opened, and null arguments of native callbacks.
- CallbackQueue: the service calls an `off` makes while it holds the table mutex are one step with the removal there; `Coupling` takes them one at a time.
- CallbackQueue: whether the service replays to a first registration is left open there; `FirstReplays` says when it does.
- CallbackQueue: events are dispatched in any order and work items checked in any order, which includes the first-in-first-out order of the event handler and the JS loops.
- Coupling: one process with one front end; calls of one operation see any behaviour of the service, but a request the client gave up on is not executed later.
- The getters answer TELEPHONY_ERROR for a slot without entry; the model answers None.
