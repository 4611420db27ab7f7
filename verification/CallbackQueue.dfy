/** The NAPI callback path as a state machine: `on`, `off` and teardown of several JS environments,
    the events that arrive, the work items they become, and the callbacks those invoke. Every
    access to the listener list or to an `isDeleting` flag holds the table mutex, so each critical
    section is one step; an `on` that calls the service keeps the mutex over several steps. */
module CallbackQueue {
  import opened Kinds
  import opened Records
  import opened Listeners
  import opened Napi = NapiListeners

  /** What the JS thread of an environment is doing. */
  datatype Thread =
    | Idle
    | Pending(l: Listener)                             // `on`: the context owns the reference
    | Adding(l: Listener)                              // `on`: holds the mutex, calls the service
    | Added(l: Listener)                               // `on`: holds the mutex, about to push
    | Failed(l: Listener)                              // `on`: about to delete the reference
    | Removing(taken: seq<Listener>, own: Option<Ref>) // `off`: about to delete references
    | Calling(item: Item)                              // the check passed: about to call JS

  /** A work item in the loop of its environment; `no` is its place among all the items ever queued. */
  datatype Item = Item(no: nat, w: Work)

  /** One dispatched event: the table it saw, how many work items the loops would take, and the work
      items it queued. */
  datatype Dispatch = Dispatch(
    event: Event, list: seq<Listener>, deleting: set<nat>, slot: int, upTo: nat, queued: seq<Work>)

  /** `madeBy` maps each created reference to its environment; the flag of a listener is numbered
      like its reference. `leaked` are the references an `on` lost track of. `accepted` and
      `refused` are the flags of the listeners that were pushed and of those the service refused.
      `posted` lists all events that ever arrived and `queued` all work ever queued; `invoked` and
      `skipped` are the items whose callback was called and those dropped because their flag was set. */
  datatype State = State(
    list: seq<Listener>, deleting: set<nat>, mutex: Option<nat>, threads: map<nat, Thread>,
    events: seq<Event>, work: seq<Item>,
    madeBy: seq<nat>, deleted: multiset<nat>, leaked: multiset<nat>, accepted: set<nat>, refused: set<nat>,
    posted: seq<Event>, dispatches: seq<Dispatch>, queued: seq<Work>, invoked: seq<Item>, skipped: seq<Item>)

  datatype Action =
    | OnStart(env: nat, kind: Kind, slot: int, fn: int)
    | OnCheck(env: nat)
    | Answer(env: nat, ipc: Code, replayed: bool)
    | OnPush(env: nat)
    | OnFail(env: nat)
    | OffStart(env: nat, kind: Kind, only: Option<int>)
    | OffFinish(env: nat)
    | Teardown(env: nat)
    | Post(kind: Kind, slot: int)
    | DispatchEvent(i: nat, defaultSlot: int, upTo: nat)
    | Check(i: nat)
    | Call(env: nat)

  function Init(): State {
    State([], {}, None, map[], [], [], [], multiset{}, multiset{}, {}, {}, [], [], [], [], [])
  }

  function ThreadOf(s: State, env: nat): Thread {
    if env in s.threads then s.threads[env] else Idle
  }

  // ---------------------------------------------------------------- on

  function DoOnStart(s: State, env: nat, kind: Kind, slot: int, fn: int): State {
    if ThreadOf(s, env) != Idle then s
    else
      var id := |s.madeBy|;
      s.(madeBy := s.madeBy + [env], threads := s.threads[env := Pending(Listener(env, kind, slot, Ref(id, fn), id))])
  }

  function Push(s: State, env: nat, l: Listener): State {
    s.(list := s.list + [l], accepted := s.accepted + {l.flag}, threads := s.threads[env := Idle], mutex := None)
  }

  /** The gates and the table check of an `on`. Without SIM slots a kind that needs one is reported
      as registered although nothing was stored. */
  function DoOnCheck(simSlotCount: int, s: State, env: nat): State {
    match ThreadOf(s, env)
    case Pending(l) =>
      if simSlotCount == 0 && !Napi.IsCallKind(l.kind) then
        s.(threads := s.threads[env := Idle], leaked := s.leaked + multiset{l.ref.id})
      else if !Napi.IsValidSlotIdEx(simSlotCount, l.kind, l.slot) then s.(threads := s.threads[env := Failed(l)])
      else if s.mutex.Some? then s
      else if exists m :: m in s.list && Napi.IsSame(m, l) then s.(threads := s.threads[env := Failed(l)])
      else if PairOf(l) in PairsOf(s.list) then Push(s, env, l)
      else s.(mutex := Some(env), threads := s.threads[env := Adding(l)])
    case _ => s
  }

  function Arrived(s: State, e: Event): State {
    s.(events := s.events + [e], posted := s.posted + [e])
  }

  /** The service answers; it may have replayed to the new observer before that, whatever it
      answers. */
  function DoAnswer(s: State, env: nat, ipc: Code, replayed: bool): State {
    match ThreadOf(s, env)
    case Adding(l) =>
      var r := if replayed then Arrived(s, Event(l.kind, l.slot, Some(l.flag))) else s;
      if ipc == Success then r.(threads := s.threads[env := Added(l)])
      else r.(threads := s.threads[env := Failed(l)], mutex := None, refused := s.refused + {l.flag})
    case _ => s
  }

  function DoOnPush(s: State, env: nat): State {
    match ThreadOf(s, env)
    case Added(l) => Push(s, env, l)
    case _ => s
  }

  function DoOnFail(s: State, env: nat): State {
    match ThreadOf(s, env)
    case Failed(l) => s.(deleted := s.deleted + multiset{l.ref.id}, threads := s.threads[env := Idle])
    case _ => s
  }

  // ---------------------------------------------------------------- off and teardown

  function IdsOf(list: seq<Listener>): multiset<nat> {
    if list == [] then multiset{}
    else IdsOf(list[..|list| - 1]) + multiset{list[|list| - 1].ref.id}
  }

  /** The references a thread is responsible for. */
  function ThreadRefs(t: Thread): multiset<nat> {
    match t
    case Idle => multiset{}
    case Pending(l) => multiset{l.ref.id}
    case Adding(l) => multiset{l.ref.id}
    case Added(l) => multiset{l.ref.id}
    case Failed(l) => multiset{l.ref.id}
    case Removing(taken, own) => IdsOf(taken) + (if own.Some? then multiset{own.value.id} else multiset{})
    case Calling(_) => multiset{}
  }

  /** The critical section of a removal. */
  function TakeOut(s: State, sel: Selection): State {
    s.(list := Kept(s.list, sel), deleting := s.deleting + Napi.FlagsOf(Removed(s.list, sel)))
  }

  /** `off` creates a reference for the callback it was given, then removes under the mutex. */
  function DoOffStart(s: State, env: nat, kind: Kind, fn: Option<int>): State {
    if ThreadOf(s, env) != Idle || s.mutex.Some? then s
    else
      var sel := Selection(env, {kind}, fn);
      var own := if fn.Some? then Some(Ref(|s.madeBy|, fn.value)) else None;
      TakeOut(s, sel).(
      madeBy := if fn.Some? then s.madeBy + [env] else s.madeBy,
      threads := s.threads[env := Removing(Removed(s.list, sel), own)])
  }

  function DoOffFinish(s: State, env: nat): State {
    if ThreadOf(s, env).Removing? then
      s.(deleted := s.deleted + ThreadRefs(ThreadOf(s, env)), threads := s.threads[env := Idle])
    else s
  }

  function Everything(env: nat): Selection {
    Selection(env, KindsOf(ALL_KINDS), None)
  }

  /** Teardown deletes the references inside the critical section. */
  function DoTeardown(s: State, env: nat): State {
    if ThreadOf(s, env) != Idle || s.mutex.Some? then s
    else TakeOut(s, Everything(env)).(deleted := s.deleted + IdsOf(Removed(s.list, Everything(env))))
  }

  // ---------------------------------------------------------------- events and work items

  /** New work items, numbered from n. */
  function Numbered(n: nat, ws: seq<Work>): (items: seq<Item>)
    ensures |items| == |ws| && forall i :: 0 <= i < |ws| ==> items[i] == Item(n + i, ws[i])
  {
    seq(|ws|, i requires 0 <= i < |ws| => Item(n + i, ws[i]))
  }

  /** Dispatch holds the mutex and queues one work item per listener; queueing may stop early when
      the event loop of an environment is gone. */
  function DoDispatch(s: State, i: nat, defaultSlot: int, upTo: nat): State {
    if i >= |s.events| || s.mutex.Some? then s
    else
      var e := s.events[i];
      var all := WorkFor(s.list, e, defaultSlot);
      var queued := all[..if upTo < |all| then upTo else |all|];
      s.(events := s.events[..i] + s.events[i + 1..],
         work := s.work + Numbered(|s.queued|, queued),
         queued := s.queued + queued,
         dispatches := s.dispatches + [Dispatch(e, s.list, s.deleting, defaultSlot, upTo, queued)])
  }

  /** A work item runs on the JS thread of its environment: under the mutex it reads the flag and,
      when that is clear, the reference; the mutex is released before the call. */
  function DoCheck(s: State, i: nat): State {
    if i >= |s.work| || s.mutex.Some? || ThreadOf(s, s.work[i].w.to.env) != Idle then s
    else
      var item := s.work[i];
      var rest := s.(work := s.work[..i] + s.work[i + 1..]);
      if item.w.to.flag in s.deleting then rest.(skipped := s.skipped + [item])
      else rest.(threads := s.threads[item.w.to.env := Calling(item)])
  }

  function DoCall(s: State, env: nat): State {
    match ThreadOf(s, env)
    case Calling(item) => s.(invoked := s.invoked + [item], threads := s.threads[env := Idle])
    case _ => s
  }

  /** One step. An action that is not enabled leaves the state as it is. */
  function Step(simSlotCount: int, s: State, a: Action): State {
    match a
    case OnStart(env, kind, slot, fn) => DoOnStart(s, env, kind, slot, fn)
    case OnCheck(env) => DoOnCheck(simSlotCount, s, env)
    case Answer(env, ipc, replayed) => DoAnswer(s, env, ipc, replayed)
    case OnPush(env) => DoOnPush(s, env)
    case OnFail(env) => DoOnFail(s, env)
    case OffStart(env, kind, fn) => DoOffStart(s, env, kind, fn)
    case OffFinish(env) => DoOffFinish(s, env)
    case Teardown(env) => DoTeardown(s, env)
    case Post(kind, slot) => Arrived(s, Event(kind, slot, None))
    case DispatchEvent(i, defaultSlot, upTo) => DoDispatch(s, i, defaultSlot, upTo)
    case Check(i) => DoCheck(s, i)
    case Call(env) => DoCall(s, env)
  }

  function Run(simSlotCount: int, actions: seq<Action>): State {
    if actions == [] then Init()
    else Step(simSlotCount, Run(simSlotCount, actions[..|actions| - 1]), actions[|actions| - 1])
  }

  /** Some run leads to the state. */
  ghost predicate Reachable(simSlotCount: int, s: State) {
    exists actions :: s == Run(simSlotCount, actions)
  }
}
