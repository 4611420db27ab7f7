/** The service as a state machine over its critical sections. Each update holds the exclusive
    lock while it writes the caches, releases it, and later walks the record vector under the
    shared lock, one record per step, so several fan-outs can be under way at once. Registration
    (with its replay) and unregistration are single steps under the exclusive lock. */
module Interleaving {
  import opened Records
  import opened Updates

  /** A stored record. `id` numbers the registrations that pushed a record; `born` is the number
      of updates issued before it was pushed; `asOf` is that number at its latest replay, and
      `shown` is what that replay sent. */
  datatype Entry = Entry(id: nat, born: nat, asOf: Option<nat>, shown: seq<Sent>, rec: Record)

  /** A fan-out in progress: the next index to visit, and whether an observer was called. */
  datatype Cursor = Cursor(next: nat, hit: bool)

  /** `at` is the number of updates issued when the observer was called. */
  datatype Event =
    | Delivered(id: nat, to: Record, ticket: nat, cb: Callback, at: nat)
    | ReplayedTo(id: nat, to: Record, calls: seq<Sent>, at: nat)

  /** `issued` lists the accepted updates, so an index into it is a ticket; `pending` are the
      tickets whose fan-out has not started, `reading` those that hold the shared lock. */
  datatype State = State(
    caches: Caches, table: seq<Entry>, issued: seq<Update>, pending: set<nat>,
    reading: map<nat, Cursor>, log: seq<Event>, replays: seq<Record>, codes: seq<Code>, nextId: nat)

  datatype Action =
    | Write(caller: Caller, u: Update)
    | Begin(t: nat)
    | Visit(t: nat)
    | Finish(t: nat)
    | Register(caller: Caller, r: Record, notify: bool)
    | Unregister(caller: Caller, key: Key)

  function Init(cfg: Config): State {
    State(InitialCaches(cfg), [], [], {}, map[], [], [], [], 0)
  }

  function Recs(table: seq<Entry>): seq<Record> {
    seq(|table|, i requires 0 <= i < |table| => table[i].rec)
  }

  /** No fan-out holds the shared lock, so the exclusive lock can be taken. */
  predicate Quiet(s: State) {
    |s.reading| == 0
  }

  function Cached(s: State, u: Update): string {
    At(s.caches.number, u.Target(), "")
  }

  function DoWrite(cfg: Config, s: State, caller: Caller, u: Update): State {
    if Admit(cfg, caller, u) != Success then s.(codes := s.codes + [Admit(cfg, caller, u)])
    else if u.Writes() && !Quiet(s) then s
    else s.(caches := Written(s.caches, u), issued := s.issued + [u], pending := s.pending + {|s.issued|})
  }

  function DoBegin(s: State, t: nat): State {
    if t in s.pending then s.(pending := s.pending - {t}, reading := s.reading[t := Cursor(0, false)]) else s
  }

  function DoVisit(cfg: Config, s: State, t: nat): State {
    if t in s.reading && s.reading[t].next < |s.table| && t < |s.issued| then
      var e := s.table[s.reading[t].next];
      match CallbackFor(cfg, s.issued[t], e.rec, Cached(s, s.issued[t]))
      case None => s.(reading := s.reading[t := Cursor(s.reading[t].next + 1, s.reading[t].hit)])
      case Some(cb) => s.(reading := s.reading[t := Cursor(s.reading[t].next + 1, true)],
                          log := s.log + [Delivered(e.id, e.rec, t, cb, |s.issued|)])
    else s
  }

  function DoFinish(s: State, t: nat): State {
    if t in s.reading && s.reading[t].next >= |s.table| then
      s.(reading := s.reading - {t}, codes := s.codes + [if s.reading[t].hit then Success else DataNotExist])
    else s
  }

  /** The table with the record added if its key is absent. */
  function Pushed(s: State, r: Record): seq<Entry> {
    if IndexOf(Recs(s.table), KeyOf(r)) < |s.table| then s.table
    else s.table + [Entry(s.nextId, |s.issued|, None, [], r)]
  }

  function DoRegister(cfg: Config, s: State, caller: Caller, r: Record, notify: bool): State {
    if Gate(caller, r.mask) != Success then s.(codes := s.codes + [Gate(caller, r.mask)])
    else if !AcceptedSlot(cfg, caller, r.slot) then s.(codes := s.codes + [Success])
    else if !Quiet(s) then s
    else
      var n := IndexOf(Recs(s.table), KeyOf(r));
      var table := Pushed(s, r);
      var nextId := if n < |s.table| then s.nextId else s.nextId + 1;
      var after := s.(table := table, nextId := nextId, codes := s.codes + [Success]);
      if notify then Replaying(cfg, after, n) else after
  }

  /** The replay of a registration to the record at index n. */
  function Replaying(cfg: Config, s: State, n: nat): State
    requires n < |s.table|
  {
    var e := s.table[n];
    var calls := Replayed(cfg, s.caches, e.rec, []);
    s.(caches := Read(cfg, s.caches, e.rec),
       table := s.table[n := e.(asOf := Some(|s.issued|), shown := calls)],
       log := s.log + [ReplayedTo(e.id, e.rec, calls, |s.issued|)],
       replays := s.replays + [e.rec])
  }

  function DoUnregister(s: State, caller: Caller, key: Key): State {
    if Gate(caller, key.mask) != Success then s.(codes := s.codes + [Gate(caller, key.mask)])
    else if !Quiet(s) then s
    else
      var n := IndexOf(Recs(s.table), key);
      if n < |s.table| then
        s.(table := s.table[..n] + s.table[n + 1..], codes := s.codes + [Success])
      else s.(codes := s.codes + [UnregisterDataNotExist])
  }

  /** One step. An action that is not enabled leaves the state as it is. */
  function Step(cfg: Config, s: State, a: Action): State {
    match a
    case Write(caller, u) => DoWrite(cfg, s, caller, u)
    case Begin(t) => DoBegin(s, t)
    case Visit(t) => DoVisit(cfg, s, t)
    case Finish(t) => DoFinish(s, t)
    case Register(caller, r, notify) => DoRegister(cfg, s, caller, r, notify)
    case Unregister(caller, key) => DoUnregister(s, caller, key)
  }

  function Run(cfg: Config, actions: seq<Action>): State {
    if actions == [] then Init(cfg)
    else Step(cfg, Run(cfg, actions[..|actions| - 1]), actions[|actions| - 1])
  }

  /** Some run leads to the state. */
  ghost predicate Reachable(cfg: Config, s: State) {
    exists actions :: s == Run(cfg, actions)
  }

  // ---------------------------------------------------------------- tickets and ids

  /** Tickets in use were issued; a ticket is pending or reading, not both; cursors are in range. */
  predicate Tickets(s: State) {
    && (forall t :: t in s.pending ==> t < |s.issued| && t !in s.reading)
    && (forall t :: t in s.reading ==> t < |s.issued| && s.reading[t].next <= |s.table|)
    && (forall j :: 0 <= j < |s.log| ==> s.log[j].id < s.nextId)
    && (forall j :: 0 <= j < |s.log| && s.log[j].Delivered? ==> s.log[j].ticket < |s.issued|)
  }

  /** The table is in first-registration order. */
  predicate Ordered(s: State) {
    && (forall i :: 0 <= i < |s.table| ==> s.table[i].id < s.nextId && s.table[i].born <= |s.issued|)
    && (forall i :: 0 <= i < |s.table| && s.table[i].asOf.Some? ==>
          s.table[i].born <= s.table[i].asOf.value <= |s.issued|)
    && (forall i, j :: 0 <= i < j < |s.table| ==> s.table[i].id < s.table[j].id)
  }

  lemma TicketsKept(cfg: Config, s: State, a: Action)
    requires Tickets(s) && Ordered(s)
    ensures Tickets(Step(cfg, s, a))
  {
    match a {
      case Register(caller, r, notify) => TicketsKeptByRegister(cfg, s, caller, r, notify);
      case Visit(t) => TicketsKeptByVisit(cfg, s, t);
      case _ =>
    }
  }

  lemma TicketsKeptByVisit(cfg: Config, s: State, t: nat)
    requires Tickets(s) && Ordered(s)
    ensures Tickets(DoVisit(cfg, s, t))
  {
  }

  lemma TicketsKeptByRegister(cfg: Config, s: State, caller: Caller, r: Record, notify: bool)
    requires Tickets(s) && Ordered(s)
    ensures Tickets(DoRegister(cfg, s, caller, r, notify))
  {
  }

  lemma OrderedKept(cfg: Config, s: State, a: Action)
    requires Ordered(s)
    ensures Ordered(Step(cfg, s, a))
  {
    match a {
      case Register(caller, r, notify) => OrderedKeptByRegister(cfg, s, caller, r, notify);
      case Unregister(caller, key) => OrderedKeptByUnregister(s, caller, key);
      case _ =>
    }
  }

  lemma OrderedKeptByReplay(cfg: Config, s: State, n: nat)
    requires Ordered(s) && n < |s.table|
    ensures Ordered(Replaying(cfg, s, n))
  {
  }

  lemma OrderedKeptByRegister(cfg: Config, s: State, caller: Caller, r: Record, notify: bool)
    requires Ordered(s)
    ensures Ordered(DoRegister(cfg, s, caller, r, notify))
  {
    if Gate(caller, r.mask) == Success && AcceptedSlot(cfg, caller, r.slot) && Quiet(s) {
      var n := IndexOf(Recs(s.table), KeyOf(r));
      var nextId := if n < |s.table| then s.nextId else s.nextId + 1;
      var pushed := s.(table := Pushed(s, r), nextId := nextId, codes := s.codes + [Success]);
      assert Ordered(pushed);
      if notify {
        OrderedKeptByReplay(cfg, pushed, n);
      }
    }
  }

  lemma OrderedKeptByUnregister(s: State, caller: Caller, key: Key)
    requires Ordered(s)
    ensures Ordered(DoUnregister(s, caller, key))
  {
    var n := IndexOf(Recs(s.table), key);
    if Gate(caller, key.mask) == Success && Quiet(s) && n < |s.table| {
      OrderedWithout(s, DoUnregister(s, caller, key), n);
    }
  }

  lemma OrderedWithout(s: State, t: State, n: nat)
    requires Ordered(s) && n < |s.table| && t.table == s.table[..n] + s.table[n + 1..]
    requires t.nextId == s.nextId && t.issued == s.issued
    ensures Ordered(t)
  {
    assert forall i :: 0 <= i < |t.table| ==> t.table[i] == if i < n then s.table[i] else s.table[i + 1];
  }
}
