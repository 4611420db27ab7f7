/** Phone numbers do not leak: two runs that differ only in the numbers passed to the call-state
    updates return the same codes and send the same callbacks to every record whose token has
    neither READ_CALL_LOG nor MANAGE_CALL_FOR_DEVICES. */
module Privacy {
  import opened Records
  import opened Updates
  import opened Interleaving

  predicate Unprivileged(cfg: Config, r: Record) {
    !IsCanReadCallHistory(cfg, r) && !CanManageCallForDevices(cfg, r)
  }

  function Erase(u: Update): Update {
    match u
    case SetCallState(st, _) => SetCallState(st, "")
    case SetCallStateForSlot(s, st, _) => SetCallStateForSlot(s, st, "")
    case _ => u
  }

  predicate SameButNumbers(c: Caches, d: Caches) {
    c.(number := map[]) == d.(number := map[]) && c.number.Keys == d.number.Keys
  }

  predicate SameEntry(cfg: Config, a: Entry, b: Entry) {
    && a.id == b.id && a.born == b.born && a.asOf == b.asOf && a.rec == b.rec
    && (Unprivileged(cfg, a.rec) ==> a.shown == b.shown)
  }

  predicate SameEvent(cfg: Config, a: Event, b: Event) {
    && a.to == b.to && a.id == b.id
    && (a.Delivered? <==> b.Delivered?)
    && (Unprivileged(cfg, a.to) ==> a == b)
  }

  ghost predicate SameTable(cfg: Config, a: seq<Entry>, b: seq<Entry>) {
    |a| == |b| && forall i :: 0 <= i < |a| ==> SameEntry(cfg, a[i], b[i])
  }

  ghost predicate SameLog(cfg: Config, a: seq<Event>, b: seq<Event>) {
    |a| == |b| && forall i :: 0 <= i < |a| ==> SameEvent(cfg, a[i], b[i])
  }

  ghost predicate SameIssued(a: seq<Update>, b: seq<Update>) {
    |a| == |b| && forall i :: 0 <= i < |a| ==> Erase(a[i]) == Erase(b[i])
  }

  /** The two states look alike to everyone who may not see numbers. */
  ghost predicate Alike(cfg: Config, s: State, r: State) {
    && SameButNumbers(s.caches, r.caches)
    && SameTable(cfg, s.table, r.table)
    && SameIssued(s.issued, r.issued)
    && SameLog(cfg, s.log, r.log)
    && s.pending == r.pending && s.reading == r.reading && s.replays == r.replays
    && s.codes == r.codes && s.nextId == r.nextId
  }

  predicate SameAction(a: Action, b: Action) {
    match a
    case Write(caller, u) => b.Write? && b.caller == caller && Erase(u) == Erase(b.u)
    case _ => a == b
  }

  ghost predicate SameActions(as1: seq<Action>, as2: seq<Action>) {
    |as1| == |as2| && forall j :: 0 <= j < |as1| ==> SameAction(as1[j], as2[j])
  }

  /** The two states are reached by runs that differ only in phone numbers. */
  ghost predicate TwinRuns(cfg: Config, s: State, r: State) {
    exists as1, as2 :: SameActions(as1, as2) && s == Run(cfg, as1) && r == Run(cfg, as2)
  }

  lemma CallbackAlike(cfg: Config, u: Update, v: Update, r: Record, m: string, n: string)
    requires Erase(u) == Erase(v)
    ensures CallbackFor(cfg, u, r, m).Some? <==> CallbackFor(cfg, v, r, n).Some?
    ensures Unprivileged(cfg, r) ==> CallbackFor(cfg, u, r, m) == CallbackFor(cfg, v, r, n)
  {
  }

  lemma WrittenAlike(c: Caches, d: Caches, u: Update, v: Update)
    requires SameButNumbers(c, d) && Erase(u) == Erase(v)
    ensures SameButNumbers(Written(c, u), Written(d, v))
  {
  }

  lemma ReadAlike(cfg: Config, c: Caches, d: Caches, r: Record)
    requires SameButNumbers(c, d)
    ensures SameButNumbers(Read(cfg, c, r), Read(cfg, d, r))
  {
  }

  lemma ReplayAlike(cfg: Config, c: Caches, d: Caches, r: Record)
    requires SameButNumbers(c, d) && Unprivileged(cfg, r)
    ensures Replayed(cfg, c, r, []) == Replayed(cfg, d, r, [])
  {
    var s1 := RadioReplay(cfg, c, r, []);
    assert s1 == RadioReplay(cfg, d, r, []);
    var s2 := SimAndConnectionReplay(cfg, c, r, s1);
    assert s2 == SimAndConnectionReplay(cfg, d, r, s1);
    var s3 := IndicatorReplay(cfg, c, r, s2);
    assert s3 == IndicatorReplay(cfg, d, r, s2);
    assert ExReplay(cfg, c, r, s3) == ExReplay(cfg, d, r, s3);
  }

  lemma IssuedAlike(a: seq<Update>, b: seq<Update>, u: Update, v: Update)
    requires SameIssued(a, b) && Erase(u) == Erase(v)
    ensures SameIssued(a + [u], b + [v])
  {
  }

  lemma AdmittedAlike(cfg: Config, caller: Caller, u: Update, v: Update)
    requires Erase(u) == Erase(v)
    ensures Admit(cfg, caller, u) == Admit(cfg, caller, v) && u.Writes() == v.Writes()
  {
  }

  lemma AlikeAfterWrite(cfg: Config, s: State, r: State, caller: Caller, u: Update, v: Update)
    requires Alike(cfg, s, r) && Erase(u) == Erase(v)
    ensures Alike(cfg, DoWrite(cfg, s, caller, u), DoWrite(cfg, r, caller, v))
  {
    AdmittedAlike(cfg, caller, u, v);
    if Admit(cfg, caller, u) == Success && (!u.Writes() || Quiet(s)) {
      WrittenAlike(s.caches, r.caches, u, v);
      IssuedAlike(s.issued, r.issued, u, v);
    }
  }

  lemma AlikeAfterVisit(cfg: Config, s: State, r: State, t: nat)
    requires Alike(cfg, s, r)
    ensures Alike(cfg, DoVisit(cfg, s, t), DoVisit(cfg, r, t))
  {
    if t in s.reading && s.reading[t].next < |s.table| && t < |s.issued| {
      var i := s.reading[t].next;
      assert SameEntry(cfg, s.table[i], r.table[i]);
      CallbackAlike(cfg, s.issued[t], r.issued[t], s.table[i].rec, Cached(s, s.issued[t]), Cached(r, r.issued[t]));
    }
  }

  lemma SameRecs(cfg: Config, a: seq<Entry>, b: seq<Entry>)
    requires SameTable(cfg, a, b)
    ensures Recs(a) == Recs(b)
  {
    assert forall i :: 0 <= i < |a| ==> SameEntry(cfg, a[i], b[i]);
  }

  lemma AlikeAfterReplay(cfg: Config, s: State, r: State, n: nat)
    requires Alike(cfg, s, r) && n < |s.table|
    ensures Alike(cfg, Replaying(cfg, s, n), Replaying(cfg, r, n))
  {
    var rec := s.table[n].rec;
    assert SameEntry(cfg, s.table[n], r.table[n]);
    ReadAlike(cfg, s.caches, r.caches, rec);
    if Unprivileged(cfg, rec) {
      ReplayAlike(cfg, s.caches, r.caches, rec);
    }
  }

  lemma AlikeAfterRegister(cfg: Config, s: State, r: State, caller: Caller, rec: Record, notify: bool)
    requires Alike(cfg, s, r)
    ensures Alike(cfg, DoRegister(cfg, s, caller, rec, notify), DoRegister(cfg, r, caller, rec, notify))
  {
    SameRecs(cfg, s.table, r.table);
    if Gate(caller, rec.mask) == Success && AcceptedSlot(cfg, caller, rec.slot) && Quiet(s) {
      var n := IndexOf(Recs(s.table), KeyOf(rec));
      var nextId := if n < |s.table| then s.nextId else s.nextId + 1;
      var s1 := s.(table := Pushed(s, rec), nextId := nextId, codes := s.codes + [Success]);
      var r1 := r.(table := Pushed(r, rec), nextId := nextId, codes := r.codes + [Success]);
      assert Alike(cfg, s1, r1);
      if notify {
        AlikeAfterReplay(cfg, s1, r1, n);
      }
    }
  }

  lemma TableAlikeWithout(cfg: Config, a: seq<Entry>, b: seq<Entry>, n: nat)
    requires SameTable(cfg, a, b) && n < |a|
    ensures SameTable(cfg, a[..n] + a[n + 1..], b[..n] + b[n + 1..])
  {
    var x, y := a[..n] + a[n + 1..], b[..n] + b[n + 1..];
    forall i | 0 <= i < |x|
      ensures SameEntry(cfg, x[i], y[i])
    {
      var before := if i < n then i else i + 1;
      assert x[i] == a[before] && y[i] == b[before];
    }
  }

  lemma AlikeAfterUnregister(cfg: Config, s: State, r: State, caller: Caller, key: Key)
    requires Alike(cfg, s, r)
    ensures Alike(cfg, DoUnregister(s, caller, key), DoUnregister(r, caller, key))
  {
    SameRecs(cfg, s.table, r.table);
    var n := IndexOf(Recs(s.table), key);
    if Gate(caller, key.mask) == Success && Quiet(s) && n < |s.table| {
      TableAlikeWithout(cfg, s.table, r.table, n);
      var t := s.(table := s.table[..n] + s.table[n + 1..], codes := s.codes + [Success]);
      assert DoUnregister(s, caller, key) == t;
    }
  }

  lemma {:induction false} NumberIndependence(cfg: Config, as1: seq<Action>, as2: seq<Action>)
    requires SameActions(as1, as2)
    ensures Alike(cfg, Run(cfg, as1), Run(cfg, as2))
  {
    if as1 != [] {
      var n := |as1| - 1;
      NumberIndependence(cfg, as1[..n], as2[..n]);
      var s, r := Run(cfg, as1[..n]), Run(cfg, as2[..n]);
      assert SameAction(as1[n], as2[n]);
      match as1[n] {
        case Write(caller, u) => AlikeAfterWrite(cfg, s, r, caller, u, as2[n].u);
        case Visit(t) => AlikeAfterVisit(cfg, s, r, t);
        case Register(caller, rec, notify) => AlikeAfterRegister(cfg, s, r, caller, rec, notify);
        case Unregister(caller, key) => AlikeAfterUnregister(cfg, s, r, caller, key);
        case _ => AlikeAfterOther(cfg, s, r, as1[n]);
      }
    }
  }

  lemma AlikeAfterOther(cfg: Config, s: State, r: State, a: Action)
    requires Alike(cfg, s, r) && (a.Begin? || a.Finish?)
    ensures Alike(cfg, Step(cfg, s, a), Step(cfg, r, a))
  {
  }

  /** What the two runs show: equal return codes, and equal callbacks, in the same places of the
      log, for every record that may not see numbers. */
  lemma NumbersStayPrivate(cfg: Config, s: State, r: State, j: nat)
    requires TwinRuns(cfg, s, r)
    ensures && s.codes == r.codes && |s.log| == |r.log|
            && (j < |s.log| ==> s.log[j].to == r.log[j].to)
            && (j < |s.log| && Unprivileged(cfg, s.log[j].to) ==> s.log[j] == r.log[j])
  {
    var as1, as2 :| SameActions(as1, as2) && s == Run(cfg, as1) && r == Run(cfg, as2);
    NumberIndependence(cfg, as1, as2);
    if j < |s.log| {
      assert SameEvent(cfg, s.log[j], r.log[j]);
    }
  }
}
