/** Fan-out is exact: which record receives what, in which order, and when an update succeeds. */
module FanOuts {
  import opened Kinds
  import opened Records
  import opened Updates
  import opened ReplayRuns

  predicate Receives(cfg: Config, u: Update, r: Record, cached: string) {
    CallbackFor(cfg, u, r, cached).Some?
  }

  lemma FanOutGrows(cfg: Config, u: Update, recs: seq<Record>, cached: string, i: nat, n: nat)
    requires i <= n <= |recs|
    ensures FanOutTo(cfg, u, recs, cached, i) <= FanOutTo(cfg, u, recs, cached, n)
    decreases n
  {
    if i < n {
      FanOutGrows(cfg, u, recs, cached, i, n - 1);
    }
  }

  /** A record that receives a callback receives it at its place: after the callbacks of the records
      before it and before those of the records after it. */
  lemma {:induction false} ReceivedInPlace(cfg: Config, u: Update, recs: seq<Record>, cached: string, i: nat)
    requires i < |recs| && Receives(cfg, u, recs[i], cached)
    ensures var at := |FanOutTo(cfg, u, recs, cached, i)|;
            var sent := FanOut(cfg, u, recs, cached);
            at < |sent| && sent[at] == Sent(recs[i], CallbackFor(cfg, u, recs[i], cached).value)
            && |FanOutTo(cfg, u, recs, cached, i + 1)| == at + 1
  {
    FanOutGrows(cfg, u, recs, cached, i + 1, |recs|);
    var next := FanOutTo(cfg, u, recs, cached, i + 1);
    assert next == FanOutTo(cfg, u, recs, cached, i) + [Sent(recs[i], CallbackFor(cfg, u, recs[i], cached).value)];
    assert FanOut(cfg, u, recs, cached)[|next| - 1] == next[|next| - 1];
  }

  /** Conversely, every callback sent has a record it was sent for, at that record's place. */
  lemma {:induction false} SentForARecord(cfg: Config, u: Update, recs: seq<Record>, cached: string, n: nat, j: nat)
      returns (i: nat)
    requires n <= |recs| && j < |FanOutTo(cfg, u, recs, cached, n)|
    ensures i < n && Receives(cfg, u, recs[i], cached) && |FanOutTo(cfg, u, recs, cached, i)| == j
  {
    if j < |FanOutTo(cfg, u, recs, cached, n - 1)| {
      i := SentForARecord(cfg, u, recs, cached, n - 1, j);
    } else {
      i := n - 1;
    }
  }

  /** An update answers Success exactly when some record receives a callback. */
  lemma SuccessIffReceived(cfg: Config, u: Update, recs: seq<Record>, cached: string)
    ensures CodeOf(FanOut(cfg, u, recs, cached)) == Success <==>
              exists i :: 0 <= i < |recs| && Receives(cfg, u, recs[i], cached)
  {
    if FanOut(cfg, u, recs, cached) != [] {
      var i := SentForARecord(cfg, u, recs, cached, |recs|, 0);
    }
    if i :| 0 <= i < |recs| && Receives(cfg, u, recs[i], cached) {
      ReceivedInPlace(cfg, u, recs, cached, i);
    }
  }

  /** No record of a well-kept table receives two callbacks of one update. */
  lemma OneCallbackEach(cfg: Config, u: Update, recs: seq<Record>, cached: string, a: nat, b: nat)
    requires NoDuplicates(recs) && a < b < |FanOut(cfg, u, recs, cached)|
    ensures FanOut(cfg, u, recs, cached)[a].to != FanOut(cfg, u, recs, cached)[b].to
  {
    var i := SentForARecord(cfg, u, recs, cached, |recs|, a);
    var j := SentForARecord(cfg, u, recs, cached, |recs|, b);
    ReceivedInPlace(cfg, u, recs, cached, i);
    ReceivedInPlace(cfg, u, recs, cached, j);
    if j < i {
      FanOutGrows(cfg, u, recs, cached, j, i);
    }
    assert i != j && KeyOf(recs[i]) != KeyOf(recs[j]);
  }

  function CallPriority(k: Kind): nat {
    match k
    case CallState => 3
    case CallStateEx => 2
    case CCallState => 1
    case _ => 0
  }

  predicate IsCallUpdate(u: Update) {
    u.SetCallState? || u.SetCallStateForSlot?
  }

  /** Of the call-family types in its mask a record receives only the one of highest priority, and
      nothing at all when that one is the restricted type and its token may not manage calls. */
  lemma CallFamilyPriority(cfg: Config, u: Update, r: Record, cached: string, k: Kind)
    requires IsCallUpdate(u) && r.observer.Some? && r.slot == u.Target()
    ensures (Receives(cfg, u, r, cached) && CallbackFor(cfg, u, r, cached).value.Kind() == k) <==>
              && CallPriority(k) > 0 && HasBit(r.mask, k)
              && (forall j :: CallPriority(j) > CallPriority(k) ==> !HasBit(r.mask, j))
              && (k == CCallState ==> CanManageCallForDevices(cfg, r))
  {
    assert CallPriority(CallState) > CallPriority(CallStateEx) > CallPriority(CCallState) > 0;
    assert forall j :: CallPriority(j) > 0 ==> j == CallState || j == CallStateEx || j == CCallState;
  }

  /** Fan-out and replay differ there. A stored record with both unrestricted call-state types gets
      both callbacks from one replay, but one only, the numbered one, from a call-state update. */
  lemma ReplayIgnoresPriority(cfg: Config, c: Caches, u: Update, recs: seq<Record>, cached: string, i: nat)
    requires i < |recs| && NoDuplicates(recs) && recs[i].observer.Some?
    requires HasBit(recs[i].mask, CallState) && HasBit(recs[i].mask, CallStateEx)
    requires IsCallUpdate(u) && u.Target() == recs[i].slot
    ensures Sent(recs[i], ReplayCallback(cfg, c, recs[i], CallState)) in Replayed(cfg, c, recs[i], [])
    ensures Sent(recs[i], ReplayCallback(cfg, c, recs[i], CallStateEx)) in Replayed(cfg, c, recs[i], [])
    ensures ReplayCallback(cfg, c, recs[i], CallState).OnCallState?
    ensures ReplayCallback(cfg, c, recs[i], CallStateEx).OnCallStateEx?
    ensures var out := FanOut(cfg, u, recs, cached);
            exists a :: OnlyCallTo(out, recs[i], a) && out[a].cb.OnCallState?
  {
    var r, sent := recs[i], FanOut(cfg, u, recs, cached);
    var x, y := Sent(r, ReplayCallback(cfg, c, r, CallState)), Sent(r, ReplayCallback(cfg, c, r, CallStateEx));
    assert IsReplayOf(cfg, c, r, CallState, x) && IsReplayOf(cfg, c, r, CallStateEx, y);
    ReplayMembers(cfg, c, r, x);
    ReplayMembers(cfg, c, r, y);
    CallFamilyPriority(cfg, u, r, cached, CallState);
    ReceivedInPlace(cfg, u, recs, cached, i);
    var a := |FanOutTo(cfg, u, recs, cached, i)|;
    forall b | 0 <= b < |sent| && sent[b].to == r
      ensures b == a
    {
      if b < a {
        OneCallbackEach(cfg, u, recs, cached, b, a);
      } else if a < b {
        OneCallbackEach(cfg, u, recs, cached, a, b);
      }
    }
    assert OnlyCallTo(sent, r, a);
  }

  /** The call at place a is the only one to the record. */
  predicate OnlyCallTo(sent: seq<Sent>, r: Record, a: int) {
    0 <= a < |sent| && sent[a].to == r && forall b :: 0 <= b < |sent| && sent[b].to == r ==> b == a
  }
}
