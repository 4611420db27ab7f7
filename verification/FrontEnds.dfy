/** The NAPI, Cangjie and ANI front ends driven by one sequence of commands. */
module FrontEnds {
  import opened Kinds
  import opened Records
  import opened Listeners
  import opened Subscriptions
  import opened CangjieListeners
  import opened AniListeners
  import Napi = NapiListeners

  datatype Command = On(sub: Sub) | Off(kind: Kind, fn: Option<int>)

  /** The event types and slots a front end takes an `on` for: in NAPI and Cangjie the event map and
      the checks of `On` and `NativeOn`, in ANI the callbacks and the check of `Register::register`. */
  predicate NapiTakes(simSlotCount: int, kind: Kind, slot: int) {
    (simSlotCount != 0 || Napi.IsCallKind(kind)) && Napi.IsValidSlotIdEx(simSlotCount, kind, slot)
  }

  predicate CjTakesOn(simSlotCount: int, kind: Kind, slot: int) {
    && simSlotCount != 0 && CangjieListeners.HasEventType(kind)
    && CangjieListeners.IsValidSlotIdEx(simSlotCount, kind, slot)
  }

  predicate AniTakes(simSlotCount: int, kind: Kind, slot: int) {
    AniListeners.HasEventType(kind) && AniListeners.IsValidSlotIdEx(simSlotCount, kind, slot)
  }

  /** Each run gives the listener table and the calls made to the service, when the service accepts
      every call. The k-th command creates reference k and flag k. A command for an event type the
      front end does not have changes nothing. */
  ghost function NapiRun(simSlotCount: int, env: nat, cs: seq<Command>): (seq<Listener>, seq<Request>) {
    if cs == [] then ([], [])
    else
      var s := NapiRun(simSlotCount, env, cs[..|cs| - 1]);
      match cs[|cs| - 1]
      case On(sub) =>
        if !NapiTakes(simSlotCount, sub.kind, sub.slot) then s
        else
          var r := Napi.Registered(s.0, Listener(env, sub.kind, sub.slot, Ref(|cs|, sub.fn), |cs|), Success);
          (r.0, s.1 + r.1)
      case Off(kind, fn) =>
        var sel := Selection(env, {kind}, fn);
        (Kept(s.0, sel), s.1 + Removes(RemovalRequests(s.0, sel)))
  }

  ghost function CjRun(simSlotCount: int, cs: seq<Command>): (seq<CjListener>, seq<Request>) {
    if cs == [] then ([], [])
    else
      var s := CjRun(simSlotCount, cs[..|cs| - 1]);
      match cs[|cs| - 1]
      case On(sub) =>
        if !CjTakesOn(simSlotCount, sub.kind, sub.slot) then s
        else
          var r := CjRegistered(s.0, CjListener(sub.kind, sub.slot, sub.fn, |cs|), Success);
          (r.0, s.1 + r.1)
      case Off(kind, fn) =>
        if !CangjieListeners.HasEventType(kind) then s
        else
          var funcId := if fn.Some? then fn.value else -1;
          (CjKept(s.0, kind, funcId), s.1 + Removes(CjUnused(s.0, kind, funcId)))
  }

  ghost function AniRun(simSlotCount: int, cs: seq<Command>): (seq<Sub>, seq<Request>) {
    if cs == [] then ([], [])
    else
      var s := AniRun(simSlotCount, cs[..|cs| - 1]);
      match cs[|cs| - 1]
      case On(sub) =>
        if !AniListeners.HasEventType(sub.kind) then s
        else
          var r := AniRegistered(s.0, sub, simSlotCount, Success);
          (r.0, s.1 + r.1)
      case Off(kind, fn) =>
        if !AniListeners.HasEventType(kind) then s
        else (Retained(s.0, kind, fn), s.1 + Removes(Attempted(Unused(s.0, kind, fn), p => Success)))
  }

  /** The eight event types the three front ends have in common. */
  predicate CommonType(kind: Kind) {
    CangjieListeners.HasEventType(kind) && AniListeners.HasEventType(kind)
  }

  predicate ValidInAll(simSlotCount: int, kind: Kind, slot: int) {
    NapiTakes(simSlotCount, kind, slot) && CjTakesOn(simSlotCount, kind, slot) && AniTakes(simSlotCount, kind, slot)
  }

  /** Commands all three front ends understand alike: every `on` is one all three take, every `off`
      names a common event type, and no command callback -1. */
  predicate Shared(simSlotCount: int, cs: seq<Command>) {
    forall i :: 0 <= i < |cs| ==>
      match cs[i]
      case On(sub) => ValidInAll(simSlotCount, sub.kind, sub.slot) && sub.fn != -1
      case Off(kind, fn) => CommonType(kind) && fn != Some(-1)
  }

  function NapiSub(l: Listener): Sub {
    Sub(l.slot, l.kind, l.ref.fn)
  }

  function NapiSubs(list: seq<Listener>): seq<Sub> {
    if list == [] then [] else NapiSubs(list[..|list| - 1]) + [NapiSub(list[|list| - 1])]
  }

  lemma {:induction false} NapiSubsMembers(list: seq<Listener>, s: Sub)
    ensures s in NapiSubs(list) <==> exists l :: l in list && NapiSub(l) == s
  {
    if list != [] {
      NapiSubsMembers(list[..|list| - 1], s);
    }
  }

  predicate OneEnv(list: seq<Listener>, env: nat) {
    forall l :: l in list ==> l.env == env
  }

  /** A call without its notify flag. */
  function WithoutNotify(r: Request): Request {
    match r
    case Add(p, _) => Add(p, false)
    case Remove(p) => Remove(p)
  }

  function Calls(rs: seq<Request>): (cs: seq<Request>)
    ensures |cs| == |rs| && forall i :: 0 <= i < |rs| ==> cs[i] == WithoutNotify(rs[i])
  {
    seq(|rs|, i requires 0 <= i < |rs| => WithoutNotify(rs[i]))
  }

  lemma CallsConcat(a: seq<Request>, b: seq<Request>)
    ensures Calls(a + b) == Calls(a) + Calls(b)
  {
  }

  // ---------------------------------------------------------------- NAPI and ANI

  lemma {:induction false} NapiPairsAre(list: seq<Listener>)
    ensures PairsOf(list) == SubPairs(NapiSubs(list))
  {
    if list != [] {
      var front, l := list[..|list| - 1], list[|list| - 1];
      NapiPairsAre(front);
      Napi.OneMore(front, l);
      assert list == front + [l];
      RetainedSnoc(NapiSubs(front), NapiSub(l), l.kind, None);
    }
  }

  lemma NapiSnoc(list: seq<Listener>, l: Listener)
    ensures NapiSubs(list + [l]) == NapiSubs(list) + [NapiSub(l)]
  {
    assert (list + [l])[..|list|] == list;
  }

  lemma {:induction false} NapiKeptIs(list: seq<Listener>, env: nat, kind: Kind, fn: Option<int>)
    requires OneEnv(list, env)
    ensures NapiSubs(Kept(list, Selection(env, {kind}, fn))) == Retained(NapiSubs(list), kind, fn)
    ensures NapiSubs(Removed(list, Selection(env, {kind}, fn))) == Taken(NapiSubs(list), kind, fn)
  {
    var sel := Selection(env, {kind}, fn);
    if list != [] {
      var front, l := list[..|list| - 1], list[|list| - 1];
      assert l in list;
      NapiKeptIs(front, env, kind, fn);
      RetainedSnoc(NapiSubs(front), NapiSub(l), kind, fn);
      NapiSnoc(Kept(front, sel), l);
      NapiSnoc(Removed(front, sel), l);
      KeptSnoc(front, l, sel);
      assert Matches(sel, l) <==> Covers(kind, fn, NapiSub(l));
    }
  }

  lemma OneEnvKept(list: seq<Listener>, env: nat, sel: Selection)
    requires OneEnv(list, env)
    ensures OneEnv(Kept(list, sel), env)
  {
    forall l | l in Kept(list, sel)
      ensures l.env == env
    {
      KeptMembers(list, sel, l);
    }
  }

  /** One NAPI removal does to the subscriptions what one ANI removal does, with the same calls. */
  lemma OffAgrees(list: seq<Listener>, env: nat, kind: Kind, fn: Option<int>)
    requires OneEnv(list, env)
    ensures NapiSubs(Kept(list, Selection(env, {kind}, fn))) == Retained(NapiSubs(list), kind, fn)
    ensures RemovalRequests(list, Selection(env, {kind}, fn)) == Unused(NapiSubs(list), kind, fn)
  {
    var sel := Selection(env, {kind}, fn);
    NapiKeptIs(list, env, kind, fn);
    NapiPairsAre(Kept(list, sel));
    NapiPairsAre(Removed(list, sel));
  }

  lemma NothingFails(ps: seq<Pair>)
    ensures Attempted(ps, p => Success) == ps
  {
    FailureAtIs(ps, p => Success, |ps|);
  }

  lemma OnAgrees(list: seq<Listener>, env: nat, sub: Sub, id: nat, simSlotCount: int)
    requires OneEnv(list, env) && ValidInAll(simSlotCount, sub.kind, sub.slot)
    ensures var n := Napi.Registered(list, Listener(env, sub.kind, sub.slot, Ref(id, sub.fn), id), Success);
            var a := AniRegistered(NapiSubs(list), sub, simSlotCount, Success);
            OneEnv(n.0, env) && NapiSubs(n.0) == a.0 && Calls(n.1) == Calls(a.1)
  {
    var l := Listener(env, sub.kind, sub.slot, Ref(id, sub.fn), id);
    NapiPairsAre(list);
    NapiSubsMembers(list, sub);
    NapiSnoc(list, l);
    assert forall m :: m in list ==> (Napi.IsSame(m, l) <==> NapiSub(m) == sub);
  }

  lemma {:induction false} NapiAndAniAgree(simSlotCount: int, env: nat, cs: seq<Command>)
    requires Shared(simSlotCount, cs)
    ensures OneEnv(NapiRun(simSlotCount, env, cs).0, env)
    ensures NapiSubs(NapiRun(simSlotCount, env, cs).0) == AniRun(simSlotCount, cs).0
    ensures Calls(NapiRun(simSlotCount, env, cs).1) == Calls(AniRun(simSlotCount, cs).1)
  {
    if cs != [] {
      var front, c := cs[..|cs| - 1], cs[|cs| - 1];
      NapiAndAniAgree(simSlotCount, env, front);
      var n, a := NapiRun(simSlotCount, env, front), AniRun(simSlotCount, front);
      match c {
        case On(sub) =>
          OnAgrees(n.0, env, sub, |cs|, simSlotCount);
          var r := Napi.Registered(n.0, Listener(env, sub.kind, sub.slot, Ref(|cs|, sub.fn), |cs|), Success);
          CallsConcat(n.1, r.1);
          CallsConcat(a.1, AniRegistered(a.0, sub, simSlotCount, Success).1);
        case Off(kind, fn) =>
          OffAgrees(n.0, env, kind, fn);
          OneEnvKept(n.0, env, Selection(env, {kind}, fn));
          NothingFails(Unused(a.0, kind, fn));
          CallsConcat(n.1, Removes(Unused(a.0, kind, fn)));
          CallsConcat(a.1, Removes(Unused(a.0, kind, fn)));
      }
    }
  }

  // ---------------------------------------------------------------- Cangjie and ANI

  lemma CjOnAgrees(list: seq<CjListener>, sub: Sub, id: nat, simSlotCount: int)
    requires ValidInAll(simSlotCount, sub.kind, sub.slot)
    ensures var c := CjRegistered(list, CjListener(sub.kind, sub.slot, sub.fn, id), Success);
            var a := AniRegistered(Subs(list), sub, simSlotCount, Success);
            Subs(c.0) == a.0 && Calls(c.1) == Calls(a.1)
  {
    var l := CjListener(sub.kind, sub.slot, sub.fn, id);
    CjPairsAre(list);
    SubsMembers(list, sub);
    CjOneMore(list, l);
    assert forall m :: m in list ==> (CjSame(m, l) <==> SubOf(m) == sub);
  }

  lemma {:induction false} CjAndAniAgree(simSlotCount: int, cs: seq<Command>)
    requires Shared(simSlotCount, cs)
    ensures Subs(CjRun(simSlotCount, cs).0) == AniRun(simSlotCount, cs).0
    ensures Calls(CjRun(simSlotCount, cs).1) == Calls(AniRun(simSlotCount, cs).1)
  {
    if cs != [] {
      var front, c := cs[..|cs| - 1], cs[|cs| - 1];
      CjAndAniAgree(simSlotCount, front);
      var j, a := CjRun(simSlotCount, front), AniRun(simSlotCount, front);
      match c {
        case On(sub) =>
          CjOnAgrees(j.0, sub, |cs|, simSlotCount);
          CallsConcat(j.1, CjRegistered(j.0, CjListener(sub.kind, sub.slot, sub.fn, |cs|), Success).1);
          CallsConcat(a.1, AniRegistered(a.0, sub, simSlotCount, Success).1);
        case Off(kind, fn) =>
          var funcId := if fn.Some? then fn.value else -1;
          CjKeptIs(j.0, kind, funcId);
          CjUnusedIs(j.0, kind, funcId);
          NothingFails(Unused(a.0, kind, fn));
          CallsConcat(j.1, Removes(Unused(a.0, kind, fn)));
          CallsConcat(a.1, Removes(Unused(a.0, kind, fn)));
      }
    }
  }

  /** The three front ends agree: after any shared sequence of `on` and `off` they hold the same
      subscriptions in the same order and have made the same calls in the same order. */
  lemma FrontEndsAgree(simSlotCount: int, env: nat, cs: seq<Command>)
    requires Shared(simSlotCount, cs)
    ensures NapiSubs(NapiRun(simSlotCount, env, cs).0) == Subs(CjRun(simSlotCount, cs).0) == AniRun(simSlotCount, cs).0
    ensures Calls(NapiRun(simSlotCount, env, cs).1)
            == Calls(CjRun(simSlotCount, cs).1)
            == Calls(AniRun(simSlotCount, cs).1)
  {
    NapiAndAniAgree(simSlotCount, env, cs);
    CjAndAniAgree(simSlotCount, cs);
  }

  // ---------------------------------------------------------------- dispatch

  /** The callbacks of NAPI work items, in order. */
  function Fns(ws: seq<Napi.Work>): (ids: seq<int>)
    ensures |ids| == |ws| && forall i :: 0 <= i < |ids| ==> ids[i] == ws[i].to.ref.fn
  {
    seq(|ws|, i requires 0 <= i < |ws| => ws[i].to.ref.fn)
  }

  lemma {:induction false} NapiHears(list: seq<Listener>, e: Napi.Event, defaultSlot: int)
    requires forall l :: l in list ==> l.slot != ALL_SLOTS
    ensures Fns(Napi.WorkFor(list, e, defaultSlot)) == Heard(NapiSubs(list), e.kind, e.slot)
  {
    if list != [] {
      var front, l := list[..|list| - 1], list[|list| - 1];
      assert l in list && list == front + [l];
      NapiHears(front, e, defaultSlot);
      NapiSnoc(front, l);
      HeardSnoc(NapiSubs(front), NapiSub(l), e.kind, e.slot);
      Napi.WorkForSnoc(front, l, e, defaultSlot);
      var before := Napi.WorkFor(front, e, defaultSlot);
      assert Fns(before + [Napi.Work(l, e)]) == Fns(before) + [l.ref.fn];
    }
  }

  /** After any shared run an arriving update is handed to the same callbacks, in the same order, by
      all three front ends: NAPI's 999 rule has nothing to act on. */
  lemma FrontEndsDispatchAlike(simSlotCount: int, env: nat, cs: seq<Command>, e: Napi.Event, defaultSlot: int)
    requires Shared(simSlotCount, cs) && simSlotCount < ALL_SLOTS
    ensures Fns(Napi.WorkFor(NapiRun(simSlotCount, env, cs).0, e, defaultSlot))
            == Heard(Subs(CjRun(simSlotCount, cs).0), e.kind, e.slot)
            == Heard(AniRun(simSlotCount, cs).0, e.kind, e.slot)
  {
    FrontEndsAgree(simSlotCount, env, cs);
    var list := NapiRun(simSlotCount, env, cs).0;
    forall l | l in list
      ensures l.slot != ALL_SLOTS
    {
      NapiSubsMembers(list, NapiSub(l));
      AniHolds(simSlotCount, cs, NapiSub(l));
    }
    NapiHears(list, e, defaultSlot);
  }

  // ---------------------------------------------------------------- where they differ

  /** The event types Cangjie takes and ANI lacks. */
  predicate OnlyCangjie(kind: Kind) {
    kind == CfuIndicator || kind == VoiceMail
  }

  /** The event types ANI takes and Cangjie lacks. */
  predicate OnlyAni(kind: Kind) {
    kind == CallStateEx || kind == CCallState || kind == SimActive
  }

  /** NAPI takes the slots up to the one above the last, the pseudo slot 999, and -1 for a call type.
      Neither of Cangjie and ANI takes all the other takes: Cangjie alone has call forwarding and
      voice mail, ANI alone the restricted call types and SIM activity, and ANI alone works on a
      product without SIM slots. NAPI takes all that Cangjie takes; it takes more than ANI exactly
      for the VoIP type, the two Cangjie types and the pseudo slot 999, and less exactly for the SIM
      event types on a product without SIM slots. */
  lemma TakersDiffer(simSlotCount: int, kind: Kind, slot: int)
    ensures NapiTakes(simSlotCount, kind, slot) <==>
              var call := kind in {CallState, CallStateEx, CCallState, VoIPCall};
              (simSlotCount != 0 || call)
              && (slot == 999 || 0 <= slot <= simSlotCount || (call && slot == -1 <= simSlotCount))
    ensures CjTakesOn(simSlotCount, kind, slot) ==> NapiTakes(simSlotCount, kind, slot)
    ensures ValidInAll(simSlotCount, kind, slot) <==> CjTakesOn(simSlotCount, kind, slot) && !OnlyCangjie(kind)
    ensures CjTakesOn(simSlotCount, kind, slot) && !AniTakes(simSlotCount, kind, slot) <==>
              simSlotCount != 0 && OnlyCangjie(kind) && 0 <= slot <= simSlotCount
    ensures AniTakes(simSlotCount, kind, slot) && !CjTakesOn(simSlotCount, kind, slot) <==>
              AniTakes(simSlotCount, kind, slot) && (OnlyAni(kind) || simSlotCount == 0)
    ensures NapiTakes(simSlotCount, kind, slot) && !AniTakes(simSlotCount, kind, slot) <==>
              && NapiTakes(simSlotCount, kind, slot)
              && (kind == VoIPCall || OnlyCangjie(kind) || (slot == ALL_SLOTS && simSlotCount < ALL_SLOTS))
    ensures AniTakes(simSlotCount, kind, slot) && !NapiTakes(simSlotCount, kind, slot) <==>
              AniTakes(simSlotCount, kind, slot) && simSlotCount == 0 && !Napi.IsCallKind(kind)
  {
  }

  /** What the exported functions let a program ask for. Cangjie exports seven of its ten event types;
      in both languages the account `on` names slot 0, and in ANI the `on` of the restricted call
      types names slot -1. */
  predicate CjExports(simSlotCount: int, kind: Kind, slot: int) {
    && CjTakesOn(simSlotCount, kind, slot) && kind != CellInfo && !OnlyCangjie(kind)
    && (kind == IccAccount ==> slot == 0)
  }

  predicate AniExports(simSlotCount: int, kind: Kind, slot: int) {
    && AniTakes(simSlotCount, kind, slot)
    && (kind == IccAccount ==> slot == 0)
    && (kind == CallStateEx || kind == CCallState ==> slot == -1)
  }

  /** Seen through their exported functions the front ends are nested on a product with SIM slots:
      ANI offers all that Cangjie offers, and NAPI all that ANI offers. */
  lemma ExportsNested(simSlotCount: int, kind: Kind, slot: int)
    requires simSlotCount != 0
    ensures CjExports(simSlotCount, kind, slot) <==>
              AniExports(simSlotCount, kind, slot) && !OnlyAni(kind) && kind != CellInfo
    ensures AniExports(simSlotCount, kind, slot) <==>
              && NapiTakes(simSlotCount, kind, slot) && kind != VoIPCall && !OnlyCangjie(kind)
              && (slot == ALL_SLOTS ==> ALL_SLOTS <= simSlotCount)
              && (kind == IccAccount ==> slot == 0)
              && (kind == CallStateEx || kind == CCallState ==> slot == -1)
    ensures CjExports(simSlotCount, kind, slot) ==> ValidInAll(simSlotCount, kind, slot)
  {
  }

  /** Whether a command ends a subscription; `wildcard` says whether callback -1 stands for all. */
  predicate Ends(c: Command, s: Sub, wildcard: bool) {
    c.Off? && Covers(c.kind, if wildcard && c.fn == Some(-1) then None else c.fn, s)
  }

  /** Some command asked for the subscription and no later one ended it. */
  predicate Standing(cs: seq<Command>, s: Sub, wildcard: bool) {
    exists i :: 0 <= i < |cs| && cs[i] == On(s) && forall j :: i < j < |cs| ==> !Ends(cs[j], s, wildcard)
  }

  lemma StandingSnoc(cs: seq<Command>, s: Sub, wildcard: bool)
    requires cs != []
    ensures Standing(cs, s, wildcard) <==>
              || cs[|cs| - 1] == On(s)
              || (Standing(cs[..|cs| - 1], s, wildcard) && !Ends(cs[|cs| - 1], s, wildcard))
  {
    var front := cs[..|cs| - 1];
    if Standing(front, s, wildcard) && !Ends(cs[|cs| - 1], s, wildcard) {
      var i :| 0 <= i < |front| && front[i] == On(s) && forall j :: i < j < |front| ==> !Ends(front[j], s, wildcard);
      assert cs[i] == On(s);
      forall j | i < j < |cs|
        ensures !Ends(cs[j], s, wildcard)
      {
        assert j < |front| ==> front[j] == cs[j];
      }
    }
    if Standing(cs, s, wildcard) && cs[|cs| - 1] != On(s) {
      var i :| 0 <= i < |cs| && cs[i] == On(s) && forall j :: i < j < |cs| ==> !Ends(cs[j], s, wildcard);
      assert front[i] == On(s);
    }
  }

  /** After any sequence of commands each front end holds exactly the subscriptions that it takes and
      that stand. */
  lemma HeldIffStanding(simSlotCount: int, env: nat, cs: seq<Command>, s: Sub)
    ensures s in NapiSubs(NapiRun(simSlotCount, env, cs).0) <==>
              NapiTakes(simSlotCount, s.kind, s.slot) && Standing(cs, s, false)
    ensures s in AniRun(simSlotCount, cs).0 <==> AniTakes(simSlotCount, s.kind, s.slot) && Standing(cs, s, false)
    ensures s in Subs(CjRun(simSlotCount, cs).0) <==>
              CjTakesOn(simSlotCount, s.kind, s.slot) && Standing(cs, s, true)
  {
    NapiHolds(simSlotCount, env, cs, s);
    AniHolds(simSlotCount, cs, s);
    CjHolds(simSlotCount, cs, s);
  }

  lemma {:induction false} NapiHolds(simSlotCount: int, env: nat, cs: seq<Command>, s: Sub)
    ensures OneEnv(NapiRun(simSlotCount, env, cs).0, env)
    ensures s in NapiSubs(NapiRun(simSlotCount, env, cs).0) <==>
              NapiTakes(simSlotCount, s.kind, s.slot) && Standing(cs, s, false)
  {
    if cs != [] {
      var front, c := cs[..|cs| - 1], cs[|cs| - 1];
      NapiHolds(simSlotCount, env, front, s);
      StandingSnoc(cs, s, false);
      var list := NapiRun(simSlotCount, env, front).0;
      if c.On? {
        NapiOnHolds(list, env, c.sub, |cs|, s);
      } else {
        NapiKeptIs(list, env, c.kind, c.fn);
        OneEnvKept(list, env, Selection(env, {c.kind}, c.fn));
        RetainedMembers(NapiSubs(list), c.kind, c.fn, s);
      }
    }
  }

  lemma NapiOnHolds(list: seq<Listener>, env: nat, sub: Sub, id: nat, s: Sub)
    requires OneEnv(list, env)
    ensures var r := Napi.Registered(list, Listener(env, sub.kind, sub.slot, Ref(id, sub.fn), id), Success);
            OneEnv(r.0, env) && (s in NapiSubs(r.0) <==> s in NapiSubs(list) || s == sub)
  {
    var l := Listener(env, sub.kind, sub.slot, Ref(id, sub.fn), id);
    NapiSubsMembers(list, sub);
    NapiSnoc(list, l);
    assert forall m :: m in list ==> (Napi.IsSame(m, l) <==> NapiSub(m) == sub);
  }

  lemma {:induction false} AniHolds(simSlotCount: int, cs: seq<Command>, s: Sub)
    ensures s in AniRun(simSlotCount, cs).0 <==> AniTakes(simSlotCount, s.kind, s.slot) && Standing(cs, s, false)
  {
    if cs != [] {
      var front, c := cs[..|cs| - 1], cs[|cs| - 1];
      AniHolds(simSlotCount, front, s);
      StandingSnoc(cs, s, false);
      if c.Off? {
        RetainedMembers(AniRun(simSlotCount, front).0, c.kind, c.fn, s);
      }
    }
  }

  lemma {:induction false} CjHolds(simSlotCount: int, cs: seq<Command>, s: Sub)
    ensures s in Subs(CjRun(simSlotCount, cs).0) <==>
              CjTakesOn(simSlotCount, s.kind, s.slot) && Standing(cs, s, true)
  {
    if cs != [] {
      var front, c := cs[..|cs| - 1], cs[|cs| - 1];
      CjHolds(simSlotCount, front, s);
      StandingSnoc(cs, s, true);
      var list := CjRun(simSlotCount, front).0;
      if c.On? {
        CjOnHolds(list, c.sub, |cs|, s);
      } else {
        var funcId := if c.fn.Some? then c.fn.value else -1;
        CjKeptIs(list, c.kind, funcId);
        RetainedMembers(Subs(list), c.kind, Wildcard(funcId), s);
      }
    }
  }

  lemma CjOnHolds(list: seq<CjListener>, sub: Sub, id: nat, s: Sub)
    ensures var r := CjRegistered(list, CjListener(sub.kind, sub.slot, sub.fn, id), Success);
            s in Subs(r.0) <==> s in Subs(list) || s == sub
  {
    var l := CjListener(sub.kind, sub.slot, sub.fn, id);
    SubsMembers(list, sub);
    CjOneMore(list, l);
    assert forall m :: m in list ==> (CjSame(m, l) <==> SubOf(m) == sub);
  }

  /** Which of NAPI, Cangjie and ANI take an `on`. */
  function Takers(simSlotCount: int, kind: Kind, slot: int): (bool, bool, bool) {
    (NapiTakes(simSlotCount, kind, slot), CjTakesOn(simSlotCount, kind, slot), AniTakes(simSlotCount, kind, slot))
  }

  lemma NapiAlone(simSlotCount: int, env: nat, sub: Sub)
    ensures NapiSubs(NapiRun(simSlotCount, env, [On(sub)]).0)
            == if NapiTakes(simSlotCount, sub.kind, sub.slot) then [sub] else []
  {
    var l := Listener(env, sub.kind, sub.slot, Ref(1, sub.fn), 1);
    var none: seq<Command> := [];
    assert [On(sub)][..0] == none && NapiRun(simSlotCount, env, none).0 == [];
    NapiSnoc([], l);
    assert [] + [l] == [l];
  }

  lemma CjAlone(simSlotCount: int, sub: Sub)
    ensures Subs(CjRun(simSlotCount, [On(sub)]).0) == if CjTakesOn(simSlotCount, sub.kind, sub.slot) then [sub] else []
  {
    var l := CjListener(sub.kind, sub.slot, sub.fn, 1);
    var none: seq<Command> := [];
    assert [On(sub)][..0] == none && CjRun(simSlotCount, none).0 == [];
    CjOneMore([], l);
    assert [] + [l] == [l];
  }

  lemma AniAlone(simSlotCount: int, sub: Sub)
    ensures AniRun(simSlotCount, [On(sub)]).0 == if AniTakes(simSlotCount, sub.kind, sub.slot) then [sub] else []
  {
    var none: seq<Command> := [];
    assert [On(sub)][..0] == none && AniRun(simSlotCount, none).0 == [];
  }

  /** One `on` alone is held by exactly the front ends that take it: a type Cangjie lacks by NAPI and
      ANI, a type ANI lacks by NAPI and Cangjie, and the VoIP type by NAPI alone. */
  lemma MissingTypeDiffers(simSlotCount: int, env: nat, sub: Sub)
    ensures var cs, t := [On(sub)], Takers(simSlotCount, sub.kind, sub.slot);
            && NapiSubs(NapiRun(simSlotCount, env, cs).0) == (if t.0 then [sub] else [])
            && Subs(CjRun(simSlotCount, cs).0) == (if t.1 then [sub] else [])
            && AniRun(simSlotCount, cs).0 == (if t.2 then [sub] else [])
    ensures simSlotCount > 0 && OnlyAni(sub.kind) && AniTakes(simSlotCount, sub.kind, sub.slot) ==>
              Takers(simSlotCount, sub.kind, sub.slot) == (true, false, true)
    ensures simSlotCount > 0 && OnlyCangjie(sub.kind) && CjTakesOn(simSlotCount, sub.kind, sub.slot) ==>
              Takers(simSlotCount, sub.kind, sub.slot) == (true, true, false)
    ensures sub.kind == VoIPCall && NapiTakes(simSlotCount, sub.kind, sub.slot) ==>
              Takers(simSlotCount, sub.kind, sub.slot) == (true, false, false)
  {
    NapiAlone(simSlotCount, env, sub);
    CjAlone(simSlotCount, sub);
    AniAlone(simSlotCount, sub);
  }

  /** What an `on` the front ends take answers and leaves behind, when the service answers `ipc`: the
      first listener of a pair is stored exactly when the service accepts it, a further one without a
      call, and a duplicate not at all, which NAPI and Cangjie report and ANI does not. */
  lemma OnAnswers(simSlotCount: int, env: nat, sub: Sub, napi: seq<Listener>, cj: seq<CjListener>, ani: seq<Sub>,
                  id: nat, ipc: Code)
    requires ValidInAll(simSlotCount, sub.kind, sub.slot) && OneEnv(napi, env)
    requires NapiSubs(napi) == Subs(cj) == ani
    ensures var n := Napi.Registered(napi, Listener(env, sub.kind, sub.slot, Ref(id, sub.fn), id), ipc);
            var c := CjRegistered(cj, CjListener(sub.kind, sub.slot, sub.fn, id), ipc);
            var a := AniRegistered(ani, sub, simSlotCount, ipc);
            var first := forall s :: s in ani ==> SubPair(s) != SubPair(sub);
            && NapiSubs(n.0) == Subs(c.0) == a.0
            && a.0 == (if sub in ani || (first && ipc != Success) then ani else ani + [sub])
            && |n.1| == |c.1| == |a.1| == (if first then 1 else 0)
            && a.2 == (if first then ipc else Success)
            && n.2 == c.2 == (if sub in ani then AlreadyRegistered else a.2)
  {
    var l, m := Listener(env, sub.kind, sub.slot, Ref(id, sub.fn), id), CjListener(sub.kind, sub.slot, sub.fn, id);
    OnAgrees(napi, env, sub, id, simSlotCount);
    CjOnAgrees(cj, sub, id, simSlotCount);
    NapiPairsAre(napi);
    CjPairsAre(cj);
    NapiSubsMembers(napi, sub);
    SubsMembers(cj, sub);
    NapiSnoc(napi, l);
    CjOneMore(cj, m);
    assert forall x :: x in napi ==> (Napi.IsSame(x, l) <==> NapiSub(x) == sub);
    assert forall x :: x in cj ==> (CjSame(x, m) <==> SubOf(x) == sub);
    assert SubPair(sub) in SubPairs(ani) <==> exists s :: s in ani && SubPair(s) == SubPair(sub);
  }

  /** Callback id -1 is a wildcard only in the Cangjie table: there an `off` for it takes every
      listener of the event type, elsewhere only those registered with that id. */
  lemma WildcardDiffers(list: seq<CjListener>, kind: Kind)
    ensures Subs(CjKept(list, kind, -1)) == Retained(Subs(list), kind, None)
    ensures Subs(CjKept(list, kind, -1)) == Retained(Subs(list), kind, Some(-1)) <==>
              forall l :: l in list && l.kind == kind ==> l.funcId == -1
  {
    CjKeptIs(list, kind, -1);
    if forall l :: l in list && l.kind == kind ==> l.funcId == -1 {
      forall s | s in Subs(list) && s.kind == kind
        ensures s.fn == -1
      {
        SubsMembers(list, s);
      }
      SameRetained(Subs(list), kind);
    } else {
      var l :| l in list && l.kind == kind && l.funcId != -1;
      SubsMembers(list, SubOf(l));
      RetainedMembers(Subs(list), kind, None, SubOf(l));
      RetainedMembers(Subs(list), kind, Some(-1), SubOf(l));
    }
  }

  lemma {:induction false} RetainedMembers(subs: seq<Sub>, kind: Kind, fn: Option<int>, s: Sub)
    ensures s in Retained(subs, kind, fn) <==> s in subs && !Covers(kind, fn, s)
  {
    if subs != [] {
      RetainedMembers(subs[..|subs| - 1], kind, fn, s);
    }
  }

  lemma {:induction false} SameRetained(subs: seq<Sub>, kind: Kind)
    requires forall s :: s in subs && s.kind == kind ==> s.fn == -1
    ensures Retained(subs, kind, None) == Retained(subs, kind, Some(-1))
  {
    if subs != [] {
      SameRetained(subs[..|subs| - 1], kind);
    }
  }

  /** The first failing pair is at i and the last one at j. */
  predicate FailuresSpan(ps: seq<Pair>, ret: Pair -> Code, i: int, j: int) {
    && 0 <= i <= j < |ps| && ret(ps[i]) != Success && ret(ps[j]) != Success
    && forall k :: 0 <= k < |ps| && (k < i || k > j) ==> ret(ps[k]) == Success
  }

  /** The two codes belong to the first and to the last failing pair. */
  ghost predicate SpanOfFailures(ps: seq<Pair>, ret: Pair -> Code) {
    exists i, j ::
      FailuresSpan(ps, ret, i, j) && FirstFailure(ps, ret) == ret(ps[i]) && LastFailure(ps, ret) == ret(ps[j])
  }

  /** NAPI and Cangjie call the service for every pair and return the last failing code; ANI calls
      it up to the first failure and returns that one. The calls are the same exactly when no pair
      but the last one fails, and the two codes tell success apart alike. */
  lemma {:induction false} RemovalsUnderFailure(ps: seq<Pair>, ret: Pair -> Code)
    ensures Attempted(ps, ret) <= ps
    ensures Attempted(ps, ret) == ps <==> forall i :: 0 <= i < |ps| - 1 ==> ret(ps[i]) == Success
    ensures LastFailure(ps, ret) == Success <==> AllAccepted(ps, ret)
    ensures FirstFailure(ps, ret) == Success <==> AllAccepted(ps, ret)
    ensures AllAccepted(ps, ret) || SpanOfFailures(ps, ret)
  {
    var i := FailureAt(ps, ret);
    var j := LastFailureIs(ps, ret);
    if i == |ps| {
      assert j == -1;
      forall p | p in ps
        ensures ret(p) == Success
      {
        var k :| 0 <= k < |ps| && ps[k] == p;
      }
    } else {
      assert ps[i] in ps && FailuresSpan(ps, ret, i, j);
    }
  }

  lemma {:induction false} LastFailureIs(ps: seq<Pair>, ret: Pair -> Code) returns (j: int)
    ensures -1 <= j < |ps|
    ensures LastFailure(ps, ret) == if j == -1 then Success else ret(ps[j])
    ensures j >= 0 ==> ret(ps[j]) != Success
    ensures forall k :: j < k < |ps| ==> ret(ps[k]) == Success
  {
    j := |ps| - 1;
    if ps != [] && ret(ps[j]) == Success {
      j := LastFailureIs(ps[..|ps| - 1], ret);
    }
  }
}
