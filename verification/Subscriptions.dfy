/** What the three front ends keep in common: subscriptions of (slot, event type, callback), in
    registration order, and what removing some of them asks of the service. */
module Subscriptions {
  import opened Kinds
  import opened Records
  import opened Listeners

  datatype Sub = Sub(slot: int, kind: Kind, fn: int)

  function SubPair(s: Sub): Pair {
    Pair(s.slot, s.kind)
  }

  function SubPairs(subs: seq<Sub>): set<Pair> {
    set s | s in subs :: SubPair(s)
  }

  /** Whether an `off` of an event type, for one callback or for all, takes a subscription. */
  predicate Covers(kind: Kind, fn: Option<int>, s: Sub) {
    s.kind == kind && (fn.Some? ==> s.fn == fn.value)
  }

  function Retained(subs: seq<Sub>, kind: Kind, fn: Option<int>): seq<Sub> {
    if subs == [] then []
    else
      var s := subs[|subs| - 1];
      var rest := Retained(subs[..|subs| - 1], kind, fn);
      if Covers(kind, fn, s) then rest else rest + [s]
  }

  function Taken(subs: seq<Sub>, kind: Kind, fn: Option<int>): seq<Sub> {
    if subs == [] then []
    else
      var s := subs[|subs| - 1];
      var rest := Taken(subs[..|subs| - 1], kind, fn);
      if Covers(kind, fn, s) then rest + [s] else rest
  }

  lemma RetainedSnoc(subs: seq<Sub>, s: Sub, kind: Kind, fn: Option<int>)
    ensures Retained(subs + [s], kind, fn)
            == if Covers(kind, fn, s) then Retained(subs, kind, fn) else Retained(subs, kind, fn) + [s]
    ensures Taken(subs + [s], kind, fn)
            == if Covers(kind, fn, s) then Taken(subs, kind, fn) + [s] else Taken(subs, kind, fn)
    ensures SubPairs(subs + [s]) == SubPairs(subs) + {SubPair(s)}
  {
    assert (subs + [s])[..|subs|] == subs;
    assert forall t :: t in subs + [s] <==> t in subs || t == s;
  }

  /** Whether an arriving update is for a subscription; the account event carries no slot. */
  predicate Hears(s: Sub, kind: Kind, slot: int) {
    s.kind == kind && (kind == IccAccount || s.slot == slot)
  }

  /** The callbacks an arriving update is handed to, in registration order. */
  function Heard(subs: seq<Sub>, kind: Kind, slot: int): seq<int> {
    if subs == [] then []
    else
      var s := subs[|subs| - 1];
      var rest := Heard(subs[..|subs| - 1], kind, slot);
      if Hears(s, kind, slot) then rest + [s.fn] else rest
  }

  lemma HeardSnoc(subs: seq<Sub>, s: Sub, kind: Kind, slot: int)
    ensures Heard(subs + [s], kind, slot) == Heard(subs, kind, slot) + if Hears(s, kind, slot) then [s.fn] else []
  {
    assert (subs + [s])[..|subs|] == subs;
  }

  /** The pairs that lose their last subscription, in ascending slot order. */
  ghost function Unused(subs: seq<Sub>, kind: Kind, fn: Option<int>): seq<Pair> {
    Gone(Ascending(SubPairs(Taken(subs, kind, fn))), SubPairs(Retained(subs, kind, fn)))
  }
}
