/** The client's connection to the service: one cached proxy, dropped when its service instance
    dies. Service instances are numbered in the order in which they start. */
module ObserverClient {
  import opened Records

  /** What one attempt to connect meets: the instance the system ability manager hands out, if any;
      whether it lives in another process; and, if so, whether a death recipient can be attached. */
  datatype Lookup = Lookup(found: Option<nat>, remote: bool, linked: bool)

  function Connected(proxy: Option<nat>, lookup: Lookup): Option<nat> {
    if proxy.Some? then proxy
    else if lookup.remote && !lookup.linked then None
    else lookup.found
  }

  /** An attempt that yields a usable proxy. */
  predicate Usable(lookup: Lookup) {
    lookup.found.Some? && (lookup.remote ==> lookup.linked)
  }

  /** The proxy after a number of calls, with no death reported between them. */
  function ConnectedAll(proxy: Option<nat>, lookups: seq<Lookup>): Option<nat> {
    if lookups == [] then proxy
    else Connected(ConnectedAll(proxy, lookups[..|lookups| - 1]), lookups[|lookups| - 1])
  }

  /** The first usable attempt is at i, or there is none and i is their number. */
  predicate FirstUsable(lookups: seq<Lookup>, i: nat) {
    i <= |lookups| && (i < |lookups| ==> Usable(lookups[i])) && forall j :: 0 <= j < i ==> !Usable(lookups[j])
  }

  /** The client connects once: until a death is reported it uses the proxy it has, whatever later
      attempts would find, and a client without proxy takes the first usable one. */
  lemma {:induction false} FirstConnectionStays(proxy: Option<nat>, lookups: seq<Lookup>, i: nat)
    requires FirstUsable(lookups, i)
    ensures ConnectedAll(proxy, lookups)
            == if proxy.Some? then proxy else if i < |lookups| then lookups[i].found else None
  {
    if lookups != [] {
      var front := lookups[..|lookups| - 1];
      FirstConnectionStays(proxy, front, if i < |lookups| then i else |front|);
    }
  }

  class TelephonyObserverClient {
    var proxy: Option<nat>
    /** The instance the kept death recipient was made for. */
    var deathRecipient: Option<nat>
    /** The instances the recipient was attached to, and those found in this very process. */
    var attached: set<nat>
    var local: set<nat>

    /** The proxy in use has its own death recipient, and an object of another process has it
        attached; a local object is kept without, since it cannot die alone. */
    predicate Watched()
      reads this
    {
      proxy.Some? ==> deathRecipient == proxy && (proxy.value in attached || proxy.value in local)
    }

    constructor ()
      ensures proxy == None && Watched()
    {
      proxy, deathRecipient, attached, local := None, None, {}, {};
    }

    method GetProxy(lookup: Lookup) returns (p: Option<nat>)
      requires Watched()
      modifies this
      ensures Watched() && p == proxy == Connected(old(proxy), lookup)
      ensures old(proxy).Some? ==> unchanged(this)
      ensures old(proxy).None? ==> proxy == if Usable(lookup) then lookup.found else None
      ensures local == old(local) + if old(proxy).None? && p.Some? && !lookup.remote then {p.value} else {}
    {
      if proxy.Some? {
        return proxy;
      }
      if lookup.found.None? {
        return None;
      }
      if lookup.remote {
        if !lookup.linked {
          return None;
        }
        attached := attached + {lookup.found.value};
      } else {
        local := local + {lookup.found.value};
      }
      proxy := lookup.found;
      deathRecipient := lookup.found;
      p := proxy;
    }

    /** A late report about an earlier instance leaves a newer connection alone. */
    method OnRemoteDied(remote: Option<nat>)
      requires Watched()
      modifies this
      ensures Watched()
      ensures proxy == if remote.Some? && old(proxy) == remote then None else old(proxy)
    {
      if remote.None? {
        return;
      }
      if proxy.None? {
        return;
      }
      if proxy == remote {
        proxy := None;
      }
    }

    /** A call needs a proxy; `answer` is what the service behind it would answer. */
    method Call(lookup: Lookup, answer: nat -> Code) returns (code: Code)
      requires Watched()
      modifies this
      ensures Watched() && proxy == Connected(old(proxy), lookup)
      ensures code == if proxy.None? then ConnectStubFail else answer(proxy.value)
    {
      var p := GetProxy(lookup);
      if p.None? {
        return ConnectStubFail;
      }
      code := answer(p.value);
    }
  }
}
