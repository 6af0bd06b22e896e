/** One running lookup as the object the driver mutates (hick-mio/src/discovery.rs, `LookupCtx`). */
module Lookup {
  import opened Answers
  import opened HostAddresses
  import opened ServiceDiscovery
  import opened LookupStates

  class LookupCtx {
    /** The slab slot it was made for. No two lookups share one. */
    ghost const slot: nat
    var generation: nat
    const deadline: Option<nat>
    const maxEntries: nat
    var emitted: nat
    var launched: nat
    var partials: map<Name, Partial>
    var hostAddrs: map<Name, Addrs>
    var hostsQueried: set<Name>
    var subqueries: map<QueryHandle, Step>
    var pending: seq<Step>
    var ready: seq<ServiceEntry>

    ghost function View(): Ctx
      reads this
    {
      Ctx(generation, deadline, maxEntries, emitted, launched, partials, hostAddrs, hostsQueried, subqueries, pending, ready)
    }

    predicate Finished(now: nat)
      reads this
    {
      || emitted >= maxEntries || (deadline.Some? && now >= deadline.value)
      || (launched > 0 && subqueries == map[] && pending == [])
    }

    constructor (deadline: Option<nat>, maxEntries: nat, ghost slot: nat)
      ensures View() == NewCtx(deadline, maxEntries) && this.slot == slot
    {
      this.slot := slot;
      this.deadline, this.maxEntries := deadline, maxEntries;
      generation, emitted, launched, partials, hostAddrs := 0, 0, 0, map[], map[];
      hostsQueried, subqueries, pending, ready := {}, map[], [], [];
    }

    method SeedHost(host: Name)
      modifies this`partials, this`hostsQueried, this`pending
      ensures View() == LookupStates.SeedHost(old(View()), host)
    {
      var partial := NewPartial(None);
      partial := partial.SetSrv(host, 0);
      partials := partials[host := partial.(txt := Some([]))];
      hostsQueried := hostsQueried + {host};
      pending := pending + [AQuery(host)];
      pending := pending + [AaaaQuery(host)];
    }

    method OnPtr(instance: Name)
      modifies this`partials, this`pending
      ensures View() == AfterPtr(old(View()), instance)
    {
      if instance in partials { return; }
      if |partials| >= maxEntries { return; }
      partials := partials[instance := NewPartial(Some(instance))];
      pending := pending + [SrvQuery(instance)];
      pending := pending + [TxtQuery(instance)];
    }

    method OnSrv(instance: Name, host: Name, port: nat)
      requires instance in partials
      modifies this`partials, this`hostsQueried, this`pending
      ensures View() == AfterSrv(old(View()), instance, host, port)
    {
      AdoptSrv(instance, host, port);
      if host in hostsQueried { return; }
      if |hostsQueried| >= maxEntries { return; }
      hostsQueried := hostsQueried + {host};
      pending := pending + [AQuery(host)];
      pending := pending + [AaaaQuery(host)];
    }

    /** Records the target, and the addresses already known of it. */
    method AdoptSrv(instance: Name, host: Name, port: nat)
      requires instance in partials
      modifies this`partials
      ensures partials == SrvPartials(old(View()), instance, host, port)
    {
      var partial := partials[instance].SetSrv(host, port);
      var cached := AddrsOf(hostAddrs, host);
      var ipv4 := AdoptList(partial.addrs.ipv4, cached.ipv4);
      var ipv6 := AdoptList(partial.addrs.ipv6, cached.ipv6);
      partials := partials[instance := partial.(addrs := Addrs(ipv4, ipv6))];
    }

    method OnTxt(instance: Name, txt: seq<Bytes>)
      requires instance in partials
      modifies this`partials
      ensures View() == AfterTxt(old(View()), instance, txt)
    {
      partials := partials[instance := partials[instance].(txt := Some(txt))];
    }

    method OnAddr(host: Name, ip: IpAddr)
      modifies this`partials, this`hostAddrs
      ensures View() == AfterAddr(old(View()), host, ip) && AddrHeard(old(View()), View(), host, ip)
    {
      AddrIsHeard(View(), host, ip);
      hostAddrs := hostAddrs[host := AddrsOf(hostAddrs, host).Add(ip)];
      var left := partials.Keys;
      while left != {}
        invariant left <= partials.Keys == old(partials.Keys)
        invariant hostAddrs == old(hostAddrs)[host := AddrsOf(old(hostAddrs), host).Add(ip)]
        invariant forall k :: k in left ==> partials[k] == old(partials)[k]
        invariant forall k :: k in partials && k !in left ==> partials[k] == AddTo(old(partials)[k], host, ip)
        decreases left
      {
        var k :| k in left;
        if partials[k].host == Some(host) {
          partials := partials[k := partials[k].Add(ip)];
        }
        left := left - {k};
      }
      assert partials == AddedTo(old(partials), host, ip);
    }

    /** One answer, under the step it was asked for. The handlers are only ever given what the lookup tracks. */
    method Feed(step: Step, record: Record)
      requires Tracked(View(), step)
      modifies this`partials, this`hostAddrs, this`hostsQueried, this`pending
      ensures View() == Fed(old(View()), step, record)
    {
      match step {
        case PtrQuery =>
          if record.PtrRecord? { OnPtr(record.target); }
        case SrvQuery(instance) =>
          if record.SrvRecord? { OnSrv(instance, record.host, record.port); }
        case TxtQuery(instance) =>
          if record.TxtRecord? { OnTxt(instance, record.txt); }
        case AQuery(host) =>
          if record.AddrRecord? && record.ip.V4? { OnAddr(host, record.ip); }
        case AaaaQuery(host) =>
          if record.AddrRecord? && record.ip.V6? { OnAddr(host, record.ip); }
      }
    }

    method AddLeg(sub: QueryHandle, step: Step)
      modifies this`subqueries, this`launched
      ensures View() == LookupStates.AddLeg(old(View()), sub, step)
    {
      subqueries := subqueries[sub := step];
      launched := launched + 1;
    }

    method DropLegs(gone: set<QueryHandle>)
      modifies this`subqueries
      ensures View() == LookupStates.DropLegs(old(View()), gone)
    {
      subqueries := subqueries - gone;
    }

    method TakePending() returns (starts: seq<Step>)
      modifies this`pending
      ensures View() == old(View()).(pending := []) && starts == old(pending)
    {
      starts, pending := pending, [];
    }

    /** Moves every newly complete instance into `ready`, counting it. */
    method CollectReady() returns (ghost order: seq<Name>)
      modifies this`partials, this`ready, this`emitted
      ensures forall k :: k in order <==> k in old(partials)
      ensures View() == CollectAll(old(View()), order)
      ensures KeysNamed(old(partials)) ==> Reported(old(View()), View(), old(partials.Keys))
    {
      order := [];
      var left := partials.Keys;
      while left != {}
        invariant left <= partials.Keys == old(partials).Keys
        invariant forall k :: k in order <==> k in old(partials) && k !in left
        invariant View() == CollectAll(old(View()), order)
        decreases left
      {
        var k :| k in left;
        TakeComplete(k);
        left := left - {k};
        assert (order + [k])[..|order|] == order;
        order := order + [k];
      }
      if KeysNamed(old(partials)) {
        CollectAllTells(old(View()), order);
        assert (set n | n in order) == old(partials.Keys);
      }
    }

    /** The completeness rule: an entry the first time all parts are in, never again. */
    method TakeComplete(k: Name)
      requires k in partials
      modifies this`partials, this`ready, this`emitted
      ensures View() == Collect(old(View()), k)
    {
      var partial := partials[k];
      if partial.emitted || !partial.hasSrv || partial.txt == None { return; }
      if partial.addrs.ipv4 == [] && partial.addrs.ipv6 == [] { return; }
      if partial.host == None { return; }
      var instance := if partial.instance.Some? then partial.instance.value else partial.host.value;
      var entry := ServiceEntry(instance, partial.host.value, partial.port, partial.addrs, partial.txt.value);
      partials := partials[k := partial.(emitted := true)];
      emitted := emitted + 1;
      ready := ready + [entry];
    }

    method TakeReady() returns (entry: Option<ServiceEntry>)
      modifies this`ready
      ensures old(ready) == [] ==> entry == None && ready == []
      ensures old(ready) != [] ==> entry == Some(old(ready)[0]) && ready == old(ready)[1..]
    {
      if ready == [] { return None; }
      entry, ready := Some(ready[0]), ready[1..];
    }
  }
}
