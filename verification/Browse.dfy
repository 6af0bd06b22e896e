/** The resolver, its queue and the lookup handle, as the objects the code runs (hick-reactor/src/discovery.rs). */
module Browsing {
  import opened Answers
  import opened Basics
  import opened HostAddresses
  import opened Resolving
  import opened ServiceDiscovery

  class Resolver {
    var builders: map<Name, Builder>
    var hostAddrs: map<Name, Addrs>
    var hostsQueried: set<Name>
    var ready: seq<ServiceEntry>
    const maxEntries: nat
    const maxHosts: nat
    var dropped: nat
    /** What the answers so far say, and every snapshot surfaced so far. */
    ghost var facts: Facts
    ghost var surfaced: seq<ServiceEntry>

    ghost function Model(): Agg
      reads this
    {
      Agg(builders, hostAddrs, hostsQueried)
    }

    ghost predicate Valid()
      reads this
    {
      && Coherent(Model(), facts)
      && Fresh(builders, surfaced)
      && |builders| <= maxEntries && |hostsQueried| <= maxHosts
    }

    constructor (maxEntries: nat)
      ensures Valid() && Model() == Agg(map[], map[], {}) && facts == NO_FACTS && surfaced == [] && ready == []
      ensures this.maxEntries == maxHosts == maxEntries && dropped == 0
    {
      this.maxEntries, maxHosts := maxEntries, maxEntries;
      builders, hostAddrs, hostsQueried, ready, dropped := map[], map[], {}, [], 0;
      facts, surfaced := NO_FACTS, [];
    }

    method OnPtr(instance: Name) returns (starts: seq<Step>)
      requires Valid()
      modifies this`builders, this`dropped
      ensures Valid()
      ensures Model() == PtrStep(old(Model()), instance, maxEntries)
      ensures starts == if instance in old(builders) || |old(builders)| >= maxEntries then []
                        else [SrvQuery(instance), TxtQuery(instance)]
      ensures PtrHeard(old(Model()), Model(), instance, maxEntries, starts)
      ensures dropped == old(dropped) + (if instance !in old(builders) && |old(builders)| >= maxEntries then 1 else 0)
    {
      PtrStepEffect(Model(), instance, maxEntries);
      PtrKeepsCoherence(Model(), facts, instance, maxEntries);
      if instance in builders {
        return [];
      }
      if |builders| >= maxEntries {
        dropped := dropped + 1;
        return [];
      }
      PtrKeepsFresh(builders, surfaced, instance);
      builders := builders[instance := NewBuilder(instance)];
      return [SrvQuery(instance), TxtQuery(instance)];
    }

    /** Surfaces an instance that is complete: the first time, or again when `allowReemit`. */
    method TryEmit(instance: Name, allowReemit: bool)
      modifies this`builders, this`ready, this`surfaced
      ensures instance !in old(builders) ==> builders == old(builders) && ready == old(ready) && surfaced == old(surfaced)
      ensures instance in old(builders) ==>
        var b := old(builders)[instance];
        var news := if Surfaces(b, allowReemit) then [b.Finalize().value] else [];
        builders == old(builders)[instance := Emitted(b, allowReemit)]
        && ready == old(ready) + news && surfaced == old(surfaced) + news
    {
      if instance in builders {
        var b := builders[instance];
        if !b.Complete() {
          assert builders == builders[instance := b];
          return;
        }
        var entry := b.Finalize();
        if !b.emitted {
          if entry.Some? {
            builders := builders[instance := b.(emitted := true)];
            ready, surfaced := ready + [entry.value], surfaced + [entry.value];
          }
        } else if allowReemit && entry.Some? {
          ready, surfaced := ready + [entry.value], surfaced + [entry.value];
        }
        assert builders == old(builders)[instance := Emitted(b, allowReemit)];
      }
    }

    /**
     An SRV: a new target drops the old one's addresses, the cached list of the new one is adopted, and the
     host is queried the first time it is named, within the cap.
     */
    method OnSrv(instance: Name, host: Name, port: nat) returns (starts: seq<Step>)
      requires Valid()
      modifies this`builders, this`hostsQueried, this`ready, this`dropped, this`facts, this`surfaced
      ensures Valid()
      ensures Model() == SrvStep(old(Model()), instance, host, port, maxHosts)
      ensures facts == if instance in old(builders) then LearnSrv(old(facts), instance, host, port) else old(facts)
      ensures starts == if QueriesHost(old(Model()), host, maxHosts) then [AQuery(host), AaaaQuery(host)] else []
      ensures dropped == old(dropped) +
        (if host !in old(hostsQueried) && |old(hostsQueried)| >= maxHosts then 1 else 0)
      ensures ready == old(ready) + SrvNews(old(Model()), instance, host, port)
      ensures surfaced == old(surfaced) + SrvNews(old(Model()), instance, host, port)
      ensures SrvHeard(old(Model()), Model(), instance, host, port, maxHosts, starts)
    {
      SrvStepEffect(Model(), facts, instance, host, port, maxHosts);
      SrvKeepsSound(Model(), facts, surfaced, instance, host, port, maxHosts);
      facts := if instance in builders then LearnSrv(facts, instance, host, port) else facts;
      SetSrv(instance, host, port);
      starts := QueryHost(host);
      assert Model() == SrvStep(old(Model()), instance, host, port, maxHosts);
    }

    /** Asks for a host's addresses the first time it is named, within the cap. */
    method QueryHost(host: Name) returns (starts: seq<Step>)
      requires |hostsQueried| <= maxHosts
      modifies this`hostsQueried, this`dropped
      ensures |hostsQueried| <= maxHosts
      ensures hostsQueried == HostsAfter(old(Model()), host, maxHosts)
      ensures starts == if QueriesHost(old(Model()), host, maxHosts) then [AQuery(host), AaaaQuery(host)] else []
      ensures dropped == old(dropped) +
        (if host !in old(hostsQueried) && |old(hostsQueried)| >= maxHosts then 1 else 0)
    {
      if host in hostsQueried {
        return [];
      }
      if |hostsQueried| >= maxHosts {
        dropped := dropped + 1;
        return [];
      }
      hostsQueried := hostsQueried + {host};
      return [AQuery(host), AaaaQuery(host)];
    }

    /** The builder's half of an SRV. */
    method SetSrv(instance: Name, host: Name, port: nat)
      modifies this`builders, this`ready, this`surfaced
      ensures builders == SrvBuilders(old(Model()), instance, host, port)
      ensures surfaced == old(surfaced) + SrvNews(old(Model()), instance, host, port)
      ensures ready == old(ready) + SrvNews(old(Model()), instance, host, port)
    {
      var changed := false;
      if instance in builders {
        var b, cached := builders[instance], AddrsOf(hostAddrs, host);
        var hostChanged := b.host != Some(host);
        var kept := if hostChanged then NO_ADDRS else b.addrs;
        changed := hostChanged || b.port != port;
        var ipv4 := AdoptList(kept.ipv4, cached.ipv4);
        var ipv6 := AdoptList(kept.ipv6, cached.ipv6);
        builders := builders[instance :=
          b.(host := Some(host), hasSrv := true, port := port, addrs := Addrs(ipv4, ipv6))];
        assert builders[instance] == Retarget(b, host, port, cached);
      }
      TryEmit(instance, changed);
    }

    method OnTxt(instance: Name, txt: seq<Bytes>)
      requires Valid()
      modifies this`builders, this`ready, this`facts, this`surfaced
      ensures Valid()
      ensures Model() == TxtStep(old(Model()), instance, txt)
      ensures facts == if instance in old(builders) then LearnTxt(old(facts), instance, txt) else old(facts)
      ensures dropped == old(dropped)
      ensures ready == old(ready) + TxtNews(old(Model()), instance, txt)
      ensures surfaced == old(surfaced) + TxtNews(old(Model()), instance, txt)
      ensures TxtHeard(old(Model()), Model(), instance, txt)
    {
      TxtStepEffect(Model(), instance, txt);
      TxtKeepsSound(Model(), facts, surfaced, instance, txt);
      facts := if instance in builders then LearnTxt(facts, instance, txt) else facts;
      SetTxt(instance, txt);
      assert Model() == TxtStep(old(Model()), instance, txt);
    }

    method SetTxt(instance: Name, txt: seq<Bytes>)
      modifies this`builders, this`ready, this`surfaced
      ensures builders == TxtStep(old(Model()), instance, txt).builders
      ensures surfaced == old(surfaced) + TxtNews(old(Model()), instance, txt)
      ensures ready == old(ready) + TxtNews(old(Model()), instance, txt)
    {
      var changed := false;
      if instance in builders {
        var b := builders[instance];
        changed := b.txt != Some(txt);
        builders := builders[instance := b.(txt := Some(txt))];
      }
      TryEmit(instance, changed);
    }

    /** An address: cached for its host, then pushed into every builder on that host, in map order. */
    method OnAddr(host: Name, ip: IpAddr) returns (ghost visited: seq<Name>)
      requires Valid()
      modifies this`builders, this`hostAddrs, this`ready, this`facts, this`surfaced
      ensures Valid()
      ensures Model() == AddrStep(old(Model()), host, ip)
      ensures facts == LearnAddr(old(facts), host, ip)
      ensures dropped == old(dropped)
      ensures Enumerates(visited, old(builders), host)
      ensures ready == old(ready) + AddrNews(old(builders), visited, host, ip)
      ensures surfaced == old(surfaced) + AddrNews(old(builders), visited, host, ip)
      ensures AddrHeard(old(Model()), Model(), host, ip)
    {
      ghost var before := Model();
      hostAddrs := hostAddrs[host := AddrsOf(hostAddrs, host).Add(ip)];
      visited := PushToBuilders(host, ip);
      AddrKeepsSound(before, facts, old(surfaced), host, ip, visited);
      facts := LearnAddr(facts, host, ip);
      assert Model() == AddrStep(before, host, ip);
      AddrStepEffect(before, host, ip);
    }

    /** The builders on the host hear of the address one by one; each it changes is surfaced once complete. */
    method PushToBuilders(host: Name, ip: IpAddr) returns (ghost visited: seq<Name>)
      modifies this`builders, this`ready, this`surfaced
      ensures builders == AddedInTurn(old(builders), visited, host, ip)
      ensures ready == old(ready) + AddrNews(old(builders), visited, host, ip)
      ensures surfaced == old(surfaced) + AddrNews(old(builders), visited, host, ip)
      ensures Enumerates(visited, old(builders), host)
    {
      visited := [];
      var keys := set k | k in builders && builders[k].host == Some(host);
      var todo := keys;
      while todo != {}
        invariant todo <= keys
        invariant builders == AddedInTurn(old(builders), visited, host, ip)
        invariant forall k :: k in visited <==> k in keys && k !in todo
        invariant NoRepeats(visited)
        invariant ready == old(ready) + AddrNews(old(builders), visited, host, ip)
        invariant surfaced == old(surfaced) + AddrNews(old(builders), visited, host, ip)
        decreases todo
      {
        var k :| k in todo;
        todo := todo - {k};
        TurnUntouched(old(builders), visited, host, ip, k);
        TurnStep(old(builders), visited, host, ip, k);
        NoRepeatsSnoc(visited, k);
        ghost var _ := AddOne(k, ip);
        visited := visited + [k];
      }
    }

    /** One builder hears of an address of its host. */
    method AddOne(k: Name, ip: IpAddr) returns (ghost news: seq<ServiceEntry>)
      requires k in builders && builders[k].host.Some?
      modifies this`builders, this`ready, this`surfaced
      ensures var b := old(builders)[k]; var c := AddTo(b, b.host.value, ip);
        && builders == old(builders)[k := c]
        && news == AddNews(b, b.host.value, ip)
        && ready == old(ready) + news && surfaced == old(surfaced) + news
    {
      var b := builders[k];
      var addrs := b.addrs.Add(ip);
      news := AddNews(b, b.host.value, ip);
      if addrs != b.addrs {
        builders := builders[k := b.(addrs := addrs)];
        TryEmit(k, true);
      }
    }

    method TakeReady() returns (entry: Option<ServiceEntry>)
      modifies this`ready
      ensures old(ready) == [] ==> entry == None && ready == []
      ensures old(ready) != [] ==> entry == Some(old(ready)[0]) && ready == old(ready)[1..]
    {
      if ready == [] {
        return None;
      }
      entry := Some(ready[0]);
      ready := ready[1..];
    }
  }

  function SrvNews(s: Agg, instance: Name, host: Name, port: nat): seq<ServiceEntry> {
    if instance in s.builders then
      var b := s.builders[instance];
      var r := Retarget(b, host, port, AddrsOf(s.hostAddrs, host));
      if Surfaces(r, SrvChanges(b, host, port)) then [r.Finalize().value] else []
    else []
  }

  function TxtNews(s: Agg, instance: Name, txt: seq<Bytes>): seq<ServiceEntry> {
    if instance in s.builders then
      var b := s.builders[instance];
      var r := b.(txt := Some(txt));
      if Surfaces(r, b.txt != Some(txt)) then [r.Finalize().value] else []
    else []
  }

  function AddNews(b: Builder, host: Name, ip: IpAddr): seq<ServiceEntry> {
    var r := b.(addrs := b.addrs.Add(ip));
    if b.host == Some(host) && r.addrs != b.addrs && Surfaces(r, true) then [r.Finalize().value] else []
  }

  /** One snapshot, of the builder as it now stands, when that must be announced; otherwise none. */
  predicate TellsOf(b: Builder, c: Builder, news: seq<ServiceEntry>) {
    if Announces(b, c) then news == [ServiceEntry(c.instance, c.host.value, c.port, c.addrs, c.txt.value)] else news == []
  }

  lemma SrvTells(s: Agg, f: Facts, instance: Name, host: Name, port: nat, maxHosts: nat)
    requires Coherent(s, f) && instance in s.builders
    ensures TellsOf(s.builders[instance], SrvStep(s, instance, host, port, maxHosts).builders[instance],
                    SrvNews(s, instance, host, port))
  {
    RetargetAnnounces(s.builders[instance], f, instance, host, port);
  }

  lemma TxtTells(s: Agg, f: Facts, instance: Name, txt: seq<Bytes>)
    requires Coherent(s, f) && instance in s.builders
    ensures TellsOf(s.builders[instance], TxtStep(s, instance, txt).builders[instance], TxtNews(s, instance, txt))
  {
    TxtAnnounces(s.builders[instance], f, instance, txt);
  }

  lemma AddTells(s: Agg, f: Facts, k: Name, host: Name, ip: IpAddr)
    requires Coherent(s, f) && k in s.builders && (s.builders[k].Complete() ==> s.builders[k].emitted)
    ensures TellsOf(s.builders[k], AddrStep(s, host, ip).builders[k], AddNews(s.builders[k], host, ip))
  {
    AddAnnounces(s.builders[k], f, k, host, ip);
  }

  lemma PtrKeepsFresh(builders: map<Name, Builder>, surfaced: seq<ServiceEntry>, instance: Name)
    requires Fresh(builders, surfaced) && instance !in builders
    ensures Fresh(builders[instance := NewBuilder(instance)], surfaced)
  {
    LatestIsMember(surfaced, instance);
  }

  /** An SRV keeps the aggregation coherent and the consumer's view fresh. */
  lemma SrvKeepsSound(s: Agg, f: Facts, surfaced: seq<ServiceEntry>, instance: Name, host: Name, port: nat, maxHosts: nat)
    requires Coherent(s, f) && Fresh(s.builders, surfaced)
    ensures var after := SrvStep(s, instance, host, port, maxHosts);
      && Coherent(after, if instance in s.builders then LearnSrv(f, instance, host, port) else f)
      && Fresh(after.builders, surfaced + SrvNews(s, instance, host, port))
      && after.builders.Keys == s.builders.Keys
  {
    SrvKeepsCoherence(s, f, instance, host, port, maxHosts);
    if instance in s.builders {
      var b := s.builders[instance];
      var r, changed := Retarget(b, host, port, AddrsOf(s.hostAddrs, host)), SrvChanges(b, host, port);
      RetargetJoins(b, f, instance, host, port);
      RetargetAnnounces(b, f, instance, host, port);
      TellingKeepsFresh(s.builders, surfaced, instance, Emitted(r, changed));
    }
    assert surfaced + [] == surfaced;
  }

  /**
   What an SRV leaves the consumer with, for an instance shown before: its current view exactly when an address
   of the target is known already. Otherwise the old target's snapshot stands until one arrives.
   */
  lemma RetargetShownIff(s: Agg, f: Facts, surfaced: seq<ServiceEntry>, instance: Name, host: Name, port: nat,
                         maxHosts: nat)
    requires Coherent(s, f) && Fresh(s.builders, surfaced)
    requires instance in s.builders && s.builders[instance].emitted
    ensures var after := SrvStep(s, instance, host, port, maxHosts);
      Latest(surfaced + SrvNews(s, instance, host, port), instance) == after.builders[instance].Finalize()
      <==> !AddrsOf(s.hostAddrs, host).Empty()
  {
    var after := SrvStep(s, instance, host, port, maxHosts);
    SrvKeepsSound(s, f, surfaced, instance, host, port, maxHosts);
    RetargetJoins(s.builders[instance], f, instance, host, port);
    StaleIffIncomplete(after, LearnSrv(f, instance, host, port), surfaced + SrvNews(s, instance, host, port), instance);
  }

  /** Such a state is reached: an instance resolved at one host, then moved to another no address is known of. */
  lemma StaleIsReached(txt: seq<Bytes>)
    ensures var s1 := SrvStep(PtrStep(Agg(map[], map[], {}), "i", 64), "i", "a", 80, 64);
      var s2 := TxtStep(s1, "i", txt);
      var s3 := AddrStep(s2, "a", V4(1));
      var s4 := SrvStep(s3, "i", "b", 80, 64);
      var surfaced := AddNews(s2.builders["i"], "a", V4(1)) + SrvNews(s3, "i", "b", 80);
      && SrvNews(PtrStep(Agg(map[], map[], {}), "i", 64), "i", "a", 80) == [] == TxtNews(s1, "i", txt)
      && Latest(surfaced, "i") == Some(ServiceEntry("i", "a", 80, Addrs([1], []), txt))
      && s4.builders["i"].Finalize() == Some(ServiceEntry("i", "b", 80, NO_ADDRS, txt))
  {
    var s2 := TxtStep(SrvStep(PtrStep(Agg(map[], map[], {}), "i", 64), "i", "a", 80, 64), "i", txt);
    assert s2.builders["i"] == Builder("i", Some("a"), true, 80, NO_ADDRS, Some(txt), false);
    var s3 := AddrStep(s2, "a", V4(1));
    assert s3.builders["i"] == Builder("i", Some("a"), true, 80, Addrs([1], []), Some(txt), true);
    assert AddrsOf(s3.hostAddrs, "b") == NO_ADDRS;
  }

  lemma TxtKeepsSound(s: Agg, f: Facts, surfaced: seq<ServiceEntry>, instance: Name, txt: seq<Bytes>)
    requires Coherent(s, f) && Fresh(s.builders, surfaced)
    ensures var after := TxtStep(s, instance, txt);
      && Coherent(after, if instance in s.builders then LearnTxt(f, instance, txt) else f)
      && Fresh(after.builders, surfaced + TxtNews(s, instance, txt))
      && after.builders.Keys == s.builders.Keys
  {
    TxtKeepsCoherence(s, f, instance, txt);
    if instance in s.builders {
      var b := s.builders[instance];
      TxtAnnounces(b, f, instance, txt);
      TellingKeepsFresh(s.builders, surfaced, instance, Emitted(b.(txt := Some(txt)), b.txt != Some(txt)));
    }
    assert surfaced + [] == surfaced;
  }

  /** `visited` is the builders on `host`, once each, in some order. */
  ghost predicate Enumerates(visited: seq<Name>, builders: map<Name, Builder>, host: Name) {
    NoRepeats(visited) && forall k :: k in visited <==> k in builders && builders[k].host == Some(host)
  }

  /** The snapshots an address surfaces when the builders on its host are visited in this order. */
  ghost function AddrNews(builders: map<Name, Builder>, visited: seq<Name>, host: Name, ip: IpAddr): seq<ServiceEntry> {
    if visited == [] then []
    else
      var front, k := visited[..|visited| - 1], visited[|visited| - 1];
      AddrNews(builders, front, host, ip) + (if k in builders then AddNews(builders[k], host, ip) else [])
  }

  /** The builders once those visited have heard of the address. */
  ghost function AddedInTurn(builders: map<Name, Builder>, visited: seq<Name>, host: Name, ip: IpAddr): map<Name, Builder> {
    if visited == [] then builders
    else
      var front, k := visited[..|visited| - 1], visited[|visited| - 1];
      if k in builders then AddedInTurn(builders, front, host, ip)[k := AddTo(builders[k], host, ip)]
      else AddedInTurn(builders, front, host, ip)
  }

  lemma TurnStep(builders: map<Name, Builder>, visited: seq<Name>, host: Name, ip: IpAddr, k: Name)
    requires k in builders
    ensures AddedInTurn(builders, visited + [k], host, ip) ==
      AddedInTurn(builders, visited, host, ip)[k := AddTo(builders[k], host, ip)]
    ensures AddrNews(builders, visited + [k], host, ip) ==
      AddrNews(builders, visited, host, ip) + AddNews(builders[k], host, ip)
  {
    assert (visited + [k])[..|visited|] == visited;
  }

  lemma {:induction false} TurnUntouched(builders: map<Name, Builder>, visited: seq<Name>, host: Name, ip: IpAddr, k: Name)
    requires k in builders
    ensures AddedInTurn(builders, visited, host, ip).Keys == builders.Keys
    ensures AddedInTurn(builders, visited, host, ip)[k] ==
      if k in visited then AddTo(builders[k], host, ip) else builders[k]
  {
    if visited != [] {
      TurnUntouched(builders, visited[..|visited| - 1], host, ip, k);
      assert visited == visited[..|visited| - 1] + [visited[|visited| - 1]];
    }
  }

  /** One builder's turn, the earlier ones taken. */
  lemma TurnKeepsFresh(s: Agg, f: Facts, told: seq<ServiceEntry>, turned: map<Name, Builder>, host: Name, ip: IpAddr,
                       k: Name)
    requires Coherent(s, f) && k in s.builders && (s.builders[k].Complete() ==> s.builders[k].emitted)
    requires Fresh(turned, told) && k in turned && turned[k] == s.builders[k]
    ensures Fresh(turned[k := AddTo(s.builders[k], host, ip)], told + AddNews(s.builders[k], host, ip))
  {
    AddAnnounces(s.builders[k], f, k, host, ip);
    TellingKeepsFresh(turned, told, k, AddTo(s.builders[k], host, ip));
    assert told + [] == told;
  }

  lemma {:induction false} TurnsKeepFresh(s: Agg, f: Facts, surfaced: seq<ServiceEntry>, visited: seq<Name>,
                                        host: Name, ip: IpAddr)
    requires Coherent(s, f) && Fresh(s.builders, surfaced) && NoRepeats(visited)
    requires forall k :: k in visited ==> k in s.builders
    ensures Fresh(AddedInTurn(s.builders, visited, host, ip), surfaced + AddrNews(s.builders, visited, host, ip))
  {
    if visited == [] {
      assert surfaced + [] == surfaced;
    } else {
      var front, k := visited[..|visited| - 1], visited[|visited| - 1];
      assert NoRepeats(front) && k !in front by {
        assert visited == front + [k];
        NoRepeatsParts(front, [k]);
      }
      assert k in s.builders && forall n :: n in front ==> n in s.builders;
      TurnsKeepFresh(s, f, surfaced, front, host, ip);
      TurnUntouched(s.builders, front, host, ip, k);
      var news := AddrNews(s.builders, front, host, ip);
      TurnKeepsFresh(s, f, surfaced + news, AddedInTurn(s.builders, front, host, ip), host, ip, k);
      Concat3(surfaced, news, AddNews(s.builders[k], host, ip));
    }
  }

  /** An address keeps them too, whatever order the builders on its host were visited in. */
  lemma AddrKeepsSound(s: Agg, f: Facts, surfaced: seq<ServiceEntry>, host: Name, ip: IpAddr, visited: seq<Name>)
    requires Coherent(s, f) && Fresh(s.builders, surfaced)
    requires Enumerates(visited, s.builders, host)
    ensures AddedInTurn(s.builders, visited, host, ip) == AddrStep(s, host, ip).builders
    ensures Coherent(AddrStep(s, host, ip), LearnAddr(f, host, ip))
    ensures Fresh(AddrStep(s, host, ip).builders, surfaced + AddrNews(s.builders, visited, host, ip))
    ensures AddrStep(s, host, ip).builders.Keys == s.builders.Keys
  {
    var turned, after := AddedInTurn(s.builders, visited, host, ip), AddrStep(s, host, ip).builders;
    forall k | k in s.builders
      ensures k in turned && turned[k] == after[k] && turned.Keys == s.builders.Keys
    {
      TurnUntouched(s.builders, visited, host, ip, k);
    }
    KeysOfTurned(s.builders, visited, host, ip);
    AddrKeepsCoherence(s, f, host, ip);
    TurnsKeepFresh(s, f, surfaced, visited, host, ip);
  }

  lemma {:induction false} KeysOfTurned(builders: map<Name, Builder>, visited: seq<Name>, host: Name, ip: IpAddr)
    ensures AddedInTurn(builders, visited, host, ip).Keys == builders.Keys
  {
    if visited != [] { KeysOfTurned(builders, visited[..|visited| - 1], host, ip); }
  }
}
