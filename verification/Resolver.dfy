/**
 The async resolver's browse/resolve aggregation (hick-reactor/src/discovery.rs), as values.

 The resolver updates builders incrementally: an address answer is pushed into every builder on that host,
 an SRV adopts a cached address list or drops a stale one. `Facts` is what the answers say, kept in plain
 maps, and `Joined` is the builder those facts describe. That the incremental state is always the join is
 what makes every other claim simple.
 */
module Resolving {
  import opened Answers
  import opened HostAddresses
  import opened ServiceDiscovery

  /** One instance's aggregation. `host` stands for the name and its folded key together. */
  datatype Builder = Builder(instance: Name, host: Option<Name>, hasSrv: bool, port: nat, addrs: Addrs,
                             txt: Option<seq<Bytes>>, emitted: bool) {
    predicate Complete() {
      hasSrv && txt.Some? && !addrs.Empty()
    }

    function Finalize(): Option<ServiceEntry> {
      if host.Some? && txt.Some? then Some(ServiceEntry(instance, host.value, port, addrs, txt.value)) else None
    }
  }

  function NewBuilder(instance: Name): Builder {
    Builder(instance, None, false, 0, NO_ADDRS, None, false)
  }

  datatype Agg = Agg(builders: map<Name, Builder>, hostAddrs: map<Name, Addrs>, hostsQueried: set<Name>)

  // ----- The steps, as the code takes them -----

  /** The instance is surfaced now: for the first time, or again because `changed`. */
  predicate Surfaces(b: Builder, changed: bool) {
    b.Complete() && b.Finalize().Some? && (!b.emitted || changed)
  }

  function Emitted(b: Builder, changed: bool): Builder {
    if Surfaces(b, changed) then b.(emitted := true) else b
  }

  function PtrStep(s: Agg, instance: Name, maxEntries: nat): Agg {
    if instance in s.builders || |s.builders| >= maxEntries then s
    else s.(builders := s.builders[instance := NewBuilder(instance)])
  }

  function Retarget(b: Builder, host: Name, port: nat, cached: Addrs): Builder {
    var kept := if b.host == Some(host) then b.addrs else NO_ADDRS;
    b.(host := Some(host), hasSrv := true, port := port, addrs := kept.Adopt(cached))
  }

  predicate SrvChanges(b: Builder, host: Name, port: nat) {
    b.host != Some(host) || b.port != port
  }

  function SrvBuilders(s: Agg, instance: Name, host: Name, port: nat): map<Name, Builder> {
    if instance in s.builders then
      var b := s.builders[instance];
      s.builders[instance := Emitted(Retarget(b, host, port, AddrsOf(s.hostAddrs, host)), SrvChanges(b, host, port))]
    else s.builders
  }

  function HostsAfter(s: Agg, host: Name, maxHosts: nat): set<Name> {
    if QueriesHost(s, host, maxHosts) then s.hostsQueried + {host} else s.hostsQueried
  }

  function SrvStep(s: Agg, instance: Name, host: Name, port: nat, maxHosts: nat): Agg {
    Agg(SrvBuilders(s, instance, host, port), s.hostAddrs, HostsAfter(s, host, maxHosts))
  }

  predicate QueriesHost(s: Agg, host: Name, maxHosts: nat) {
    host !in s.hostsQueried && |s.hostsQueried| < maxHosts
  }

  function TxtStep(s: Agg, instance: Name, txt: seq<Bytes>): Agg {
    if instance in s.builders then
      var b := s.builders[instance];
      s.(builders := s.builders[instance := Emitted(b.(txt := Some(txt)), b.txt != Some(txt))])
    else s
  }

  function AddTo(b: Builder, host: Name, ip: IpAddr): Builder {
    if b.host == Some(host) && b.addrs.Add(ip) != b.addrs
    then Emitted(b.(addrs := b.addrs.Add(ip)), true)
    else b
  }

  function AddedTo(builders: map<Name, Builder>, host: Name, ip: IpAddr): map<Name, Builder> {
    map k | k in builders :: AddTo(builders[k], host, ip)
  }

  function AddrStep(s: Agg, host: Name, ip: IpAddr): Agg {
    Agg(AddedTo(s.builders, host, ip),
        s.hostAddrs[host := AddrsOf(s.hostAddrs, host).Add(ip)],
        s.hostsQueried)
  }

  // ----- What each answer does, field by field -----

  /** A PTR: one more instance, of which nothing is known yet, if it is new and there is room. */
  ghost predicate PtrHeard(s: Agg, t: Agg, instance: Name, maxEntries: nat, starts: seq<Step>) {
    && t.hostAddrs == s.hostAddrs && t.hostsQueried == s.hostsQueried
    && (forall k :: k in s.builders ==> k in t.builders && t.builders[k] == s.builders[k])
    && if instance !in s.builders && |s.builders| < maxEntries then
         && t.builders.Keys == s.builders.Keys + {instance}
         && t.builders[instance] == Builder(instance, None, false, 0, Addrs([], []), None, false)
         && starts == [SrvQuery(instance), TxtQuery(instance)]
       else t == s && starts == []
  }

  /** An SRV: the instance has this host and port and that host's known addresses, and keeps the rest. */
  ghost predicate SrvHeard(s: Agg, t: Agg, instance: Name, host: Name, port: nat, maxHosts: nat, starts: seq<Step>) {
    && t.hostAddrs == s.hostAddrs && t.builders.Keys == s.builders.Keys
    && (forall k :: k in s.builders && k != instance ==> t.builders[k] == s.builders[k])
    && (instance in s.builders ==>
          var b, c := s.builders[instance], t.builders[instance];
          && c.host == Some(host) && c.hasSrv && c.port == port && c.instance == b.instance && c.txt == b.txt
          && c.addrs == if host in s.hostAddrs then s.hostAddrs[host] else Addrs([], []))
    && if host !in s.hostsQueried && |s.hostsQueried| < maxHosts then
         t.hostsQueried == s.hostsQueried + {host} && starts == [AQuery(host), AaaaQuery(host)]
       else t.hostsQueried == s.hostsQueried && starts == []
  }

  /** A TXT: the instance has this text, and nothing else changed but that it may be surfaced. */
  ghost predicate TxtHeard(s: Agg, t: Agg, instance: Name, txt: seq<Bytes>) {
    && t.hostAddrs == s.hostAddrs && t.hostsQueried == s.hostsQueried && t.builders.Keys == s.builders.Keys
    && (forall k :: k in s.builders && k != instance ==> t.builders[k] == s.builders[k])
    && (instance in s.builders ==>
          t.builders[instance] == s.builders[instance].(txt := Some(txt), emitted := t.builders[instance].emitted))
  }

  /** An address: its host's list and every instance on that host gain it, each in its own family. */
  ghost predicate AddrHeard(s: Agg, t: Agg, host: Name, ip: IpAddr) {
    && t.hostsQueried == s.hostsQueried && t.builders.Keys == s.builders.Keys
    && t.hostAddrs.Keys == s.hostAddrs.Keys + {host}
    && (forall h :: h in s.hostAddrs && h != host ==> t.hostAddrs[h] == s.hostAddrs[h])
    && Gains(if host in s.hostAddrs then s.hostAddrs[host] else Addrs([], []), t.hostAddrs[host], ip)
    && (forall k :: k in s.builders ==> HeardAddr(s.builders[k], t.builders[k], host, ip))
  }

  predicate HeardAddr(b: Builder, c: Builder, host: Name, ip: IpAddr) {
    if b.host == Some(host) then Gains(b.addrs, c.addrs, ip) && c == b.(addrs := c.addrs, emitted := c.emitted)
    else c == b
  }

  lemma PtrStepEffect(s: Agg, instance: Name, maxEntries: nat)
    ensures PtrHeard(s, PtrStep(s, instance, maxEntries), instance, maxEntries,
                     if instance in s.builders || |s.builders| >= maxEntries then []
                     else [SrvQuery(instance), TxtQuery(instance)])
  {
  }

  lemma SrvStepEffect(s: Agg, f: Facts, instance: Name, host: Name, port: nat, maxHosts: nat)
    requires Coherent(s, f)
    ensures SrvHeard(s, SrvStep(s, instance, host, port, maxHosts), instance, host, port, maxHosts,
                     if QueriesHost(s, host, maxHosts) then [AQuery(host), AaaaQuery(host)] else [])
  {
    AdoptIsCopy(AddrsOf(s.hostAddrs, host));
  }

  lemma TxtStepEffect(s: Agg, instance: Name, txt: seq<Bytes>)
    ensures TxtHeard(s, TxtStep(s, instance, txt), instance, txt)
  {
  }

  lemma AddrStepEffect(s: Agg, host: Name, ip: IpAddr)
    ensures AddrHeard(s, AddrStep(s, host, ip), host, ip)
  {
    AddGains(AddrsOf(s.hostAddrs, host), ip);
    forall k | k in s.builders
      ensures HeardAddr(s.builders[k], AddTo(s.builders[k], host, ip), host, ip)
    {
      AddGains(s.builders[k].addrs, ip);
    }
  }

  // ----- What the answers say -----

  datatype Facts = Facts(srv: map<Name, (Name, nat)>, txt: map<Name, seq<Bytes>>, addrs: map<Name, Addrs>)

  const NO_FACTS := Facts(map[], map[], map[])

  function LearnSrv(f: Facts, instance: Name, host: Name, port: nat): Facts {
    f.(srv := f.srv[instance := (host, port)])
  }

  function LearnTxt(f: Facts, instance: Name, txt: seq<Bytes>): Facts {
    f.(txt := f.txt[instance := txt])
  }

  function LearnAddr(f: Facts, host: Name, ip: IpAddr): Facts {
    f.(addrs := f.addrs[host := AddrsOf(f.addrs, host).Add(ip)])
  }

  /** The instance as the facts describe it: its last SRV and TXT, and everything known of the SRV's host. */
  function Joined(f: Facts, instance: Name, emitted: bool): Builder {
    var txt := if instance in f.txt then Some(f.txt[instance]) else None;
    if instance in f.srv then
      var (host, port) := f.srv[instance];
      Builder(instance, Some(host), true, port, AddrsOf(f.addrs, host), txt, emitted)
    else
      Builder(instance, None, false, 0, NO_ADDRS, txt, emitted)
  }

  /**
   Coherence: every builder is the join, so one whose SRV names host `h` holds exactly the cached list of `h`;
   the cache is what was learned; and every list is duplicate-free and within the cap.
   */
  ghost predicate Coherent(s: Agg, f: Facts) {
    && s.hostAddrs == f.addrs
    && (forall h :: h in s.hostAddrs ==> s.hostAddrs[h].WellFormed())
    && (forall k :: k in s.builders ==> s.builders[k] == Joined(f, k, s.builders[k].emitted))
    && (forall k :: k in f.srv || k in f.txt ==> k in s.builders)
  }

  /** Surfacing sets one flag, whatever prompted it. */
  lemma EmittedFlag(b: Builder, changed: bool)
    ensures Emitted(b, changed) == b.(emitted := b.emitted || (b.Complete() && b.Finalize().Some?))
  {
  }

  lemma RetargetJoins(b: Builder, f: Facts, k: Name, host: Name, port: nat)
    requires b == Joined(f, k, b.emitted)
    requires AddrsOf(f.addrs, host).WellFormed()
    ensures Retarget(b, host, port, AddrsOf(f.addrs, host)) == Joined(LearnSrv(f, k, host, port), k, b.emitted)
  {
    AdoptIsCopy(AddrsOf(f.addrs, host));
  }

  lemma AddJoins(b: Builder, f: Facts, k: Name, host: Name, ip: IpAddr)
    requires b == Joined(f, k, b.emitted)
    ensures AddTo(b, host, ip) == Joined(LearnAddr(f, host, ip), k, AddTo(b, host, ip).emitted)
    ensures AddTo(b, host, ip).emitted ==
      (b.emitted || (b.host == Some(host) && b.addrs.Add(ip) != b.addrs && AddTo(b, host, ip).Complete()))
  {
    EmittedFlag(b.(addrs := b.addrs.Add(ip)), true);
  }

  lemma AddWellFormed(a: Addrs, ip: IpAddr)
    requires a.WellFormed()
    ensures a.Add(ip).WellFormed() && !a.Add(ip).Empty()
  {
    match ip
    case V4(x) => PushCappedListed(a.ipv4, x);
    case V6(x) => PushCappedListed(a.ipv6, x);
  }

  /** What is learned of one instance says nothing about another. */
  lemma LearnElsewhere(f: Facts, instance: Name, srv: (Name, nat), txt: seq<Bytes>, k: Name, emitted: bool)
    requires k != instance
    ensures Joined(LearnSrv(f, instance, srv.0, srv.1), k, emitted) == Joined(f, k, emitted)
    ensures Joined(LearnTxt(f, instance, txt), k, emitted) == Joined(f, k, emitted)
  {
  }

  lemma PtrKeepsCoherence(s: Agg, f: Facts, instance: Name, maxEntries: nat)
    requires Coherent(s, f)
    ensures Coherent(PtrStep(s, instance, maxEntries), f)
  {
  }

  /** Through any retargeting, with the SRV before or after the addresses. */
  lemma SrvKeepsCoherence(s: Agg, f: Facts, instance: Name, host: Name, port: nat, maxHosts: nat)
    requires Coherent(s, f)
    ensures Coherent(SrvStep(s, instance, host, port, maxHosts),
                     if instance in s.builders then LearnSrv(f, instance, host, port) else f)
  {
    if instance in s.builders {
      var b, g := s.builders[instance], LearnSrv(f, instance, host, port);
      var after := SrvStep(s, instance, host, port, maxHosts);
      RetargetJoins(b, f, instance, host, port);
      EmittedFlag(Retarget(b, host, port, AddrsOf(s.hostAddrs, host)), SrvChanges(b, host, port));
      forall k | k in after.builders && k != instance
        ensures after.builders[k] == Joined(g, k, after.builders[k].emitted)
      {
        LearnElsewhere(f, instance, (host, port), [], k, s.builders[k].emitted);
      }
    }
  }

  lemma TxtKeepsCoherence(s: Agg, f: Facts, instance: Name, txt: seq<Bytes>)
    requires Coherent(s, f)
    ensures Coherent(TxtStep(s, instance, txt), if instance in s.builders then LearnTxt(f, instance, txt) else f)
  {
    if instance in s.builders {
      var b, g := s.builders[instance], LearnTxt(f, instance, txt);
      var after := TxtStep(s, instance, txt);
      EmittedFlag(b.(txt := Some(txt)), b.txt != Some(txt));
      forall k | k in after.builders && k != instance
        ensures after.builders[k] == Joined(g, k, after.builders[k].emitted)
      {
        LearnElsewhere(f, instance, ("", 0), txt, k, s.builders[k].emitted);
      }
    }
  }

  lemma AddrKeepsCoherence(s: Agg, f: Facts, host: Name, ip: IpAddr)
    requires Coherent(s, f)
    ensures Coherent(AddrStep(s, host, ip), LearnAddr(f, host, ip))
  {
    var after, g := AddrStep(s, host, ip), LearnAddr(f, host, ip);
    AddWellFormed(AddrsOf(s.hostAddrs, host), ip);
    forall k | k in after.builders
      ensures after.builders[k] == Joined(g, k, after.builders[k].emitted)
    {
      AddJoins(s.builders[k], f, k, host, ip);
    }
  }

  /** One builder hears of its host and of an address there in either order with the same result. */
  lemma RetargetAndAddCommute(b: Builder, f: Facts, k: Name, host: Name, port: nat, ip: IpAddr)
    requires b == Joined(f, k, b.emitted) && AddrsOf(f.addrs, host).WellFormed()
    ensures var known := AddrsOf(f.addrs, host);
      var a := AddTo(b, host, ip);
      AddTo(Emitted(Retarget(b, host, port, known), SrvChanges(b, host, port)), host, ip) ==
      Emitted(Retarget(a, host, port, known.Add(ip)), SrvChanges(a, host, port))
  {
    var known, a := AddrsOf(f.addrs, host), AddTo(b, host, ip);
    var g := LearnAddr(f, host, ip);
    AddWellFormed(known, ip);
    AddJoins(b, f, k, host, ip);
    RetargetJoins(b, f, k, host, port);
    RetargetJoins(a, g, k, host, port);
    var r, c := Retarget(b, host, port, known), Retarget(a, host, port, known.Add(ip));
    EmittedFlag(r, SrvChanges(b, host, port));
    EmittedFlag(c, SrvChanges(a, host, port));
    var e := Emitted(r, SrvChanges(b, host, port));
    EmittedFlag(e.(addrs := e.addrs.Add(ip)), true);
    assert r.addrs == known && c.addrs == known.Add(ip);
  }

  lemma BuildersCommute(s: Agg, f: Facts, instance: Name, host: Name, port: nat, ip: IpAddr)
    requires AddrsOf(s.hostAddrs, host).WellFormed() && s.hostAddrs == f.addrs
    requires instance in s.builders ==> s.builders[instance] == Joined(f, instance, s.builders[instance].emitted)
    ensures AddedTo(SrvBuilders(s, instance, host, port), host, ip) ==
            SrvBuilders(AddrStep(s, host, ip), instance, host, port)
  {
    if instance in s.builders {
      RetargetAndAddCommute(s.builders[instance], f, instance, host, port, ip);
    }
  }

  /** Once a host is being queried, an SRV naming it and an address of it may arrive in either order. */
  lemma SrvAndAddressCommute(s: Agg, f: Facts, instance: Name, host: Name, port: nat, ip: IpAddr, maxHosts: nat)
    requires Coherent(s, f) && host in s.hostsQueried
    ensures AddrStep(SrvStep(s, instance, host, port, maxHosts), host, ip) ==
            SrvStep(AddrStep(s, host, ip), instance, host, port, maxHosts)
  {
    BuildersCommute(s, f, instance, host, port, ip);
  }

  // ----- Emission -----

  /** `b` became `c` in a way the consumer must be told about: it is complete, and new or different. */
  predicate Announces(b: Builder, c: Builder) {
    && c.hasSrv && c.host.Some? && c.txt.Some? && (c.addrs.ipv4 != [] || c.addrs.ipv6 != [])
    && (!b.emitted || b.host != c.host || b.port != c.port || b.addrs != c.addrs || b.txt != c.txt)
  }

  /** The last snapshot of an instance in a list of them. */
  function Latest(entries: seq<ServiceEntry>, instance: Name): Option<ServiceEntry> {
    if entries == [] then None
    else if entries[|entries| - 1].instance == instance then Some(entries[|entries| - 1])
    else Latest(entries[..|entries| - 1], instance)
  }

  /**
   Freshness: a complete builder has been surfaced and its latest snapshot is what it says now; one never
   surfaced has no snapshot; one that was has its SRV and TXT; and every snapshot is of a tracked instance and
   carries an address.
   */
  ghost predicate Fresh(builders: map<Name, Builder>, entries: seq<ServiceEntry>) {
    && (forall k :: k in builders && builders[k].Complete() ==>
          builders[k].emitted && Latest(entries, k) == builders[k].Finalize())
    && (forall k :: k in builders && !builders[k].emitted ==> Latest(entries, k) == None)
    && (forall k :: k in builders && builders[k].emitted ==>
          Latest(entries, k).Some? && builders[k].hasSrv && builders[k].txt.Some?)
    && (forall e :: e in entries ==> e.instance in builders && !e.addrs.Empty())
  }

  lemma {:induction false} LatestAppend(entries: seq<ServiceEntry>, news: seq<ServiceEntry>, instance: Name)
    ensures Latest(entries + news, instance) ==
      if Latest(news, instance).Some? then Latest(news, instance) else Latest(entries, instance)
  {
    if news == [] {
      assert entries + news == entries;
    } else {
      var n := |news| - 1;
      assert (entries + news)[..|entries| + n] == entries + news[..n];
      LatestAppend(entries, news[..n], instance);
    }
  }

  lemma {:induction false} LatestIsMember(entries: seq<ServiceEntry>, instance: Name)
    ensures Latest(entries, instance).Some? ==>
      Latest(entries, instance).value in entries && Latest(entries, instance).value.instance == instance
    ensures Latest(entries, instance).None? ==> forall i :: 0 <= i < |entries| ==> entries[i].instance != instance
  {
    if entries != [] {
      LatestIsMember(entries[..|entries| - 1], instance);
    }
  }

  /** An SRV surfaces its instance exactly when the instance must be announced. */
  lemma RetargetAnnounces(b: Builder, f: Facts, k: Name, host: Name, port: nat)
    requires b == Joined(f, k, b.emitted) && AddrsOf(f.addrs, host).WellFormed()
    ensures var r, changed := Retarget(b, host, port, AddrsOf(f.addrs, host)), SrvChanges(b, host, port);
      && (Surfaces(r, changed) <==> Announces(b, Emitted(r, changed)))
      && Follows(b, Emitted(r, changed))
  {
    RetargetJoins(b, f, k, host, port);
  }

  lemma TxtAnnounces(b: Builder, f: Facts, k: Name, txt: seq<Bytes>)
    requires b == Joined(f, k, b.emitted)
    ensures var r, changed := b.(txt := Some(txt)), b.txt != Some(txt);
      && (Surfaces(r, changed) <==> Announces(b, Emitted(r, changed)))
      && Follows(b, Emitted(r, changed))
  {
  }

  lemma AddAnnounces(b: Builder, f: Facts, k: Name, host: Name, ip: IpAddr)
    requires b == Joined(f, k, b.emitted) && (b.Complete() ==> b.emitted)
    ensures var c := AddTo(b, host, ip);
      && (Announces(b, c) <==>
          b.host == Some(host) && b.addrs.Add(ip) != b.addrs && Surfaces(b.(addrs := b.addrs.Add(ip)), true))
      && Follows(b, c)
  {
  }

  /** What a step may do to a builder besides announcing it. */
  ghost predicate Follows(b: Builder, c: Builder) {
    && c.instance == b.instance
    && (b.hasSrv <==> b.host.Some?) && (c.hasSrv <==> c.host.Some?)
    && (b.emitted ==> c.emitted) && (b.hasSrv ==> c.hasSrv) && (b.txt.Some? ==> c.txt.Some?)
    && (c.emitted && !b.emitted ==> c.Complete())
  }

  /** The snapshots after `b` became `c`: one more exactly when the change must be announced. */
  function Tell(entries: seq<ServiceEntry>, b: Builder, c: Builder): seq<ServiceEntry> {
    if Announces(b, c) && c.Finalize().Some? then entries + [c.Finalize().value] else entries
  }

  /** Telling the consumer of each change that must be announced is enough to keep its view fresh. */
  lemma TellingKeepsFresh(builders: map<Name, Builder>, entries: seq<ServiceEntry>, k: Name, c: Builder)
    requires Fresh(builders, entries) && k in builders && builders[k].instance == k
    requires Follows(builders[k], c)
    requires Announces(builders[k], c) ==> c.emitted
    ensures Fresh(builders[k := c], Tell(entries, builders[k], c))
  {
    var b, after := builders[k], Tell(entries, builders[k], c);
    LatestIsMember(entries, k);
    forall m
      ensures Latest(after, m) == if m == k && Announces(b, c) then c.Finalize() else Latest(entries, m)
    {
      if Announces(b, c) { assert after[..|after| - 1] == entries; }
    }
  }

  /** An instance surfaced before is shown as it is exactly while it is complete. */
  lemma StaleIffIncomplete(s: Agg, f: Facts, entries: seq<ServiceEntry>, instance: Name)
    requires Coherent(s, f) && Fresh(s.builders, entries)
    requires instance in s.builders && s.builders[instance].emitted
    ensures Latest(entries, instance) == s.builders[instance].Finalize() <==> s.builders[instance].Complete()
  {
    LatestIsMember(entries, instance);
  }

  // ----- The coalescing queue -----

  function Enqueue(queue: seq<ServiceEntry>, entry: ServiceEntry): seq<ServiceEntry> {
    if queue == [] then [entry]
    else if queue[0].instance == entry.instance then [entry] + queue[1..]
    else [queue[0]] + Enqueue(queue[1..], entry)
  }

  ghost predicate OnePerInstance(queue: seq<ServiceEntry>) {
    forall i, j :: 0 <= i < j < |queue| ==> queue[i].instance != queue[j].instance
  }

  lemma {:induction false} EnqueueHas(queue: seq<ServiceEntry>, entry: ServiceEntry, e: ServiceEntry)
    requires OnePerInstance(queue)
    ensures e in Enqueue(queue, entry) <==> e == entry || (e in queue && e.instance != entry.instance)
  {
    if queue != [] {
      var rest := queue[1..];
      assert queue == [queue[0]] + rest;
      assert forall i :: 0 <= i < |rest| ==> rest[i] == queue[i + 1];
      if queue[0].instance != entry.instance { EnqueueHas(rest, entry, e); }
    }
  }

  lemma {:induction false} EnqueueKeepsOne(queue: seq<ServiceEntry>, entry: ServiceEntry)
    requires OnePerInstance(queue)
    ensures OnePerInstance(Enqueue(queue, entry))
  {
    if queue != [] {
      var rest := queue[1..];
      assert forall i :: 0 <= i < |rest| ==> rest[i] == queue[i + 1];
      if queue[0].instance != entry.instance {
        EnqueueKeepsOne(rest, entry);
        var kept := Enqueue(rest, entry);
        forall i | 0 <= i < |kept|
          ensures kept[i].instance != queue[0].instance
        {
          EnqueueHas(rest, entry, kept[i]);
        }
      }
    }
  }

  lemma {:induction false} EnqueueLatest(queue: seq<ServiceEntry>, entry: ServiceEntry, k: Name)
    requires OnePerInstance(queue)
    ensures Latest(Enqueue(queue, entry), k) == if k == entry.instance then Some(entry) else Latest(queue, k)
  {
    if queue != [] {
      var rest := queue[1..];
      assert queue == [queue[0]] + rest;
      LatestAppend([queue[0]], rest, k);
      if queue[0].instance == entry.instance {
        LatestAppend([entry], rest, k);
        LatestIsMember(rest, k);
      } else {
        EnqueueLatest(rest, entry, k);
        LatestAppend([queue[0]], Enqueue(rest, entry), k);
      }
    }
  }

  /** Coalescing replaces the pending snapshot of one instance and disturbs no other. */
  lemma EnqueueEffect(queue: seq<ServiceEntry>, entry: ServiceEntry)
    requires OnePerInstance(queue)
    ensures OnePerInstance(Enqueue(queue, entry))
    ensures forall e :: e in Enqueue(queue, entry) <==> e == entry || (e in queue && e.instance != entry.instance)
    ensures forall k :: Latest(Enqueue(queue, entry), k) == if k == entry.instance then Some(entry) else Latest(queue, k)
  {
    EnqueueKeepsOne(queue, entry);
    forall e
      ensures e in Enqueue(queue, entry) <==> e == entry || (e in queue && e.instance != entry.instance)
    {
      EnqueueHas(queue, entry, e);
    }
    forall k
      ensures Latest(Enqueue(queue, entry), k) == if k == entry.instance then Some(entry) else Latest(queue, k)
    {
      EnqueueLatest(queue, entry, k);
    }
  }

  /** Coalescing hides nothing: whatever came before the queue, the latest snapshot of each instance is kept. */
  lemma CoalescingKeepsLatest(taken: seq<ServiceEntry>, queue: seq<ServiceEntry>, entry: ServiceEntry, instance: Name)
    requires OnePerInstance(queue)
    ensures Latest(taken + Enqueue(queue, entry), instance) == Latest(taken + queue + [entry], instance)
  {
    EnqueueEffect(queue, entry);
    LatestAppend(taken, Enqueue(queue, entry), instance);
    LatestAppend(taken, queue, instance);
    LatestAppend(taken + queue, [entry], instance);
  }
}
