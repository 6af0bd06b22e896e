/** The lookup task, the queue it shares with the handle, and what the consumer ends up holding. */
module BrowseDriver {
  import opened Answers
  import opened HostAddresses
  import opened Resolving
  import opened ServiceDiscovery
  import opened Browsing

  class LookupQueue {
    var ready: seq<ServiceEntry>
    var done: bool
    var dropped: nat

    constructor ()
      ensures ready == [] && !done && dropped == 0
    {
      ready, done, dropped := [], false, 0;
    }

    /** A newer snapshot of an instance replaces the pending one where it stands. */
    method Enqueue(entry: ServiceEntry)
      modifies this`ready
      ensures ready == Resolving.Enqueue(old(ready), entry)
    {
      var i := 0;
      while i < |ready| && ready[i].instance != entry.instance
        invariant i <= |ready|
        invariant forall j :: 0 <= j < i ==> ready[j].instance != entry.instance
      {
        i := i + 1;
      }
      EnqueueAt(ready, entry, i);
      if i < |ready| {
        ready := ready[i := entry];
      } else {
        ready := ready + [entry];
      }
    }

    method TakeOldest() returns (oldest: ServiceEntry)
      requires ready != []
      modifies this`ready
      ensures oldest == old(ready)[0] && ready == old(ready)[1..]
    {
      oldest, ready := ready[0], ready[1..];
    }
  }

  /** Where a snapshot goes: over the first pending one of its instance, or at the end. */
  lemma {:induction false} EnqueueAt(queue: seq<ServiceEntry>, entry: ServiceEntry, i: nat)
    requires i <= |queue| && forall j :: 0 <= j < i ==> queue[j].instance != entry.instance
    requires i < |queue| ==> queue[i].instance == entry.instance
    ensures Resolving.Enqueue(queue, entry) == if i < |queue| then queue[i := entry] else queue + [entry]
  {
    if i > 0 {
      var rest := queue[1..];
      assert forall j :: 0 <= j < |rest| ==> rest[j] == queue[j + 1];
      EnqueueAt(rest, entry, i - 1);
    }
  }

  /** The aggregation after one answer: the step picks the handler, and a record of another type is ignored. */
  function Fed(s: Agg, step: Step, record: Record, cap: nat): Agg {
    match (step, record)
    case (PtrQuery, PtrRecord(target)) => PtrStep(s, target, cap)
    case (SrvQuery(instance), SrvRecord(host, port)) => SrvStep(s, instance, host, port, cap)
    case (TxtQuery(instance), TxtRecord(txt)) => TxtStep(s, instance, txt)
    case (AQuery(host), AddrRecord(V4(a))) => AddrStep(s, host, V4(a))
    case (AaaaQuery(host), AddrRecord(V6(a))) => AddrStep(s, host, V6(a))
    case _ => s
  }

  /** What an answer does, by the step it was asked under: a record of another type does nothing. */
  ghost predicate Heard(s: Agg, t: Agg, step: Step, record: Record, cap: nat, starts: seq<Step>) {
    match (step, record)
    case (PtrQuery, PtrRecord(target)) => PtrHeard(s, t, target, cap, starts)
    case (SrvQuery(instance), SrvRecord(host, port)) => SrvHeard(s, t, instance, host, port, cap, starts)
    case (TxtQuery(instance), TxtRecord(txt)) => TxtHeard(s, t, instance, txt) && starts == []
    case (AQuery(host), AddrRecord(V4(a))) => AddrHeard(s, t, host, V4(a)) && starts == []
    case (AaaaQuery(host), AddrRecord(V6(a))) => AddrHeard(s, t, host, V6(a)) && starts == []
    case _ => t == s && starts == []
  }

  lemma FedIsHeard(s: Agg, f: Facts, step: Step, record: Record, cap: nat)
    requires Coherent(s, f)
    ensures Heard(s, Fed(s, step, record, cap), step, record, cap, StartsOf(s, step, record, cap))
  {
    match (step, record)
    case (PtrQuery, PtrRecord(target)) => PtrStepEffect(s, target, cap);
    case (SrvQuery(instance), SrvRecord(host, port)) => SrvStepEffect(s, f, instance, host, port, cap);
    case (TxtQuery(instance), TxtRecord(txt)) => TxtStepEffect(s, instance, txt);
    case (AQuery(host), AddrRecord(V4(a))) => AddrStepEffect(s, host, V4(a));
    case (AaaaQuery(host), AddrRecord(V6(a))) => AddrStepEffect(s, host, V6(a));
    case _ =>
  }

  /** The instance or host a sub-query asks about is one the aggregation tracks. */
  predicate Tracked(s: Agg, step: Step) {
    match step
    case PtrQuery => true
    case SrvQuery(instance) => instance in s.builders
    case TxtQuery(instance) => instance in s.builders
    case AQuery(host) => host in s.hostsQueried
    case AaaaQuery(host) => host in s.hostsQueried
  }

  /** What the lookup has started is about what it tracks, and bounded by it. */
  ghost predicate Bounded(s: Agg, streams: seq<Step>) {
    && (forall step :: step in streams ==> Tracked(s, step))
    && s.hostAddrs.Keys <= s.hostsQueried
    && |streams| <= 1 + 2 * |s.builders| + 2 * |s.hostsQueried|
  }

  lemma FedKeepsBounds(s: Agg, streams: seq<Step>, step: Step, record: Record, cap: nat)
    requires Bounded(s, streams) && step in streams
    ensures Bounded(Fed(s, step, record, cap), streams + StartsOf(s, step, record, cap))
  {
    assert Tracked(s, step);
    match (step, record)
    case (PtrQuery, PtrRecord(target)) => PtrKeepsBounds(s, streams, target, cap);
    case (SrvQuery(instance), SrvRecord(host, port)) => SrvKeepsBounds(s, streams, instance, host, port, cap);
    case _ =>
      assert streams + [] == streams;
      LeafKeepsBounds(s, streams, step, record, cap);
  }

  lemma PtrKeepsBounds(s: Agg, streams: seq<Step>, target: Name, cap: nat)
    requires Bounded(s, streams)
    ensures Bounded(PtrStep(s, target, cap), streams + StartsOf(s, PtrQuery, PtrRecord(target), cap))
  {
  }

  lemma SrvKeepsBounds(s: Agg, streams: seq<Step>, instance: Name, host: Name, port: nat, cap: nat)
    requires Bounded(s, streams)
    ensures Bounded(SrvStep(s, instance, host, port, cap),
                    streams + StartsOf(s, SrvQuery(instance), SrvRecord(host, port), cap))
  {
    var after := SrvStep(s, instance, host, port, cap);
    var starts := StartsOf(s, SrvQuery(instance), SrvRecord(host, port), cap);
    assert after.builders.Keys == s.builders.Keys;
    assert |after.builders| == |after.builders.Keys| == |s.builders|;
    forall step | step in streams + starts
      ensures Tracked(after, step)
    {
      assert step in streams ==> Tracked(s, step);
    }
  }

  lemma FedKeepsBuilders(s: Agg, step: Step, record: Record, cap: nat)
    ensures s.builders.Keys <= Fed(s, step, record, cap).builders.Keys
  {
  }

  /** The answers that ask for nothing further. */
  lemma LeafKeepsBounds(s: Agg, streams: seq<Step>, step: Step, record: Record, cap: nat)
    requires Bounded(s, streams) && Tracked(s, step)
    requires !(step.PtrQuery? && record.PtrRecord?) && !(step.SrvQuery? && record.SrvRecord?)
    ensures Bounded(Fed(s, step, record, cap), streams)
  {
    var after := Fed(s, step, record, cap);
    assert after.builders.Keys == s.builders.Keys;
    assert |after.builders| == |after.builders.Keys| == |s.builders|;
  }

  /** The follow-up sub-queries one answer asks for. */
  function StartsOf(s: Agg, step: Step, record: Record, cap: nat): seq<Step> {
    match (step, record)
    case (PtrQuery, PtrRecord(target)) =>
      if target in s.builders || |s.builders| >= cap then [] else [SrvQuery(target), TxtQuery(target)]
    case (SrvQuery(_), SrvRecord(host, _)) =>
      if QueriesHost(s, host, cap) then [AQuery(host), AaaaQuery(host)] else []
    case _ => []
  }

  lemma {:induction false} InstancesFit(queue: seq<ServiceEntry>, keys: set<Name>)
    requires OnePerInstance(queue) && forall e :: e in queue ==> e.instance in keys
    ensures |queue| <= |keys|
  {
    if queue != [] {
      var last := queue[|queue| - 1];
      InstancesFit(queue[..|queue| - 1], keys - {last.instance});
    }
  }

  /** What an answer surfaces is shown once it has joined what is waiting. */
  lemma NewsIsShown(taken: seq<ServiceEntry>, queue: seq<ServiceEntry>, ready: seq<ServiceEntry>,
                    surfaced: seq<ServiceEntry>, news: seq<ServiceEntry>,
                    before: map<Name, Builder>, after: map<Name, Builder>)
    requires ShowAlike(taken + queue + ready, surfaced) && AllTracked(queue + ready, before)
    requires before.Keys <= after.Keys && Fresh(after, surfaced + news)
    ensures ShowAlike(taken + queue + (ready + news), surfaced + news)
    ensures AllTracked(queue + (ready + news), after)
  {
    MoreShowsAlike(taken + queue + ready, surfaced, news);
    assert taken + queue + (ready + news) == (taken + queue + ready) + news;
    MoreTracked(queue + ready, news, surfaced, before, after);
    assert queue + (ready + news) == (queue + ready) + news;
  }

  /** Two lists of snapshots show every instance alike. */
  ghost predicate ShowAlike(a: seq<ServiceEntry>, b: seq<ServiceEntry>) {
    forall k :: Latest(a, k) == Latest(b, k)
  }

  lemma MoreShowsAlike(a: seq<ServiceEntry>, b: seq<ServiceEntry>, news: seq<ServiceEntry>)
    requires ShowAlike(a, b)
    ensures ShowAlike(a + news, b + news)
  {
    forall k
      ensures Latest(a + news, k) == Latest(b + news, k)
    {
      LatestAppend(a, news, k);
      LatestAppend(b, news, k);
    }
  }

  /** Moving one surfaced entry into the queue leaves every instance's latest snapshot alone. */
  lemma MoveKeepsLatest(taken: seq<ServiceEntry>, queue: seq<ServiceEntry>, ready: seq<ServiceEntry>)
    requires ready != [] && OnePerInstance(queue)
    ensures OnePerInstance(Resolving.Enqueue(queue, ready[0]))
    ensures ShowAlike(taken + Resolving.Enqueue(queue, ready[0]) + ready[1..], taken + queue + ready)
  {
    EnqueueEffect(queue, ready[0]);
    assert taken + queue + ready == (taken + queue + [ready[0]]) + ready[1..];
    forall k
      ensures Latest(taken + Resolving.Enqueue(queue, ready[0]) + ready[1..], k) == Latest(taken + queue + ready, k)
    {
      CoalescingKeepsLatest(taken, queue, ready[0], k);
      LatestAppend(taken + Resolving.Enqueue(queue, ready[0]), ready[1..], k);
      LatestAppend(taken + queue + [ready[0]], ready[1..], k);
    }
  }

  /** Every entry is of an instance the resolver tracks. */
  ghost predicate AllTracked(entries: seq<ServiceEntry>, builders: map<Name, Builder>) {
    forall e :: e in entries ==> e.instance in builders
  }

  lemma MoreTracked(entries: seq<ServiceEntry>, news: seq<ServiceEntry>, told: seq<ServiceEntry>,
                   before: map<Name, Builder>, after: map<Name, Builder>)
    requires AllTracked(entries, before) && before.Keys <= after.Keys && Fresh(after, told + news)
    ensures AllTracked(entries + news, after)
  {
    assert forall e :: e in news ==> e in told + news;
  }

  lemma MoveKeepsTracked(queue: seq<ServiceEntry>, ready: seq<ServiceEntry>, builders: map<Name, Builder>)
    requires ready != [] && OnePerInstance(queue) && AllTracked(queue + ready, builders)
    ensures AllTracked(Resolving.Enqueue(queue, ready[0]) + ready[1..], builders)
  {
    EnqueueEffect(queue, ready[0]);
    assert forall e :: e in queue || e in ready ==> e in queue + ready;
  }

  lemma ReadKeepsTracked(queue: seq<ServiceEntry>, ready: seq<ServiceEntry>, builders: map<Name, Builder>)
    requires queue != [] && OnePerInstance(queue) && AllTracked(queue + ready, builders)
    ensures AllTracked(queue[1..] + ready, builders) && OnePerInstance(queue[1..])
  {
    assert forall e :: e in queue[1..] || e in ready ==> e in queue + ready;
  }

  /** What the consumer was given, what is queued and what waits show every instance as the resolver surfaced it. */
  ghost predicate Showing(taken: seq<ServiceEntry>, queue: seq<ServiceEntry>, ready: seq<ServiceEntry>,
                          surfaced: seq<ServiceEntry>, builders: map<Name, Builder>)
  {
    OnePerInstance(queue) && AllTracked(queue + ready, builders) && ShowAlike(taken + queue + ready, surfaced)
  }

  lemma ReadKeepsShowing(taken: seq<ServiceEntry>, queue: seq<ServiceEntry>, ready: seq<ServiceEntry>,
                         surfaced: seq<ServiceEntry>, builders: map<Name, Builder>)
    requires queue != [] && Showing(taken, queue, ready, surfaced, builders)
    ensures Showing(taken + [queue[0]], queue[1..], ready, surfaced, builders)
  {
    ReadKeepsTracked(queue, ready, builders);
    assert taken + queue + ready == (taken + [queue[0]]) + queue[1..] + ready;
  }

  lemma MoveKeepsShowing(taken: seq<ServiceEntry>, queue: seq<ServiceEntry>, ready: seq<ServiceEntry>,
                         surfaced: seq<ServiceEntry>, builders: map<Name, Builder>)
    requires ready != [] && Showing(taken, queue, ready, surfaced, builders)
    ensures Showing(taken, Resolving.Enqueue(queue, ready[0]), ready[1..], surfaced, builders)
  {
    MoveKeepsLatest(taken, queue, ready);
    MoveKeepsTracked(queue, ready, builders);
  }

  /** Of the first `n` starts, those the endpoint takes, in order; whether it takes the `i`-th is `accepts(i)`. */
  function Accepted(starts: seq<Step>, accepts: nat -> bool, n: nat): seq<Step>
    requires n <= |starts|
  {
    if n == 0 then []
    else Accepted(starts, accepts, n - 1) + (if accepts(n - 1) then [starts[n - 1]] else [])
  }

  lemma {:induction false} AcceptedAmong(starts: seq<Step>, accepts: nat -> bool, n: nat)
    requires n <= |starts|
    ensures |Accepted(starts, accepts, n)| <= n
    ensures forall step :: step in Accepted(starts, accepts, n) <==> exists i :: 0 <= i < n && starts[i] == step && accepts(i)
    ensures (forall i :: 0 <= i < n ==> accepts(i)) ==> Accepted(starts, accepts, n) == starts[..n]
  {
    if n > 0 { AcceptedAmong(starts, accepts, n - 1); }
  }

  /** Starting fewer keeps the bound. */
  lemma FewerStarted(s: Agg, streams: seq<Step>, starts: seq<Step>, accepts: nat -> bool)
    requires Bounded(s, streams + starts)
    ensures Bounded(s, streams + Accepted(starts, accepts, |starts|))
  {
    AcceptedAmong(starts, accepts, |starts|);
    forall step | step in streams + Accepted(starts, accepts, |starts|)
      ensures Tracked(s, step)
    {
      assert step in streams + starts;
    }
  }

  class LookupTask {
    const resolver: Resolver
    const queue: LookupQueue
    /** Every sub-query ever started, in order. */
    var streams: seq<Step>
    /** Every entry the consumer has been given, in order. */
    ghost var taken: seq<ServiceEntry>

    ghost predicate Consistent()
      reads this, resolver, queue
    {
      && resolver.Valid() && resolver.maxHosts == resolver.maxEntries
      && Bounded(resolver.Model(), streams)
      && Showing(taken, queue.ready, resolver.ready, resolver.surfaced, resolver.builders)
    }

    ghost predicate Valid()
      reads this, resolver, queue
    {
      Consistent() && resolver.ready == []
    }

    constructor (maxEntries: nat)
      ensures Valid() && taken == [] && streams == [PtrQuery]
      ensures resolver.Model() == Agg(map[], map[], {}) && resolver.maxEntries == maxEntries
      ensures fresh(resolver) && fresh(queue) && queue.ready == []
    {
      resolver := new Resolver(maxEntries);
      queue := new LookupQueue();
      streams, taken := [PtrQuery], [];
    }

    /**
     What the consumer can rely on after every answer and every read: the last snapshot of a complete
     instance, read or pending, is its current state; and the queue is no longer than the instances tracked.
     */
    lemma ConsumerIsCurrent(instance: Name)
      requires Valid()
      ensures instance in resolver.builders ==>
        var b := resolver.builders[instance];
        b.hasSrv && b.host.Some? && b.txt.Some? && (b.addrs.ipv4 != [] || b.addrs.ipv6 != []) ==>
          Latest(taken + queue.ready, instance) ==
            Some(ServiceEntry(instance, b.host.value, b.port, b.addrs, b.txt.value))
      ensures Latest(taken + queue.ready, instance).Some? ==>
        && instance in resolver.builders && resolver.builders[instance].hasSrv && resolver.builders[instance].txt.Some?
        && var shown := Latest(taken + queue.ready, instance).value.addrs; shown.ipv4 != [] || shown.ipv6 != []
      ensures |queue.ready| <= |resolver.builders| <= resolver.maxEntries
      ensures |streams| <= 4 * resolver.maxEntries + 1
    {
      assert taken + queue.ready + [] == taken + queue.ready;
      InstancesFit(queue.ready, resolver.builders.Keys);
      LatestIsMember(resolver.surfaced, instance);
    }

    /** Decodes nothing itself: the step an answer was asked under picks the handler. */
    method Feed(step: Step, record: Record) returns (starts: seq<Step>, ghost news: seq<ServiceEntry>)
      requires resolver.Valid() && resolver.maxHosts == resolver.maxEntries
      modifies resolver
      ensures resolver.Valid()
      ensures resolver.Model() == Fed(old(resolver.Model()), step, record, resolver.maxEntries)
      ensures starts == StartsOf(old(resolver.Model()), step, record, resolver.maxEntries)
      ensures resolver.ready == old(resolver.ready) + news && resolver.surfaced == old(resolver.surfaced) + news
    {
      starts, news := [], [];
      if step.PtrQuery? && record.PtrRecord? {
        starts := resolver.OnPtr(record.target);
      } else if step.SrvQuery? && record.SrvRecord? {
        news := SrvNews(resolver.Model(), step.instance, record.host, record.port);
        starts := resolver.OnSrv(step.instance, record.host, record.port);
      } else {
        news := FeedLeaf(step, record);
      }
    }

    /** The answers that ask for nothing further. */
    method FeedLeaf(step: Step, record: Record) returns (ghost news: seq<ServiceEntry>)
      requires resolver.Valid()
      requires !(step.PtrQuery? && record.PtrRecord?) && !(step.SrvQuery? && record.SrvRecord?)
      modifies resolver
      ensures resolver.Valid()
      ensures resolver.Model() == Fed(old(resolver.Model()), step, record, resolver.maxEntries)
      ensures resolver.ready == old(resolver.ready) + news && resolver.surfaced == old(resolver.surfaced) + news
    {
      news := [];
      if step.TxtQuery? && record.TxtRecord? {
        news := TxtNews(resolver.Model(), step.instance, record.txt);
        resolver.OnTxt(step.instance, record.txt);
      } else if record.AddrRecord? && ((step.AQuery? && record.ip.V4?) || (step.AaaaQuery? && record.ip.V6?)) {
        news := FeedAddr(step.host, record.ip);
      }
    }

    method FeedAddr(host: Name, ip: IpAddr) returns (ghost news: seq<ServiceEntry>)
      requires resolver.Valid()
      modifies resolver
      ensures resolver.Valid() && resolver.Model() == AddrStep(old(resolver.Model()), host, ip)
      ensures resolver.ready == old(resolver.ready) + news && resolver.surfaced == old(resolver.surfaced) + news
    {
      ghost var before := resolver.builders;
      ghost var visited := resolver.OnAddr(host, ip);
      news := AddrNews(before, visited, host, ip);
    }

    /** Aggregates one answer. What it completed is not in the queue yet, and what it asks for not started. */
    method Absorb(step: Step, record: Record) returns (starts: seq<Step>)
      requires Valid() && step in streams
      modifies resolver
      ensures resolver.Valid() && resolver.maxHosts == resolver.maxEntries
      ensures Showing(taken, queue.ready, resolver.ready, resolver.surfaced, resolver.builders)
      ensures Bounded(resolver.Model(), streams + starts)
      ensures resolver.Model() == Fed(old(resolver.Model()), step, record, resolver.maxEntries)
      ensures starts == StartsOf(old(resolver.Model()), step, record, resolver.maxEntries)
    {
      ghost var before, surfaced, ready, news := resolver.Model(), resolver.surfaced, resolver.ready, [];
      starts, news := Feed(step, record);
      FedKeepsBounds(before, streams, step, record, resolver.maxEntries);
      FedKeepsBuilders(before, step, record, resolver.maxEntries);
      NewsIsShown(taken, queue.ready, ready, surfaced, news, before.builders, resolver.builders);
    }

    /** Aggregates one answer and starts what it asks for. */
    method Learn(step: Step, record: Record, accepts: nat -> bool)
      requires Valid() && step in streams
      modifies this`streams, resolver
      ensures Consistent()
      ensures resolver.Model() == Fed(old(resolver.Model()), step, record, resolver.maxEntries)
      ensures var starts := StartsOf(old(resolver.Model()), step, record, resolver.maxEntries);
        streams == old(streams) + Accepted(starts, accepts, |starts|)
    {
      var starts := Absorb(step, record);
      FewerStarted(resolver.Model(), streams, starts, accepts);
      Launch(starts, accepts);
    }

    /** One answer: aggregate it, start what it asks for, and hand what it completed to the consumer. */
    method Process(step: Step, record: Record, accepts: nat -> bool)
      requires Valid() && step in streams
      modifies this, resolver, queue
      ensures Valid() && taken == old(taken)
      ensures resolver.Model() == Fed(old(resolver.Model()), step, record, resolver.maxEntries)
      ensures var starts := StartsOf(old(resolver.Model()), step, record, resolver.maxEntries);
        streams == old(streams) + Accepted(starts, accepts, |starts|)
    {
      Learn(step, record, accepts);
      Flush();
    }

    /** A start the endpoint refuses is skipped; the rest are still attempted. */
    method Launch(starts: seq<Step>, accepts: nat -> bool)
      modifies this`streams
      ensures streams == old(streams) + Accepted(starts, accepts, |starts|)
    {
      for i := 0 to |starts|
        invariant streams == old(streams) + Accepted(starts, accepts, i)
      {
        if accepts(i) { streams := streams + [starts[i]]; }
      }
    }

    method MoveOne()
      requires Consistent() && resolver.ready != []
      modifies resolver`ready, queue`ready
      ensures Consistent() && |resolver.ready| == |old(resolver.ready)| - 1
    {
      MoveKeepsShowing(taken, queue.ready, resolver.ready, resolver.surfaced, resolver.builders);
      var entry := resolver.TakeReady();
      queue.Enqueue(entry.value);
    }

    /** Moves every newly surfaced entry into the shared queue. */
    method Flush()
      requires Consistent()
      modifies resolver`ready, queue
      ensures Valid() && queue.dropped == resolver.dropped
    {
      while resolver.ready != []
        invariant Consistent()
        decreases |resolver.ready|
      {
        MoveOne();
      }
      queue.dropped := resolver.dropped;
    }

    /** The handle's read: the oldest pending entry, if any. */
    method Next() returns (entry: Option<ServiceEntry>)
      requires Valid()
      modifies this`taken, queue
      ensures Valid()
      ensures old(queue.ready) == [] ==> entry == None && taken == old(taken)
      ensures old(queue.ready) != [] ==>
        entry == Some(old(queue.ready)[0]) && taken == old(taken) + [entry.value] && queue.ready == old(queue.ready)[1..]
    {
      if queue.ready == [] {
        return None;
      }
      ReadKeepsShowing(taken, queue.ready, resolver.ready, resolver.surfaced, resolver.builders);
      taken := taken + [queue.ready[0]];
      var oldest := queue.TakeOldest();
      entry := Some(oldest);
    }
  }
}
