/**
 One running lookup of the synchronous driver (hick-mio/src/discovery.rs), as a value: what each answer does to
 the aggregation, and what holds after any of them.

 Unlike the async resolver this one reports an instance once, inside a deadline, and starts nothing itself: it
 asks, through `pending`, and the driver starts what the window still allows.
 */
module LookupStates {
  import opened Answers
  import opened Basics
  import opened HostAddresses
  import opened ServiceDiscovery
  import R = Resolving
  import B = BrowseDriver

  /** `instance` is absent for a bare host resolve, whose identity is the host itself. */
  datatype Partial = Partial(instance: Option<Name>, host: Option<Name>, hasSrv: bool, port: nat, addrs: Addrs,
                             txt: Option<seq<Bytes>>, emitted: bool) {
    function SetSrv(target: Name, targetPort: nat): Partial {
      this.(host := Some(target), hasSrv := true, port := targetPort,
            addrs := if host == Some(target) then addrs else NO_ADDRS)
    }

    function Adopt(cached: Addrs): Partial {
      this.(addrs := addrs.Adopt(cached))
    }

    function Add(ip: IpAddr): Partial {
      this.(addrs := addrs.Add(ip))
    }

    predicate Complete() {
      hasSrv && txt.Some? && !addrs.Empty() && host.Some?
    }

    /** Complete, and not reported yet. */
    predicate Due() {
      !emitted && Complete()
    }

    predicate Named(key: Name) {
      instance == Some(key) || (instance == None && host == Some(key))
    }

    function Entry(): ServiceEntry
      requires Complete()
    {
      ServiceEntry(if instance.Some? then instance.value else host.value, host.value, port, addrs, txt.value)
    }
  }

  function NewPartial(instance: Option<Name>): Partial {
    Partial(instance, None, false, 0, NO_ADDRS, None, false)
  }

  function HostPartial(host: Name): Partial {
    NewPartial(None).SetSrv(host, 0).(txt := Some([]))
  }

  datatype Ctx = Ctx(generation: nat, deadline: Option<nat>, maxEntries: nat, emitted: nat, launched: nat,
                     partials: map<Name, Partial>, hostAddrs: map<Name, Addrs>, hostsQueried: set<Name>,
                     subqueries: map<QueryHandle, Step>, pending: seq<Step>, ready: seq<ServiceEntry>) {
    predicate Expired(now: nat) {
      deadline.Some? && now >= deadline.value
    }

    predicate Finished(now: nat) {
      emitted >= maxEntries || Expired(now) || (launched > 0 && subqueries == map[] && pending == [])
    }
  }

  function NewCtx(deadline: Option<nat>, maxEntries: nat): Ctx {
    Ctx(0, deadline, maxEntries, 0, 0, map[], map[], {}, map[], [], [])
  }

  // ----- The steps, as the code takes them -----

  function SeedHost(c: Ctx, host: Name): Ctx {
    c.(partials := c.partials[host := HostPartial(host)], hostsQueried := c.hostsQueried + {host},
       pending := c.pending + [AQuery(host), AaaaQuery(host)])
  }

  function AfterPtr(c: Ctx, instance: Name): Ctx {
    if instance in c.partials || |c.partials| >= c.maxEntries then c
    else c.(partials := c.partials[instance := NewPartial(Some(instance))],
            pending := c.pending + [SrvQuery(instance), TxtQuery(instance)])
  }

  function SrvPartials(c: Ctx, instance: Name, host: Name, port: nat): map<Name, Partial> {
    if instance in c.partials
    then c.partials[instance := c.partials[instance].SetSrv(host, port).Adopt(AddrsOf(c.hostAddrs, host))]
    else c.partials
  }

  function AskHost(c: Ctx, host: Name): Ctx {
    if host in c.hostsQueried || |c.hostsQueried| >= c.maxEntries then c
    else c.(hostsQueried := c.hostsQueried + {host}, pending := c.pending + [AQuery(host), AaaaQuery(host)])
  }

  function AfterSrv(c: Ctx, instance: Name, host: Name, port: nat): Ctx {
    AskHost(c.(partials := SrvPartials(c, instance, host, port)), host)
  }

  function AfterTxt(c: Ctx, instance: Name, txt: seq<Bytes>): Ctx {
    if instance in c.partials
    then c.(partials := c.partials[instance := c.partials[instance].(txt := Some(txt))]) else c
  }

  function AddTo(p: Partial, host: Name, ip: IpAddr): Partial {
    if p.host == Some(host) then p.Add(ip) else p
  }

  function AddedTo(partials: map<Name, Partial>, host: Name, ip: IpAddr): map<Name, Partial> {
    map k | k in partials :: AddTo(partials[k], host, ip)
  }

  function AfterAddr(c: Ctx, host: Name, ip: IpAddr): Ctx {
    c.(partials := AddedTo(c.partials, host, ip),
       hostAddrs := c.hostAddrs[host := AddrsOf(c.hostAddrs, host).Add(ip)])
  }

  /** The step an answer was asked under picks the handler; a record of another type is ignored. */
  function Fed(c: Ctx, step: Step, record: Record): Ctx {
    match (step, record)
    case (PtrQuery, PtrRecord(target)) => AfterPtr(c, target)
    case (SrvQuery(instance), SrvRecord(host, port)) => AfterSrv(c, instance, host, port)
    case (TxtQuery(instance), TxtRecord(txt)) => AfterTxt(c, instance, txt)
    case (AQuery(host), AddrRecord(V4(a))) => AfterAddr(c, host, V4(a))
    case (AaaaQuery(host), AddrRecord(V6(a))) => AfterAddr(c, host, V6(a))
    case _ => c
  }

  function AddLeg(c: Ctx, q: QueryHandle, step: Step): Ctx {
    c.(subqueries := c.subqueries[q := step], launched := c.launched + 1)
  }

  function DropLegs(c: Ctx, gone: set<QueryHandle>): Ctx {
    c.(subqueries := c.subqueries - gone)
  }

  function Collect(c: Ctx, k: Name): Ctx
    requires k in c.partials
  {
    if c.partials[k].Due()
    then c.(partials := c.partials[k := c.partials[k].(emitted := true)], emitted := c.emitted + 1,
            ready := c.ready + [c.partials[k].Entry()])
    else c
  }

  /** The walk over the partials, in whatever order their map yields them. */
  function CollectAll(c: Ctx, order: seq<Name>): (d: Ctx)
    requires forall k :: k in order ==> k in c.partials
    ensures d.partials.Keys == c.partials.Keys
  {
    if order == [] then c else Collect(CollectAll(c, order[..|order| - 1]), order[|order| - 1])
  }

  // ----- What each answer does, field by field -----

  /** A PTR: one more instance, of which nothing is known yet, if it is new and there is room. */
  ghost predicate PtrHeard(c: Ctx, d: Ctx, instance: Name) {
    && d.(partials := c.partials, pending := c.pending) == c
    && (forall k :: k in c.partials ==> k in d.partials && d.partials[k] == c.partials[k])
    && if instance !in c.partials && |c.partials| < c.maxEntries then
         && d.partials.Keys == c.partials.Keys + {instance}
         && d.partials[instance] == Partial(Some(instance), None, false, 0, Addrs([], []), None, false)
         && d.pending == c.pending + [SrvQuery(instance), TxtQuery(instance)]
       else d == c
  }

  /** An SRV: the instance has this host and port and that host's known addresses, and keeps the rest. */
  ghost predicate SrvHeard(c: Ctx, d: Ctx, instance: Name, host: Name, port: nat) {
    && d.(partials := c.partials, hostsQueried := c.hostsQueried, pending := c.pending) == c
    && d.partials.Keys == c.partials.Keys
    && (forall k :: k in c.partials && k != instance ==> d.partials[k] == c.partials[k])
    && (instance in c.partials ==>
          var known := if host in c.hostAddrs then c.hostAddrs[host] else Addrs([], []);
          d.partials[instance] ==
            c.partials[instance].(host := Some(host), hasSrv := true, port := port, addrs := known))
    && if host !in c.hostsQueried && |c.hostsQueried| < c.maxEntries then
         d.hostsQueried == c.hostsQueried + {host} && d.pending == c.pending + [AQuery(host), AaaaQuery(host)]
       else d.hostsQueried == c.hostsQueried && d.pending == c.pending
  }

  ghost predicate TxtHeard(c: Ctx, d: Ctx, instance: Name, txt: seq<Bytes>) {
    && d.(partials := c.partials) == c && d.partials.Keys == c.partials.Keys
    && (forall k :: k in c.partials && k != instance ==> d.partials[k] == c.partials[k])
    && (instance in c.partials ==> d.partials[instance] == c.partials[instance].(txt := Some(txt)))
  }

  /** An address: its host's list and every instance on that host gain it, each in its own family. */
  ghost predicate AddrHeard(c: Ctx, d: Ctx, host: Name, ip: IpAddr) {
    && d.(partials := c.partials, hostAddrs := c.hostAddrs) == c && d.partials.Keys == c.partials.Keys
    && d.hostAddrs.Keys == c.hostAddrs.Keys + {host}
    && (forall h :: h in c.hostAddrs && h != host ==> d.hostAddrs[h] == c.hostAddrs[h])
    && Gains(if host in c.hostAddrs then c.hostAddrs[host] else Addrs([], []), d.hostAddrs[host], ip)
    && (forall k :: k in c.partials ==> HeardAddr(c.partials[k], d.partials[k], host, ip))
  }

  predicate HeardAddr(p: Partial, q: Partial, host: Name, ip: IpAddr) {
    if p.host == Some(host) then Gains(p.addrs, q.addrs, ip) && q == p.(addrs := q.addrs) else q == p
  }

  /** By the step it was asked under; a record of another type does nothing. */
  ghost predicate Heard(c: Ctx, d: Ctx, step: Step, record: Record) {
    match (step, record)
    case (PtrQuery, PtrRecord(target)) => PtrHeard(c, d, target)
    case (SrvQuery(instance), SrvRecord(host, port)) => SrvHeard(c, d, instance, host, port)
    case (TxtQuery(instance), TxtRecord(txt)) => TxtHeard(c, d, instance, txt)
    case (AQuery(host), AddrRecord(V4(a))) => AddrHeard(c, d, host, V4(a))
    case (AaaaQuery(host), AddrRecord(V6(a))) => AddrHeard(c, d, host, V6(a))
    case _ => d == c
  }

  lemma AddrIsHeard(c: Ctx, host: Name, ip: IpAddr)
    ensures AddrHeard(c, AfterAddr(c, host, ip), host, ip)
  {
    AddGains(AddrsOf(c.hostAddrs, host), ip);
    forall k | k in c.partials
      ensures HeardAddr(c.partials[k], AddTo(c.partials[k], host, ip), host, ip)
    {
      AddGains(c.partials[k].addrs, ip);
    }
  }

  lemma PtrIsHeard(c: Ctx, instance: Name)
    ensures PtrHeard(c, AfterPtr(c, instance), instance)
  {
    if instance in c.partials || |c.partials| >= c.maxEntries { return; }
    assert AfterPtr(c, instance).partials.Keys == c.partials.Keys + {instance};
  }

  lemma TxtIsHeard(c: Ctx, instance: Name, txt: seq<Bytes>)
    ensures TxtHeard(c, AfterTxt(c, instance, txt), instance, txt)
  {
  }

  lemma SrvIsHeard(c: Ctx, instance: Name, host: Name, port: nat)
    requires AddrsOf(c.hostAddrs, host).WellFormed()
    requires instance in c.partials && c.partials[instance].host == Some(host) ==>
      c.partials[instance].addrs == AddrsOf(c.hostAddrs, host)
    ensures SrvHeard(c, AfterSrv(c, instance, host, port), instance, host, port)
  {
    AdoptIsCopy(AddrsOf(c.hostAddrs, host));
  }

  lemma FedIsHeard(c: Ctx, step: Step, record: Record)
    requires Coherent(c.partials, c.hostAddrs)
    ensures Heard(c, Fed(c, step, record), step, record)
  {
    match (step, record)
    case (PtrQuery, PtrRecord(target)) => PtrIsHeard(c, target);
    case (SrvQuery(instance), SrvRecord(host, port)) => SrvIsHeard(c, instance, host, port);
    case (TxtQuery(instance), TxtRecord(txt)) => TxtIsHeard(c, instance, txt);
    case (AQuery(host), AddrRecord(V4(a))) => AddrIsHeard(c, host, V4(a));
    case (AaaaQuery(host), AddrRecord(V6(a))) => AddrIsHeard(c, host, V6(a));
    case _ =>
  }

  // ----- What holds of a lookup at every moment -----

  /** Every partial holds exactly the cached list of the host its SRV names, duplicate-free and capped. */
  ghost predicate Coherent(partials: map<Name, Partial>, hostAddrs: map<Name, Addrs>) {
    && (forall h :: h in hostAddrs ==> hostAddrs[h].WellFormed())
    && (forall k :: k in partials ==> partials[k].hasSrv == partials[k].host.Some?)
    && (forall k :: k in partials ==>
          partials[k].addrs == if partials[k].host.Some? then AddrsOf(hostAddrs, partials[k].host.value) else NO_ADDRS)
  }

  /** The instance or host a sub-query asks about is one the lookup tracks. */
  predicate Tracked(c: Ctx, step: Step) {
    match step
    case PtrQuery => true
    case SrvQuery(instance) => instance in c.partials && c.partials[instance].instance.Some?
    case TxtQuery(instance) => instance in c.partials && c.partials[instance].instance.Some?
    case AQuery(host) => host in c.hostsQueried
    case AaaaQuery(host) => host in c.hostsQueried
  }

  /** What a lookup has started and still wants to start is bounded by what it tracks, and that by its cap. */
  ghost predicate Bounded(c: Ctx) {
    && |c.partials| <= c.maxEntries && |c.hostsQueried| <= c.maxEntries
    && c.hostAddrs.Keys <= c.hostsQueried
    && c.launched + |c.pending| <= 1 + 2 * |c.partials| + 2 * |c.hostsQueried|
  }

  ghost predicate AsksTracked(c: Ctx) {
    && (forall q :: q in c.subqueries ==> Tracked(c, c.subqueries[q]))
    && (forall i :: 0 <= i < |c.pending| ==> Tracked(c, c.pending[i]))
  }

  ghost predicate KeysNamed(partials: map<Name, Partial>) {
    forall k :: k in partials ==> partials[k].Named(k)
  }

  ghost predicate Sound(c: Ctx) {
    Coherent(c.partials, c.hostAddrs) && Bounded(c) && AsksTracked(c) && KeysNamed(c.partials)
  }

  /** Between two ticks nothing complete is waiting to be reported. */
  ghost predicate Settled(c: Ctx) {
    c.ready == [] && forall k :: k in c.partials ==> !c.partials[k].Due()
  }

  lemma SeedHostKeepsSound(deadline: Option<nat>, maxEntries: nat, host: Name)
    requires maxEntries >= 1
    ensures var c := SeedHost(NewCtx(deadline, maxEntries), host);
      Sound(c) && Settled(c) && c.emitted == 0 && Flagged(c.partials) == {} && c.subqueries == map[]
  {
    var c := SeedHost(NewCtx(deadline, maxEntries), host);
    assert c.partials == map[host := HostPartial(host)];
    assert c.hostsQueried == {host};
  }

  // ----- Each step keeps it -----

  /** Tracking more forgets nothing asked for. */
  lemma AsksMore(c: Ctx, d: Ctx, more: seq<Step>)
    requires AsksTracked(c) && d.subqueries == c.subqueries && d.pending == c.pending + more
    requires c.hostsQueried <= d.hostsQueried
    requires forall k :: k in c.partials ==> k in d.partials && d.partials[k] == c.partials[k]
    requires forall i :: 0 <= i < |more| ==> Tracked(d, more[i])
    ensures AsksTracked(d)
  {
    forall step | Tracked(c, step)
      ensures Tracked(d, step)
    {
    }
  }

  lemma PtrKeepsSound(c: Ctx, instance: Name)
    requires Sound(c)
    ensures Sound(AfterPtr(c, instance))
  {
    var d := AfterPtr(c, instance);
    if d != c { AsksMore(c, d, [SrvQuery(instance), TxtQuery(instance)]); }
  }

  lemma SrvKeepsCoherent(partials: map<Name, Partial>, hostAddrs: map<Name, Addrs>, instance: Name, host: Name, port: nat)
    requires Coherent(partials, hostAddrs) && instance in partials
    ensures Coherent(partials[instance := partials[instance].SetSrv(host, port).Adopt(AddrsOf(hostAddrs, host))], hostAddrs)
  {
    AdoptIsCopy(AddrsOf(hostAddrs, host));
  }

  lemma SrvKeepsSound(c: Ctx, instance: Name, host: Name, port: nat)
    requires Sound(c) && Tracked(c, SrvQuery(instance))
    ensures Sound(AfterSrv(c, instance, host, port))
  {
    SrvKeepsCoherent(c.partials, c.hostAddrs, instance, host, port);
    var d := c.(partials := SrvPartials(c, instance, host, port));
    assert d.partials.Keys == c.partials.Keys;
    AskHostKeepsSound(d, host);
  }

  lemma AskHostKeepsSound(c: Ctx, host: Name)
    requires Sound(c)
    ensures Sound(AskHost(c, host))
  {
    var d := AskHost(c, host);
    if d != c { AsksMore(c, d, [AQuery(host), AaaaQuery(host)]); }
  }

  lemma TxtKeepsSound(c: Ctx, instance: Name, txt: seq<Bytes>)
    requires Sound(c)
    ensures Sound(AfterTxt(c, instance, txt))
  {
    assert AfterTxt(c, instance, txt).partials.Keys == c.partials.Keys;
  }

  lemma AddrKeepsCoherent(partials: map<Name, Partial>, hostAddrs: map<Name, Addrs>, host: Name, ip: IpAddr)
    requires Coherent(partials, hostAddrs)
    ensures Coherent(AddedTo(partials, host, ip), hostAddrs[host := AddrsOf(hostAddrs, host).Add(ip)])
  {
    R.AddWellFormed(AddrsOf(hostAddrs, host), ip);
    var after, known := AddedTo(partials, host, ip), hostAddrs[host := AddrsOf(hostAddrs, host).Add(ip)];
    forall k | k in after
      ensures after[k].addrs == if after[k].host.Some? then AddrsOf(known, after[k].host.value) else NO_ADDRS
    {
      assert partials[k].host == after[k].host;
    }
  }

  ghost predicate SameNames(before: map<Name, Partial>, after: map<Name, Partial>) {
    && before.Keys == after.Keys
    && forall k :: k in before ==> before[k].instance == after[k].instance && before[k].host == after[k].host
  }

  lemma NamesKeepTracked(c: Ctx, partials: map<Name, Partial>)
    requires SameNames(c.partials, partials) && AsksTracked(c) && KeysNamed(c.partials)
    ensures AsksTracked(c.(partials := partials)) && KeysNamed(partials) && |partials| == |c.partials|
  {
    assert |partials.Keys| == |partials|;
    forall step | Tracked(c, step)
      ensures Tracked(c.(partials := partials), step)
    {
    }
  }

  lemma AddrKeepsSound(c: Ctx, host: Name, ip: IpAddr)
    requires Sound(c) && host in c.hostsQueried
    ensures Sound(AfterAddr(c, host, ip))
  {
    AddrKeepsCoherent(c.partials, c.hostAddrs, host, ip);
    NamesKeepTracked(c, AddedTo(c.partials, host, ip));
  }

  /** Any answer, under the step it was asked for: a handler is only ever given an instance or host it tracks. */
  lemma FedKeepsSound(c: Ctx, step: Step, record: Record)
    requires Sound(c) && Tracked(c, step)
    ensures Sound(Fed(c, step, record))
  {
    match (step, record)
    case (PtrQuery, PtrRecord(target)) => PtrKeepsSound(c, target);
    case (SrvQuery(instance), SrvRecord(host, port)) => SrvKeepsSound(c, instance, host, port);
    case (TxtQuery(instance), TxtRecord(txt)) => TxtKeepsSound(c, instance, txt);
    case (AQuery(host), AddrRecord(V4(a))) => AddrKeepsSound(c, host, V4(a));
    case (AaaaQuery(host), AddrRecord(V6(a))) => AddrKeepsSound(c, host, V6(a));
    case _ =>
  }

  // ----- Reporting -----

  function Flagged(partials: map<Name, Partial>): set<Name> {
    set k | k in partials && partials[k].emitted
  }

  function Names(entries: seq<ServiceEntry>): seq<Name> {
    if entries == [] then [] else Names(entries[..|entries| - 1]) + [entries[|entries| - 1].instance]
  }

  /** What has been reported, in order: each flagged instance once, nothing else, and `emitted` counts them. */
  ghost predicate Accounted(c: Ctx, reported: seq<Name>) {
    && NoRepeats(reported)
    && (set n | n in reported) == Flagged(c.partials)
    && c.emitted == |reported|
  }

  /** The counter is the number of instances flagged, so it never passes the cap. */
  lemma EmittedIsFlagged(c: Ctx, reported: seq<Name>)
    requires Accounted(c, reported) && Bounded(c)
    ensures c.emitted == |Flagged(c.partials)| <= c.maxEntries
  {
    NoRepeatsCount(reported);
    SubsetCount(Flagged(c.partials), c.partials.Keys);
  }

  lemma {:induction false} SubsetCount(a: set<Name>, b: set<Name>)
    requires a <= b
    ensures |a| <= |b|
  {
    if a != {} {
      var x :| x in a;
      SubsetCount(a - {x}, b - {x});
    }
  }

  /** An answer reports nothing and un-reports nothing: the flags are as they were. */
  lemma FedKeepsFlags(c: Ctx, step: Step, record: Record)
    ensures c.partials.Keys <= Fed(c, step, record).partials.Keys
    ensures Flagged(Fed(c, step, record).partials) == Flagged(c.partials)
  {
    var before, after := c.partials, Fed(c, step, record).partials;
    forall k | k in after
      ensures if k in before then after[k].emitted == before[k].emitted else !after[k].emitted
    {
    }
  }

  /** What an answer leaves alone. */
  lemma FedKeepsRest(c: Ctx, step: Step, record: Record)
    ensures var d := Fed(c, step, record);
      d.(partials := c.partials, hostAddrs := c.hostAddrs, hostsQueried := c.hostsQueried, pending := c.pending) == c
  {
  }

  lemma CollectKeepsSound(c: Ctx, k: Name)
    requires Sound(c) && k in c.partials
    ensures Sound(Collect(c, k)) && !Collect(c, k).partials[k].Due()
  {
    NamesKeepTracked(c, Collect(c, k).partials);
  }

  lemma FlagOne(partials: map<Name, Partial>, k: Name)
    requires k in partials
    ensures Flagged(partials[k := partials[k].(emitted := true)]) == Flagged(partials) + {k}
  {
  }

  lemma NamesAppend(entries: seq<ServiceEntry>, entry: ServiceEntry)
    ensures Names(entries + [entry]) == Names(entries) + [entry.instance]
  {
    assert (entries + [entry])[..|entries|] == entries;
  }

  /** Reporting an instance flags it, counts it, and moves its entry out under its own name. */
  lemma CollectAccounts(c: Ctx, k: Name, told: seq<Name>)
    requires KeysNamed(c.partials) && k in c.partials && Accounted(c, told + Names(c.ready))
    ensures Accounted(Collect(c, k), told + Names(Collect(c, k).ready))
  {
    if c.partials[k].Due() {
      var before := told + Names(c.ready);
      NamesAppend(c.ready, c.partials[k].Entry());
      assert told + (Names(c.ready) + [k]) == before + [k];
      assert k !in Flagged(c.partials);
      assert k !in before by { assert k !in (set n | n in before); }
      NoRepeatsSnoc(before, k);
      assert (set n | n in before + [k]) == (set n | n in before) + {k};
      FlagOne(c.partials, k);
    }
  }

  /** A walk over the partials keeps the lookup sound, and every instance it reports is accounted for. */
  lemma {:induction false} CollectAllKeepsSound(c: Ctx, order: seq<Name>, told: seq<Name>)
    requires Sound(c) && Accounted(c, told + Names(c.ready))
    requires forall k :: k in order ==> k in c.partials
    ensures Sound(CollectAll(c, order)) && Accounted(CollectAll(c, order), told + Names(CollectAll(c, order).ready))
  {
    if order != [] {
      var n := |order| - 1;
      CollectAllKeepsSound(c, order[..n], told);
      CollectKeepsSound(CollectAll(c, order[..n]), order[n]);
      CollectAccounts(CollectAll(c, order[..n]), order[n], told);
    }
  }

  ghost predicate ReportedOnly(c: Ctx, d: Ctx) {
    && d.(partials := c.partials, emitted := c.emitted, ready := c.ready) == c
    && d.partials.Keys == c.partials.Keys
    && (forall k :: k in c.partials ==> d.partials[k] == c.partials[k].(emitted := d.partials[k].emitted))
    && (forall k :: k in c.partials && c.partials[k].emitted ==> d.partials[k].emitted)
    && (forall k :: k in c.partials && d.partials[k].emitted ==> c.partials[k].emitted || c.partials[k].Complete())
  }

  lemma CollectReports(c: Ctx, d: Ctx, k: Name)
    requires ReportedOnly(c, d) && k in d.partials
    ensures ReportedOnly(c, Collect(d, k)) && !Collect(d, k).partials[k].Due()
    ensures forall j :: j in d.partials && !d.partials[j].Due() ==> !Collect(d, k).partials[j].Due()
  {
  }

  /** It reports all that is due and changes nothing but the flags, the count and the queue of entries. */
  lemma {:induction false} CollectAllReports(c: Ctx, order: seq<Name>)
    requires forall k :: k in order ==> k in c.partials
    ensures ReportedOnly(c, CollectAll(c, order))
    ensures forall k :: k in order ==> !CollectAll(c, order).partials[k].Due()
  {
    if order != [] {
      var n := |order| - 1;
      CollectAllReports(c, order[..n]);
      CollectReports(c, CollectAll(c, order[..n]), order[n]);
      assert order == order[..n] + [order[n]];
    }
  }

  // ----- What is reported, field by field -----

  /** The entry tells of the instance `k` exactly as `p` has it. */
  predicate Tells(e: ServiceEntry, k: Name, p: Partial) {
    && e.instance == k && p.host == Some(e.host) && p.hasSrv && e.port == p.port
    && e.addrs.ipv4 == p.addrs.ipv4 && e.addrs.ipv6 == p.addrs.ipv6 && p.txt == Some(e.txt)
  }

  /** `k` was reported between the two. */
  predicate Newly(before: map<Name, Partial>, after: map<Name, Partial>, k: Name) {
    k in before && k in after && !before[k].emitted && after[k].emitted
  }

  /** Of those visited, each that has its SRV and host, its TXT and an address of either family is flagged; no other is. */
  ghost predicate FlaggedOf(before: map<Name, Partial>, after: map<Name, Partial>, visited: set<Name>) {
    && after.Keys == before.Keys
    && (forall k :: k in before ==>
          var p, q := before[k], after[k];
          && q == p.(emitted := q.emitted)
          && (q.emitted <==> p.emitted || (k in visited && p.hasSrv && p.host.Some? && p.txt.Some? &&
                                           (p.addrs.ipv4 != [] || p.addrs.ipv6 != []))))
  }

  /** Those newly flagged, and only they, are told of, each as it stands. */
  ghost predicate ToldOf(before: map<Name, Partial>, after: map<Name, Partial>, news: seq<ServiceEntry>) {
    && (forall k :: Newly(before, after, k) ==> exists i :: 0 <= i < |news| && Tells(news[i], k, before[k]))
    && (forall i :: 0 <= i < |news| ==>
          Newly(before, after, news[i].instance) && Tells(news[i], news[i].instance, before[news[i].instance]))
  }

  /** What a walk over `visited` reports: each instance flagged is told of, once; the rest of the lookup is as it was. */
  ghost predicate Reported(c: Ctx, d: Ctx, visited: set<Name>) {
    && d.(partials := c.partials, emitted := c.emitted, ready := c.ready) == c
    && FlaggedOf(c.partials, d.partials, visited)
    && c.ready <= d.ready && |d.ready| - |c.ready| == d.emitted - c.emitted
    && ToldOf(c.partials, d.partials, d.ready[|c.ready|..])
  }

  lemma FlaggedOn(before: map<Name, Partial>, after: map<Name, Partial>, visited: set<Name>, k: Name)
    requires FlaggedOf(before, after, visited) && k in before
    ensures FlaggedOf(before, after[k := after[k].(emitted := after[k].emitted || after[k].Due())], visited + {k})
  {
  }

  lemma ToldOn(before: map<Name, Partial>, after: map<Name, Partial>, news: seq<ServiceEntry>, k: Name, e: ServiceEntry)
    requires ToldOf(before, after, news) && k in before && k in after && !before[k].emitted && Tells(e, k, before[k])
    ensures ToldOf(before, after[k := after[k].(emitted := true)], news + [e])
  {
    var grown, more := after[k := after[k].(emitted := true)], news + [e];
    forall j | Newly(before, grown, j)
      ensures exists i :: 0 <= i < |more| && Tells(more[i], j, before[j])
    {
      if j == k {
        assert more[|news|] == e;
      } else {
        assert Newly(before, after, j);
        var i :| 0 <= i < |news| && Tells(news[i], j, before[j]);
        assert more[i] == news[i];
      }
    }
  }

  lemma ReportedOn(c: Ctx, d: Ctx, visited: set<Name>, k: Name)
    requires KeysNamed(c.partials) && Reported(c, d, visited) && k in c.partials
    ensures Reported(c, Collect(d, k), visited + {k})
  {
    FlaggedOn(c.partials, d.partials, visited, k);
    assert d.partials[k := d.partials[k]] == d.partials;
    if d.partials[k].Due() {
      ToldOn(c.partials, d.partials, d.ready[|c.ready|..], k, d.partials[k].Entry());
      assert (d.ready + [d.partials[k].Entry()])[|c.ready|..] == d.ready[|c.ready|..] + [d.partials[k].Entry()];
    }
  }

  /** The collecting walk, in any order, reports just so. */
  lemma {:induction false} CollectAllTells(c: Ctx, order: seq<Name>)
    requires KeysNamed(c.partials) && forall k :: k in order ==> k in c.partials
    ensures Reported(c, CollectAll(c, order), set k | k in order)
  {
    if order != [] {
      var front, k := order[..|order| - 1], order[|order| - 1];
      assert order == front + [k];
      CollectAllTells(c, front);
      ReportedOn(c, CollectAll(c, front), (set n | n in front), k);
      assert (set n | n in order) == (set n | n in front) + {k};
    }
  }

  // ----- Order of arrival -----

  lemma AddAfterAdopt(a: Addrs, ip: IpAddr)
    requires a.WellFormed()
    ensures NO_ADDRS.Adopt(a).Add(ip) == NO_ADDRS.Adopt(a.Add(ip)) && a.Adopt(a).Add(ip) == a.Add(ip).Adopt(a.Add(ip))
  {
    R.AddWellFormed(a, ip);
    AdoptIsCopy(a);
    AdoptIsCopy(a.Add(ip));
  }

  lemma RetargetAndAddCommute(p: Partial, known: Addrs, host: Name, port: nat, ip: IpAddr)
    requires known.WellFormed() && (p.host == Some(host) ==> p.addrs == known)
    ensures AddTo(p.SetSrv(host, port).Adopt(known), host, ip) == AddTo(p, host, ip).SetSrv(host, port).Adopt(known.Add(ip))
  {
    AddAfterAdopt(known, ip);
  }

  lemma PartialsCommute(c: Ctx, instance: Name, host: Name, port: nat, ip: IpAddr)
    requires AddrsOf(c.hostAddrs, host).WellFormed()
    requires instance in c.partials && c.partials[instance].host == Some(host) ==>
      c.partials[instance].addrs == AddrsOf(c.hostAddrs, host)
    ensures AddedTo(SrvPartials(c, instance, host, port), host, ip) ==
            SrvPartials(AfterAddr(c, host, ip), instance, host, port)
  {
    if instance in c.partials {
      RetargetAndAddCommute(c.partials[instance], AddrsOf(c.hostAddrs, host), host, port, ip);
    }
  }

  /** Once a host is being queried, an SRV naming it and an address of it may arrive in either order. */
  lemma SrvAndAddressCommute(c: Ctx, instance: Name, host: Name, port: nat, ip: IpAddr)
    requires Sound(c) && host in c.hostsQueried
    ensures AfterAddr(AfterSrv(c, instance, host, port), host, ip) ==
            AfterSrv(AfterAddr(c, host, ip), instance, host, port)
  {
    PartialsCommute(c, instance, host, port, ip);
  }

  // ----- The two drivers aggregate alike -----

  ghost predicate SameInstance(p: Partial, b: R.Builder) {
    p.instance == Some(b.instance) && p.host == b.host && p.hasSrv == b.hasSrv && p.port == b.port &&
    p.addrs == b.addrs && p.txt == b.txt
  }

  ghost predicate Agrees(c: Ctx, s: R.Agg) {
    && c.partials.Keys == s.builders.Keys && c.hostAddrs == s.hostAddrs && c.hostsQueried == s.hostsQueried
    && (forall k :: k in c.partials ==> SameInstance(c.partials[k], s.builders[k]))
  }

  lemma SrvAgrees(c: Ctx, s: R.Agg, instance: Name, host: Name, port: nat)
    requires Agrees(c, s)
    ensures Agrees(AfterSrv(c, instance, host, port), R.SrvStep(s, instance, host, port, c.maxEntries))
  {
    if instance in s.builders {
      var b := s.builders[instance];
      R.EmittedFlag(R.Retarget(b, host, port, AddrsOf(s.hostAddrs, host)), R.SrvChanges(b, host, port));
    }
  }

  lemma TxtAgrees(c: Ctx, s: R.Agg, instance: Name, txt: seq<Bytes>)
    requires Agrees(c, s)
    ensures Agrees(AfterTxt(c, instance, txt), R.TxtStep(s, instance, txt))
  {
    if instance in s.builders {
      R.EmittedFlag(s.builders[instance].(txt := Some(txt)), s.builders[instance].txt != Some(txt));
    }
  }

  /**
   Given the same answer, this aggregation and the async one still describe every instance alike; they differ
   only in when an instance counts as reported.
   */
  lemma DriversAgree(c: Ctx, s: R.Agg, step: Step, record: Record)
    requires Agrees(c, s)
    ensures Agrees(Fed(c, step, record), B.Fed(s, step, record, c.maxEntries))
  {
    assert |c.partials| == |c.partials.Keys| == |s.builders|;
    match (step, record)
    case (SrvQuery(instance), SrvRecord(host, port)) => SrvAgrees(c, s, instance, host, port);
    case (TxtQuery(instance), TxtRecord(txt)) => TxtAgrees(c, s, instance, txt);
    case (AQuery(host), AddrRecord(V4(a))) => AddressAgrees(c, s, host, V4(a));
    case (AaaaQuery(host), AddrRecord(V6(a))) => AddressAgrees(c, s, host, V6(a));
    case _ =>
  }

  /** ...and they ask for the same sub-queries, in the same order. */
  lemma DriversAskAlike(c: Ctx, s: R.Agg, step: Step, record: Record)
    requires Agrees(c, s)
    ensures Fed(c, step, record).pending == c.pending + B.StartsOf(s, step, record, c.maxEntries)
  {
    assert |c.partials| == |c.partials.Keys| == |s.builders|;
    assert c.pending + [] == c.pending;
  }

  lemma AddressAgrees(c: Ctx, s: R.Agg, host: Name, ip: IpAddr)
    requires Agrees(c, s)
    ensures Agrees(AfterAddr(c, host, ip), R.AddrStep(s, host, ip))
  {
    forall k | k in c.partials
      ensures SameInstance(AddTo(c.partials[k], host, ip), R.AddTo(s.builders[k], host, ip))
    {
      R.EmittedFlag(s.builders[k].(addrs := s.builders[k].addrs.Add(ip)), true);
    }
  }
}
