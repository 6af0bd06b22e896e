/**
 Every running lookup, the queries they own and what the caller has been told (hick-mio/src/discovery.rs), as one
 value, and the moves the driver makes on it. Each move keeps `Safe`; the driver's methods only compose moves.
 */
module LookupWorlds {
  import opened Answers
  import opened Basics
  import opened HostAddresses
  import opened ServiceDiscovery
  import opened LookupStates

  datatype Window = Window(deadline: Option<nat>, maxEntries: nat) {
    predicate Holds(instant: nat) {
      deadline.Some? ==> instant < deadline.value
    }
  }

  function WindowOf(c: Ctx): Window {
    Window(c.deadline, c.maxEntries)
  }

  /** What the caller is told. `completedAt` is the instant of the answer that made the entry whole. */
  datatype Notice = Found(handle: LookupHandle, entry: ServiceEntry, completedAt: nat) | Done(handle: LookupHandle)

  /** How a lookup stood when it was retired, and when that was. */
  datatype End = End(last: Ctx, at: nat)

  /**
   `windows` has an entry for every handle ever minted; `log` is every lookup event ever pushed, in order. `times`
   stamps, for each running lookup, every instance whose entry is whole. Time passes only by a move of its own.
   `left` keeps the last context of every query that is gone: how far its answers had been read.
   */
  datatype World = World(lookups: map<nat, Ctx>, queries: map<QueryHandle, QueryCtx>, nextQuery: nat,
                         nextGeneration: nat, windows: map<LookupHandle, Window>, cancelled: set<LookupHandle>,
                         log: seq<Notice>, clock: nat, times: map<nat, map<Name, nat>>, ended: map<LookupHandle, End>,
                         left: map<QueryHandle, QueryCtx>)

  function HandleAt(lookups: map<nat, Ctx>, k: nat): LookupHandle
    requires k in lookups
  {
    LookupHandle(k, lookups[k].generation)
  }

  /** A handle resolves only to the occupant it was minted for. */
  predicate Live(lookups: map<nat, Ctx>, h: LookupHandle) {
    h.key in lookups && lookups[h.key].generation == h.generation
  }

  /** The instances reported under one handle, in order. */
  function Told(log: seq<Notice>, h: LookupHandle): seq<Name> {
    if log == [] then []
    else
      var e := log[|log| - 1];
      if e.Found? && e.handle == h then Told(log[..|log| - 1], h) + [e.entry.instance] else Told(log[..|log| - 1], h)
  }

  // ----- Safety -----

  /** No orphans: a query with an owner is a leg of that very lookup, and a lookup's legs are its own. */
  ghost predicate Owned(lookups: map<nat, Ctx>, queries: map<QueryHandle, QueryCtx>, nextQuery: nat) {
    && (forall q :: q in queries ==> q < nextQuery)
    && (forall k, q :: k in lookups && q in lookups[k].subqueries ==> q < nextQuery)
    && (forall q :: q in queries && queries[q].owner.Some? ==>
          Live(lookups, queries[q].owner.value) && q in lookups[queries[q].owner.value.key].subqueries)
    && (forall k, q :: k in lookups && q in lookups[k].subqueries && q in queries ==>
          queries[q].owner == Some(HandleAt(lookups, k)))
  }

  ghost predicate Minted(lookups: map<nat, Ctx>, windows: map<LookupHandle, Window>, nextGeneration: nat) {
    && (forall h :: h in windows ==> h.generation < nextGeneration)
    && (forall k :: k in lookups ==> HandleAt(lookups, k) in windows)
    && (forall k :: k in lookups ==>
          windows[HandleAt(lookups, k)] == WindowOf(lookups[k]))
  }

  /**
   What was told is in order: nothing about a lookup follows its `Done`, a running lookup has none, one
   that is gone has one unless the caller cancelled it, and no entry was completed once its window had shut.
   */
  ghost predicate Orderly(lookups: map<nat, Ctx>, windows: map<LookupHandle, Window>, cancelled: set<LookupHandle>,
                          log: seq<Notice>) {
    && (forall i, j :: 0 <= i < j < |log| && log[i].Done? ==> log[j].handle != log[i].handle)
    && (forall i :: 0 <= i < |log| ==> log[i].handle in windows)
    && (forall i :: 0 <= i < |log| && log[i].Found? ==> windows[log[i].handle].Holds(log[i].completedAt))
    && (forall h :: h in windows ==>
          Live(lookups, h) != (h in cancelled || Done(h) in log) && !(h in cancelled && Done(h) in log))
    && cancelled <= windows.Keys
  }

  ghost predicate AllSound(lookups: map<nat, Ctx>) {
    forall k :: k in lookups ==> Sound(lookups[k])
  }

  /** What each lookup counts as reported is what was told or is about to be, once each. */
  ghost predicate AllAccounted(lookups: map<nat, Ctx>, log: seq<Notice>) {
    forall k :: k in lookups ==> Accounted(lookups[k], Told(log, HandleAt(lookups, k)) + Names(lookups[k].ready))
  }

  ghost predicate ToldOnce(windows: map<LookupHandle, Window>, log: seq<Notice>) {
    forall h :: h in windows ==> NoRepeats(Told(log, h)) && |Told(log, h)| <= windows[h].maxEntries
  }

  ghost predicate Reporting(lookups: map<nat, Ctx>, windows: map<LookupHandle, Window>, log: seq<Notice>) {
    AllSound(lookups) && AllAccounted(lookups, log) && ToldOnce(windows, log)
  }

  /** The instances whose entry is whole, and those already taken. */
  function Whole(partials: map<Name, Partial>): set<Name> {
    set n | n in partials && (partials[n].emitted || partials[n].Complete())
  }

  /** The stamps after an answer at `now`: an instance it completed is stamped, one it broke up loses its stamp. */
  function Stamped(stamps: map<Name, nat>, partials: map<Name, Partial>, now: nat): map<Name, nat> {
    map n | n in Whole(partials) :: if n in stamps then stamps[n] else now
  }

  /** No stamp is ahead of the clock, and what was taken to be reported was whole before the window shut. */
  ghost predicate InTime(c: Ctx, stamps: map<Name, nat>, clock: nat) {
    && stamps.Keys == Whole(c.partials)
    && (forall n :: n in stamps ==> stamps[n] <= clock)
    && (forall n :: n in stamps && c.partials[n].emitted ==> !c.Expired(stamps[n]))
  }

  ghost predicate Timely(lookups: map<nat, Ctx>, times: map<nat, map<Name, nat>>, clock: nat) {
    forall k :: k in lookups ==> k in times && InTime(lookups[k], times[k], clock)
  }

  /** A lookup is over once its window has shut, or once it has reported all it will: its cap, or no leg left. */
  ghost predicate IsOver(c: Ctx, now: nat) {
    c.Expired(now) || (Settled(c) && c.Finished(now))
  }

  /** Every lookup said to be done was over when it was retired. */
  ghost predicate Justified(windows: map<LookupHandle, Window>, log: seq<Notice>, clock: nat,
                            ended: map<LookupHandle, End>) {
    && (forall h :: h in ended <==> Done(h) in log)
    && (forall h :: h in ended ==> ended[h].at <= clock && IsOver(ended[h].last, ended[h].at))
    && (forall h :: h in ended ==> h in windows && windows[h] == WindowOf(ended[h].last))
  }

  /** Every query ever started is still there or has left, and not both. */
  ghost predicate Departed(queries: map<QueryHandle, QueryCtx>, left: map<QueryHandle, QueryCtx>, nextQuery: nat) {
    && (forall q: QueryHandle :: q < nextQuery <==> q in queries || q in left)
    && (forall q :: q in left ==> q !in queries)
  }

  ghost predicate Safe(w: World) {
    && Owned(w.lookups, w.queries, w.nextQuery)
    && Minted(w.lookups, w.windows, w.nextGeneration)
    && Orderly(w.lookups, w.windows, w.cancelled, w.log)
    && Reporting(w.lookups, w.windows, w.log)
    && Timely(w.lookups, w.times, w.clock)
    && Justified(w.windows, w.log, w.clock, w.ended)
    && Departed(w.queries, w.left, w.nextQuery)
  }

  ghost predicate AllSettled(lookups: map<nat, Ctx>) {
    forall k :: k in lookups ==> Settled(lookups[k])
  }

  // ----- Moves -----

  function Replace(w: World, k: nat, c: Ctx): World {
    w.(lookups := w.lookups[k := c])
  }

  /** A query that is gone, whoever owned it: swept, retired, cancelled or ended. */
  function DropQuery(w: World, q: QueryHandle): World {
    w.(queries := w.queries - {q}, left := Leave(w.left, w.queries, {q}))
  }

  /** The queries in `gone` leave as they stand. */
  function Leave(left: map<QueryHandle, QueryCtx>, queries: map<QueryHandle, QueryCtx>, gone: set<QueryHandle>):
      map<QueryHandle, QueryCtx>
  {
    left + (map q | q in queries && q in gone :: queries[q])
  }

  /** A query read up to `seqNo`. */
  function Scan(w: World, q: QueryHandle, seqNo: nat): World {
    if q in w.queries then w.(queries := w.queries[q := w.queries[q].(lastSeq := seqNo)]) else w
  }

  /** A query of the caller's own. */
  function StartOwn(w: World): World {
    w.(queries := w.queries[w.nextQuery := QueryCtx(0, None)], nextQuery := w.nextQuery + 1)
  }

  /** A new leg of a lookup, under a query handle no one has held before. */
  function Register(w: World, k: nat, step: Step): World
    requires k in w.lookups
  {
    w.(queries := w.queries[w.nextQuery := QueryCtx(0, Some(HandleAt(w.lookups, k)))], nextQuery := w.nextQuery + 1,
       lookups := w.lookups[k := AddLeg(w.lookups[k], w.nextQuery, step)])
  }

  /** A new lookup in a vacant slot, under a generation no handle has carried before. */
  function Mint(w: World, slot: nat, c: Ctx): World {
    var h := LookupHandle(slot, w.nextGeneration);
    w.(lookups := w.lookups[slot := c.(generation := w.nextGeneration)], nextGeneration := w.nextGeneration + 1,
       windows := w.windows[h := WindowOf(c)], times := w.times[slot := map[]])
  }

  /** An answer read now, folded in. */
  function FeedAt(w: World, k: nat, step: Step, record: Record): World
    requires k in w.lookups && k in w.times
  {
    var d := Fed(w.lookups[k], step, record);
    Replace(w, k, d).(times := w.times[k := Stamped(w.times[k], d.partials, w.clock)])
  }

  /** The instant a running lookup's entry became whole; now, if it never did. */
  function StampOf(w: World, k: nat, n: Name): nat {
    if k in w.times && n in w.times[k] then w.times[k][n] else w.clock
  }

  /** The oldest collected entry reaches the caller's event queue. */
  function Tell(w: World, k: nat): World
    requires k in w.lookups && w.lookups[k].ready != []
  {
    var c := w.lookups[k];
    w.(lookups := w.lookups[k := c.(ready := c.ready[1..])],
       log := w.log + [Found(HandleAt(w.lookups, k), c.ready[0], StampOf(w, k, c.ready[0].instance))])
  }

  /** The lookup leaves its slot and takes every leg it owns with it. */
  function Close(w: World, k: nat): World
    requires k in w.lookups
  {
    var legs := w.lookups[k].subqueries.Keys;
    w.(lookups := w.lookups - {k}, queries := w.queries - legs, left := Leave(w.left, w.queries, legs))
  }

  /** At the caller's word nothing is reported; otherwise `Done` is. */
  function Cancel(w: World, k: nat): World
    requires k in w.lookups
  {
    Close(w, k).(cancelled := w.cancelled + {HandleAt(w.lookups, k)})
  }

  function Finish(w: World, k: nat): World
    requires k in w.lookups
  {
    var h := HandleAt(w.lookups, k);
    Close(w, k).(log := w.log + [Done(h)], ended := w.ended[h := End(w.lookups[k], w.clock)])
  }

  /** Time passes. */
  function Later(w: World, elapsed: nat): World {
    w.(clock := w.clock + elapsed)
  }

  /** How a lookup starts: from the browse question, or knowing an instance or a host already. */
  datatype Seed = Browse | Instance(name: Name) | Host(name: Name)

  function Seeded(seed: Seed, deadline: Option<nat>, maxEntries: nat): Ctx {
    match seed
    case Browse => NewCtx(deadline, maxEntries)
    case Instance(name) => AfterPtr(NewCtx(deadline, maxEntries), name)
    case Host(name) => LookupStates.SeedHost(NewCtx(deadline, maxEntries), name)
  }

  /** One thing the driver, the caller, the proto layer or the clock does to the lookups. */
  datatype Move =
    | Open(slot: nat, seed: Seed, deadline: Option<nat>, maxEntries: nat)
    | Leg(k: nat, step: Step)
    | TakePending(k: nat)
    | Feed(k: nat, q: QueryHandle, record: Record)
    | LetGo(k: nat, gone: set<QueryHandle>)
    | CollectReady(k: nat, order: seq<Name>)
    | Report(k: nat)
    | CancelLookup(k: nat)
    | FinishLookup(k: nat)
    | OwnQuery
    | EndQuery(q: QueryHandle)
    | Read(q: QueryHandle, seqNo: nat)
    | Pass(elapsed: nat)

  /** The lookup has room for one more sub-query, and the step names what it tracks. */
  predicate MayLaunch(c: Ctx, step: Step) {
    Tracked(c, step) && c.launched + |c.pending| < 1 + 2 * |c.partials| + 2 * |c.hostsQueried|
  }

  /** Collecting needs a reading inside the window; retiring, a lookup that is over. Telling needs neither. */
  ghost predicate Allowed(w: World, m: Move) {
    match m
    case Open(slot, _, _, maxEntries) => slot !in w.lookups && maxEntries >= 1
    case Leg(k, step) => k in w.lookups && MayLaunch(w.lookups[k], step)
    case TakePending(k) => k in w.lookups
    case Feed(k, q, _) => k in w.lookups && k in w.times && q in w.lookups[k].subqueries
    case LetGo(k, gone) => k in w.lookups && gone !! w.queries.Keys
    case CollectReady(k, order) =>
      k in w.lookups && !w.lookups[k].Expired(w.clock) && forall n :: n in order ==> n in w.lookups[k].partials
    case Report(k) => k in w.lookups && w.lookups[k].ready != []
    case CancelLookup(k) => k in w.lookups
    case FinishLookup(k) => k in w.lookups && IsOver(w.lookups[k], w.clock)
    case OwnQuery => true
    case EndQuery(_) => true
    case Read(_, _) => true
    case Pass(_) => true
  }

  ghost function Apply(w: World, m: Move): World
    requires Allowed(w, m)
  {
    match m
    case Open(slot, seed, deadline, maxEntries) => Mint(w, slot, Seeded(seed, deadline, maxEntries))
    case Leg(k, step) => Register(w, k, step)
    case TakePending(k) => Replace(w, k, w.lookups[k].(pending := []))
    case Feed(k, q, record) => FeedAt(w, k, w.lookups[k].subqueries[q], record)
    case LetGo(k, gone) => Replace(w, k, DropLegs(w.lookups[k], gone))
    case CollectReady(k, order) => Replace(w, k, CollectAll(w.lookups[k], order))
    case Report(k) => Tell(w, k)
    case CancelLookup(k) => Cancel(w, k)
    case FinishLookup(k) => Finish(w, k)
    case OwnQuery => StartOwn(w)
    case EndQuery(q) => DropQuery(w, q)
    case Read(q, seqNo) => Scan(w, q, seqNo)
    case Pass(elapsed) => Later(w, elapsed)
  }

  // ----- One lookup's own moves -----

  /** A move of one lookup's turn. */
  predicate OfTurn(m: Move) {
    m.Leg? || m.TakePending? || m.Feed? || m.LetGo? || m.CollectReady? || m.Report?
  }

  /** It changes that lookup alone, which stays itself. */
  lemma TurnMovesOne(w: World, m: Move)
    requires Allowed(w, m) && OfTurn(m)
    ensures var v := Apply(w, m);
      && m.k in v.lookups && v.lookups == w.lookups[m.k := v.lookups[m.k]]
      && SameLookup(w.lookups[m.k], v.lookups[m.k])
      && v.windows == w.windows && v.nextGeneration == w.nextGeneration && v.cancelled == w.cancelled
      && v.clock == w.clock && v.ended == w.ended && (!m.Report? ==> v.log == w.log)
  {
    match m
    case Feed(k, q, record) => FedKeepsRest(w.lookups[k], w.lookups[k].subqueries[q], record);
    case CollectReady(k, order) => CollectAllReports(w.lookups[k], order);
    case _ =>
  }

  ghost predicate SameLookup(before: Ctx, after: Ctx) {
    after.generation == before.generation && WindowOf(after) == WindowOf(before)
  }

  // ----- No orphans -----

  /** The same lookup further along: still itself, and keeping every leg that still has a query. */
  ghost predicate Continues(before: Ctx, after: Ctx, queries: map<QueryHandle, QueryCtx>) {
    && after.generation == before.generation
    && after.subqueries.Keys <= before.subqueries.Keys
    && (forall q :: q in before.subqueries && q in queries ==> q in after.subqueries)
  }

  /** Replacing a lookup by a later state of itself leaves every handle as live, or as dead, as it was. */
  lemma SameHandles(lookups: map<nat, Ctx>, k: nat, c: Ctx)
    requires k in lookups && c.generation == lookups[k].generation
    ensures forall h :: Live(lookups[k := c], h) == Live(lookups, h)
    ensures forall j :: j in lookups ==> HandleAt(lookups[k := c], j) == HandleAt(lookups, j)
  {
  }

  lemma ReplaceOwned(lookups: map<nat, Ctx>, queries: map<QueryHandle, QueryCtx>, nextQuery: nat, k: nat, c: Ctx)
    requires Owned(lookups, queries, nextQuery) && k in lookups && Continues(lookups[k], c, queries)
    ensures Owned(lookups[k := c], queries, nextQuery)
  {
  }

  lemma RegisterOwned(lookups: map<nat, Ctx>, queries: map<QueryHandle, QueryCtx>, q: QueryHandle, k: nat, c: Ctx)
    requires Owned(lookups, queries, q) && k in lookups && c.generation == lookups[k].generation
    requires c.subqueries.Keys == lookups[k].subqueries.Keys + {q}
    ensures Owned(lookups[k := c], queries[q := QueryCtx(0, Some(HandleAt(lookups, k)))], q + 1)
  {
    SameHandles(lookups, k, c);
  }

  lemma MintOwned(lookups: map<nat, Ctx>, queries: map<QueryHandle, QueryCtx>, nextQuery: nat, k: nat, c: Ctx)
    requires Owned(lookups, queries, nextQuery) && k !in lookups && c.subqueries == map[]
    ensures Owned(lookups[k := c], queries, nextQuery)
  {
  }

  /** The slot is vacant, so the handle, and it alone, no longer resolves. */
  lemma CloseRetiresHandle(lookups: map<nat, Ctx>, k: nat)
    requires k in lookups
    ensures forall h :: Live(lookups - {k}, h) == (Live(lookups, h) && h != HandleAt(lookups, k))
    ensures forall j :: j in lookups && j != k ==> j in lookups - {k} && HandleAt(lookups - {k}, j) == HandleAt(lookups, j)
  {
  }

  lemma CloseOwned(lookups: map<nat, Ctx>, queries: map<QueryHandle, QueryCtx>, nextQuery: nat, k: nat)
    requires Owned(lookups, queries, nextQuery) && k in lookups
    ensures Owned(lookups - {k}, queries - lookups[k].subqueries.Keys, nextQuery)
    ensures forall q :: q in queries && queries[q].owner == Some(HandleAt(lookups, k)) ==>
      q !in queries - lookups[k].subqueries.Keys
    ensures forall q :: q in queries && queries[q].owner != Some(HandleAt(lookups, k)) ==>
      q in queries - lookups[k].subqueries.Keys
  {
    CloseRetiresHandle(lookups, k);
  }

  lemma TurnKeepsOwned(w: World, m: Move)
    requires Owned(w.lookups, w.queries, w.nextQuery) && Allowed(w, m) && OfTurn(m)
    ensures var v := Apply(w, m); Owned(v.lookups, v.queries, v.nextQuery)
  {
    var c, d := w.lookups[m.k], Apply(w, m).lookups[m.k];
    TurnMovesOne(w, m);
    if m.Leg? {
      RegisterOwned(w.lookups, w.queries, w.nextQuery, m.k, d);
    } else {
      if m.Feed? { FedKeepsRest(c, c.subqueries[m.q], m.record); }
      if m.CollectReady? { CollectAllReports(c, m.order); }
      ReplaceOwned(w.lookups, w.queries, w.nextQuery, m.k, d);
    }
  }

  lemma MoveKeepsOwned(w: World, m: Move)
    requires Owned(w.lookups, w.queries, w.nextQuery) && Allowed(w, m)
    ensures var v := Apply(w, m); Owned(v.lookups, v.queries, v.nextQuery)
  {
    if OfTurn(m) {
      TurnKeepsOwned(w, m);
    } else if m.Open? {
      SeededIsSound(m.seed, m.deadline, m.maxEntries);
      MintOwned(w.lookups, w.queries, w.nextQuery, m.slot, Apply(w, m).lookups[m.slot]);
    } else if m.CancelLookup? || m.FinishLookup? {
      CloseOwned(w.lookups, w.queries, w.nextQuery, m.k);
    }
  }

  // ----- Handles -----

  lemma ReplaceMinted(lookups: map<nat, Ctx>, windows: map<LookupHandle, Window>, nextGeneration: nat, k: nat, c: Ctx)
    requires Minted(lookups, windows, nextGeneration) && k in lookups
    requires c.generation == lookups[k].generation && WindowOf(c) == windows[HandleAt(lookups, k)]
    ensures Minted(lookups[k := c], windows, nextGeneration)
  {
  }

  lemma MintMinted(lookups: map<nat, Ctx>, windows: map<LookupHandle, Window>, nextGeneration: nat, k: nat, c: Ctx)
    requires Minted(lookups, windows, nextGeneration) && k !in lookups && c.generation == nextGeneration
    ensures Minted(lookups[k := c], windows[LookupHandle(k, nextGeneration) := WindowOf(c)],
                   nextGeneration + 1)
  {
  }

  lemma CloseMinted(lookups: map<nat, Ctx>, windows: map<LookupHandle, Window>, nextGeneration: nat, k: nat)
    requires Minted(lookups, windows, nextGeneration) && k in lookups
    ensures Minted(lookups - {k}, windows, nextGeneration)
  {
    CloseRetiresHandle(lookups, k);
  }

  lemma MoveKeepsMinted(w: World, m: Move)
    requires Minted(w.lookups, w.windows, w.nextGeneration) && Allowed(w, m)
    ensures var v := Apply(w, m); Minted(v.lookups, v.windows, v.nextGeneration)
  {
    if OfTurn(m) {
      TurnMovesOne(w, m);
      ReplaceMinted(w.lookups, w.windows, w.nextGeneration, m.k, Apply(w, m).lookups[m.k]);
    } else if m.Open? {
      MintMinted(w.lookups, w.windows, w.nextGeneration, m.slot, Apply(w, m).lookups[m.slot]);
    } else if m.CancelLookup? || m.FinishLookup? {
      CloseMinted(w.lookups, w.windows, w.nextGeneration, m.k);
    }
  }

  // ----- What is told, in order -----

  lemma ReplaceOrderly(lookups: map<nat, Ctx>, windows: map<LookupHandle, Window>, cancelled: set<LookupHandle>,
                       log: seq<Notice>, k: nat, c: Ctx)
    requires Orderly(lookups, windows, cancelled, log) && k in lookups && c.generation == lookups[k].generation
    ensures Orderly(lookups[k := c], windows, cancelled, log)
  {
    SameHandles(lookups, k, c);
  }

  lemma MintOrderly(lookups: map<nat, Ctx>, windows: map<LookupHandle, Window>, cancelled: set<LookupHandle>,
                    log: seq<Notice>, k: nat, c: Ctx, h: LookupHandle, window: Window)
    requires Orderly(lookups, windows, cancelled, log) && h !in cancelled && h !in windows
    requires k !in lookups && h == LookupHandle(k, c.generation)
    ensures Orderly(lookups[k := c], windows[h := window], cancelled, log)
  {
    forall g
      ensures Live(lookups[k := c], g) == (Live(lookups, g) || g == h)
    {
      if g.key == k { assert g == LookupHandle(g.key, g.generation); }
    }
  }

  /** A generation not given out yet belongs to no handle, told of or cancelled. */
  lemma UnheardOf(w: World, h: LookupHandle)
    requires Minted(w.lookups, w.windows, w.nextGeneration) && Orderly(w.lookups, w.windows, w.cancelled, w.log)
    requires h.generation == w.nextGeneration
    ensures h !in w.windows && h !in w.cancelled && forall i :: 0 <= i < |w.log| ==> w.log[i].handle != h
  {
  }

  lemma TellOrderly(lookups: map<nat, Ctx>, windows: map<LookupHandle, Window>, cancelled: set<LookupHandle>,
                    log: seq<Notice>, e: Notice)
    requires Orderly(lookups, windows, cancelled, log) && e.Found? && e.handle in windows && Live(lookups, e.handle)
    requires windows[e.handle].Holds(e.completedAt)
    ensures Orderly(lookups, windows, cancelled, log + [e])
  {
    var after := log + [e];
    forall i, j | 0 <= i < j < |after| && after[i].Done?
      ensures after[j].handle != after[i].handle
    {
      assert after[i] == log[i] && (after[i] == Done(e.handle) ==> Done(e.handle) in log);
    }
    assert forall h :: Done(h) in after <==> Done(h) in log;
  }

  lemma CancelOrderly(lookups: map<nat, Ctx>, windows: map<LookupHandle, Window>, cancelled: set<LookupHandle>,
                      log: seq<Notice>, k: nat)
    requires Orderly(lookups, windows, cancelled, log) && k in lookups && HandleAt(lookups, k) in windows
    ensures Orderly(lookups - {k}, windows, cancelled + {HandleAt(lookups, k)}, log)
  {
    CloseRetiresHandle(lookups, k);
  }

  lemma FinishOrderly(lookups: map<nat, Ctx>, windows: map<LookupHandle, Window>, cancelled: set<LookupHandle>,
                      log: seq<Notice>, k: nat)
    requires Orderly(lookups, windows, cancelled, log) && k in lookups && HandleAt(lookups, k) in windows
    ensures Orderly(lookups - {k}, windows, cancelled, log + [Done(HandleAt(lookups, k))])
  {
    var h := HandleAt(lookups, k);
    var after := log + [Done(h)];
    CloseRetiresHandle(lookups, k);
    forall i, j | 0 <= i < j < |after| && after[i].Done?
      ensures after[j].handle != after[i].handle
    {
      assert after[i] == log[i] && (after[i] == Done(h) ==> Done(h) in log);
    }
    assert forall g :: Done(g) in after <==> Done(g) in log || g == h;
  }

  /** The entry a `Report` would tell was whole in time. */
  ghost predicate TellsInTime(w: World, m: Move)
    requires Allowed(w, m)
  {
    m.Report? ==> WindowOf(w.lookups[m.k]).Holds(StampOf(w, m.k, w.lookups[m.k].ready[0].instance))
  }

  lemma TurnKeepsOrderly(w: World, m: Move)
    requires Orderly(w.lookups, w.windows, w.cancelled, w.log) && Minted(w.lookups, w.windows, w.nextGeneration)
    requires Allowed(w, m) && OfTurn(m) && TellsInTime(w, m)
    ensures var v := Apply(w, m); Orderly(v.lookups, v.windows, v.cancelled, v.log)
  {
    var v := Apply(w, m);
    TurnMovesOne(w, m);
    if m.Report? { TellOrderly(w.lookups, w.windows, w.cancelled, w.log, v.log[|w.log|]); }
    ReplaceOrderly(w.lookups, w.windows, w.cancelled, v.log, m.k, v.lookups[m.k]);
  }

  lemma MoveKeepsOrderly(w: World, m: Move)
    requires Orderly(w.lookups, w.windows, w.cancelled, w.log) && Minted(w.lookups, w.windows, w.nextGeneration)
    requires Allowed(w, m) && TellsInTime(w, m)
    ensures var v := Apply(w, m); Orderly(v.lookups, v.windows, v.cancelled, v.log)
  {
    if OfTurn(m) {
      TurnKeepsOrderly(w, m);
    } else if m.Open? {
      var c := Apply(w, m).lookups[m.slot];
      var h := LookupHandle(m.slot, c.generation);
      UnheardOf(w, h);
      MintOrderly(w.lookups, w.windows, w.cancelled, w.log, m.slot, c, h, WindowOf(c));
    } else if m.CancelLookup? {
      CancelOrderly(w.lookups, w.windows, w.cancelled, w.log, m.k);
    } else if m.FinishLookup? {
      FinishOrderly(w.lookups, w.windows, w.cancelled, w.log, m.k);
    }
  }

  // ----- What is told, once -----

  lemma ReplaceReporting(lookups: map<nat, Ctx>, windows: map<LookupHandle, Window>, log: seq<Notice>, k: nat, c: Ctx)
    requires Reporting(lookups, windows, log) && k in lookups && c.generation == lookups[k].generation
    requires Sound(c) && Accounted(c, Told(log, HandleAt(lookups, k)) + Names(c.ready))
    ensures Reporting(lookups[k := c], windows, log)
  {
    var after := lookups[k := c];
    forall j | j in after
      ensures Sound(after[j]) && Accounted(after[j], Told(log, HandleAt(after, j)) + Names(after[j].ready))
    {
      if j != k { assert after[j] == lookups[j]; }
    }
  }

  lemma RegisterKeepsSound(c: Ctx, q: QueryHandle, step: Step)
    requires Sound(c) && Tracked(c, step)
    requires c.launched + |c.pending| < 1 + 2 * |c.partials| + 2 * |c.hostsQueried|
    ensures Sound(AddLeg(c, q, step))
  {
  }

  lemma DropLegsKeepsSound(c: Ctx, gone: set<QueryHandle>)
    requires Sound(c)
    ensures Sound(DropLegs(c, gone))
  {
  }

  lemma TakePendingKeepsSound(c: Ctx)
    requires Sound(c)
    ensures Sound(c.(pending := []))
  {
  }

  lemma GenerationKeepsSound(c: Ctx, generation: nat)
    requires Sound(c)
    ensures Sound(c.(generation := generation))
  {
  }

  lemma ReadyKeepsSound(c: Ctx, ready: seq<ServiceEntry>)
    requires Sound(c)
    ensures Sound(c.(ready := ready))
  {
  }

  lemma {:induction false} NothingToldYet(log: seq<Notice>, h: LookupHandle)
    requires forall i :: 0 <= i < |log| ==> log[i].handle != h
    ensures Told(log, h) == []
  {
    if log != [] { NothingToldYet(log[..|log| - 1], h); }
  }

  lemma MintReporting(lookups: map<nat, Ctx>, windows: map<LookupHandle, Window>, log: seq<Notice>, k: nat, c: Ctx,
                      h: LookupHandle, window: Window)
    requires Reporting(lookups, windows, log) && k !in lookups && h == LookupHandle(k, c.generation)
    requires forall i :: 0 <= i < |log| ==> log[i].handle != h
    requires Sound(c) && c.ready == [] && c.emitted == 0 && Flagged(c.partials) == {}
    ensures Reporting(lookups[k := c], windows[h := window], log)
  {
    var after := lookups[k := c];
    NothingToldYet(log, h);
    forall j | j in after
      ensures Sound(after[j]) && Accounted(after[j], Told(log, HandleAt(after, j)) + Names(after[j].ready))
    {
      if j != k { assert after[j] == lookups[j]; }
    }
  }

  lemma {:induction false} NamesFront(entries: seq<ServiceEntry>)
    requires entries != []
    ensures Names(entries) == [entries[0].instance] + Names(entries[1..])
  {
    var n := |entries| - 1;
    if n > 0 {
      assert entries[..n][1..] == entries[1..][..n - 1];
      NamesFront(entries[..n]);
    }
  }

  lemma ToldAppend(log: seq<Notice>, e: Notice, h: LookupHandle)
    ensures Told(log + [e], h) == if e.Found? && e.handle == h then Told(log, h) + [e.entry.instance] else Told(log, h)
  {
    assert (log + [e])[..|log|] == log;
  }

  lemma TellAccounts(c: Ctx, told: seq<Name>)
    requires Accounted(c, told + Names(c.ready)) && Bounded(c) && c.ready != []
    ensures var after := told + [c.ready[0].instance];
      && Accounted(c.(ready := c.ready[1..]), after + Names(c.ready[1..]))
      && NoRepeats(after) && |after| <= c.maxEntries
  {
    var after := told + [c.ready[0].instance];
    NamesFront(c.ready);
    assert after + Names(c.ready[1..]) == told + Names(c.ready);
    EmittedIsFlagged(c, told + Names(c.ready));
    NoRepeatsParts(after, Names(c.ready[1..]));
  }

  lemma TellOthers(lookups: map<nat, Ctx>, log: seq<Notice>, k: nat, e: Notice)
    requires k in lookups && e.handle == HandleAt(lookups, k)
    ensures forall j :: j in lookups && j != k ==> Told(log + [e], HandleAt(lookups, j)) == Told(log, HandleAt(lookups, j))
  {
    forall j | j in lookups && j != k
      ensures Told(log + [e], HandleAt(lookups, j)) == Told(log, HandleAt(lookups, j))
    {
      ToldAppend(log, e, HandleAt(lookups, j));
    }
  }

  lemma TellOnce(windows: map<LookupHandle, Window>, log: seq<Notice>, e: Notice)
    requires ToldOnce(windows, log) && e.Found? && e.handle in windows
    requires NoRepeats(Told(log, e.handle) + [e.entry.instance])
    requires |Told(log, e.handle)| < windows[e.handle].maxEntries
    ensures ToldOnce(windows, log + [e])
  {
    forall h | h in windows
      ensures NoRepeats(Told(log + [e], h)) && |Told(log + [e], h)| <= windows[h].maxEntries
    {
      ToldAppend(log, e, h);
    }
  }

  lemma TellAccounted(lookups: map<nat, Ctx>, log: seq<Notice>, k: nat, c: Ctx, e: Notice)
    requires k in lookups && c.generation == lookups[k].generation && e.handle == HandleAt(lookups, k)
    requires AllAccounted(lookups, log) && Accounted(c, Told(log + [e], e.handle) + Names(c.ready))
    ensures AllAccounted(lookups[k := c], log + [e])
  {
    var after := lookups[k := c];
    TellOthers(lookups, log, k, e);
    forall j | j in after
      ensures Accounted(after[j], Told(log + [e], HandleAt(after, j)) + Names(after[j].ready))
    {
      if j != k { assert after[j] == lookups[j] && HandleAt(after, j) == HandleAt(lookups, j); }
    }
  }

  lemma ReplaceSound(lookups: map<nat, Ctx>, k: nat, c: Ctx)
    requires AllSound(lookups) && Sound(c)
    ensures AllSound(lookups[k := c])
  {
  }

  lemma TellReporting(lookups: map<nat, Ctx>, windows: map<LookupHandle, Window>, log: seq<Notice>,
                      k: nat, c: Ctx, e: Notice)
    requires Reporting(lookups, windows, log) && k in lookups && lookups[k].ready != []
    requires c == lookups[k].(ready := lookups[k].ready[1..])
    requires e.Found? && e.handle == HandleAt(lookups, k) && e.entry == lookups[k].ready[0]
    requires e.handle in windows && windows[e.handle].maxEntries == c.maxEntries
    ensures Reporting(lookups[k := c], windows, log + [e])
  {
    var told := Told(log, e.handle);
    ToldAppend(log, e, e.handle);
    assert Sound(c) by { ReadyKeepsSound(lookups[k], c.ready); }
    TellAccounts(lookups[k], told);
    TellAccounted(lookups, log, k, c, e);
    TellOnce(windows, log, e);
    ReplaceSound(lookups, k, c);
  }

  lemma CloseReporting(lookups: map<nat, Ctx>, windows: map<LookupHandle, Window>, log: seq<Notice>, k: nat)
    requires Reporting(lookups, windows, log) && k in lookups
    ensures Reporting(lookups - {k}, windows, log)
  {
    var after := lookups - {k};
    forall j | j in after
      ensures Sound(after[j]) && Accounted(after[j], Told(log, HandleAt(after, j)) + Names(after[j].ready))
    {
      assert after[j] == lookups[j];
    }
  }

  lemma DoneReporting(lookups: map<nat, Ctx>, windows: map<LookupHandle, Window>, log: seq<Notice>, h: LookupHandle)
    requires Reporting(lookups, windows, log)
    ensures Reporting(lookups, windows, log + [Done(h)])
  {
    forall g
      ensures Told(log + [Done(h)], g) == Told(log, g)
    {
      ToldAppend(log, Done(h), g);
    }
  }

  lemma FeedKeepsAccount(c: Ctx, step: Step, record: Record, told: seq<Name>)
    requires Sound(c) && Tracked(c, step) && Accounted(c, told + Names(c.ready))
    ensures var d := Fed(c, step, record); Sound(d) && Accounted(d, told + Names(d.ready))
  {
    FedKeepsSound(c, step, record);
    FedKeepsFlags(c, step, record);
    FedKeepsRest(c, step, record);
  }

  /** Short of telling, a move of the turn leaves what the lookup counts as reported accounted for. */
  lemma TurnKeepsAccount(w: World, m: Move, told: seq<Name>)
    requires Allowed(w, m) && OfTurn(m) && !m.Report?
    requires var c := w.lookups[m.k]; Sound(c) && Accounted(c, told + Names(c.ready))
    ensures var d := Apply(w, m).lookups[m.k]; Sound(d) && Accounted(d, told + Names(d.ready))
  {
    var c := w.lookups[m.k];
    if m.Feed? {
      FeedKeepsAccount(c, c.subqueries[m.q], m.record, told);
    } else if m.CollectReady? {
      CollectAllKeepsSound(c, m.order, told);
    } else if m.Leg? {
      RegisterKeepsSound(c, w.nextQuery, m.step);
    } else if m.TakePending? {
      TakePendingKeepsSound(c);
    } else {
      DropLegsKeepsSound(c, m.gone);
    }
  }

  lemma TurnKeepsReporting(w: World, m: Move)
    requires Reporting(w.lookups, w.windows, w.log) && Minted(w.lookups, w.windows, w.nextGeneration)
    requires Allowed(w, m) && OfTurn(m)
    ensures var v := Apply(w, m); Reporting(v.lookups, v.windows, v.log)
  {
    var v := Apply(w, m);
    TurnMovesOne(w, m);
    if m.Report? {
      TellReporting(w.lookups, w.windows, w.log, m.k, v.lookups[m.k], v.log[|w.log|]);
    } else {
      TurnKeepsAccount(w, m, Told(w.log, HandleAt(w.lookups, m.k)));
      ReplaceReporting(w.lookups, w.windows, w.log, m.k, v.lookups[m.k]);
    }
  }

  lemma MoveKeepsReporting(w: World, m: Move)
    requires Reporting(w.lookups, w.windows, w.log) && Minted(w.lookups, w.windows, w.nextGeneration)
    requires Orderly(w.lookups, w.windows, w.cancelled, w.log) && Allowed(w, m)
    ensures var v := Apply(w, m); Reporting(v.lookups, v.windows, v.log)
  {
    if OfTurn(m) {
      TurnKeepsReporting(w, m);
    } else if m.Open? {
      var c := Seeded(m.seed, m.deadline, m.maxEntries);
      var h := LookupHandle(m.slot, w.nextGeneration);
      UnheardOf(w, h);
      SeededIsSound(m.seed, m.deadline, m.maxEntries);
      GenerationKeepsSound(c, w.nextGeneration);
      MintReporting(w.lookups, w.windows, w.log, m.slot, c.(generation := w.nextGeneration), h, WindowOf(c));
    } else if m.CancelLookup? {
      CloseReporting(w.lookups, w.windows, w.log, m.k);
    } else if m.FinishLookup? {
      CloseReporting(w.lookups, w.windows, w.log, m.k);
      DoneReporting(w.lookups - {m.k}, w.windows, w.log, HandleAt(w.lookups, m.k));
    }
  }

  // ----- In time -----

  lemma ReplaceTimely(lookups: map<nat, Ctx>, times: map<nat, map<Name, nat>>, clock: nat, k: nat, c: Ctx,
                      stamps: map<Name, nat>)
    requires Timely(lookups, times, clock) && InTime(c, stamps, clock)
    ensures Timely(lookups[k := c], times[k := stamps], clock)
  {
  }

  lemma SameTimely(lookups: map<nat, Ctx>, times: map<nat, map<Name, nat>>, clock: nat, k: nat, c: Ctx)
    requires Timely(lookups, times, clock) && k in times && InTime(c, times[k], clock)
    ensures Timely(lookups[k := c], times, clock)
  {
  }

  lemma FedInTime(c: Ctx, step: Step, record: Record, stamps: map<Name, nat>, clock: nat)
    requires InTime(c, stamps, clock)
    ensures var d := Fed(c, step, record); InTime(d, Stamped(stamps, d.partials, clock), clock)
  {
    var d := Fed(c, step, record);
    FedKeepsFlags(c, step, record);
    FedKeepsRest(c, step, record);
    forall n | n in Whole(d.partials) && d.partials[n].emitted
      ensures n in stamps && !c.Expired(stamps[n])
    {
      assert n in Flagged(d.partials);
      assert n in Whole(c.partials);
    }
  }

  /** Inside the window everything whole was whole in time, so all of it may be taken. */
  lemma CollectInTime(c: Ctx, order: seq<Name>, stamps: map<Name, nat>, clock: nat)
    requires InTime(c, stamps, clock) && !c.Expired(clock) && forall n :: n in order ==> n in c.partials
    ensures InTime(CollectAll(c, order), stamps, clock)
  {
    CollectAllReports(c, order);
  }

  /** An entry waiting to be told belongs to an instance taken in time. */
  lemma ReadyIsStamped(c: Ctx, told: seq<Name>, stamps: map<Name, nat>, clock: nat)
    requires Accounted(c, told + Names(c.ready)) && InTime(c, stamps, clock) && c.ready != []
    ensures c.ready[0].instance in stamps && !c.Expired(stamps[c.ready[0].instance])
  {
    var n, all := c.ready[0].instance, told + Names(c.ready);
    NamesFront(c.ready);
    assert all[|told|] == n;
    assert n in (set x | x in all);
    assert n in Flagged(c.partials);
  }

  lemma TurnKeepsTimely(w: World, m: Move)
    requires Timely(w.lookups, w.times, w.clock) && Allowed(w, m) && OfTurn(m)
    ensures var v := Apply(w, m); Timely(v.lookups, v.times, v.clock)
  {
    var c, v := w.lookups[m.k], Apply(w, m);
    if m.Feed? {
      FedInTime(c, c.subqueries[m.q], m.record, w.times[m.k], w.clock);
      ReplaceTimely(w.lookups, w.times, w.clock, m.k, v.lookups[m.k], v.times[m.k]);
    } else {
      if m.CollectReady? { CollectInTime(c, m.order, w.times[m.k], w.clock); }
      SameTimely(w.lookups, w.times, w.clock, m.k, v.lookups[m.k]);
    }
  }

  lemma MoveKeepsTimely(w: World, m: Move)
    requires Timely(w.lookups, w.times, w.clock) && Allowed(w, m)
    ensures var v := Apply(w, m); Timely(v.lookups, v.times, v.clock)
  {
    if OfTurn(m) {
      TurnKeepsTimely(w, m);
    } else if m.Open? {
      SeededIsSound(m.seed, m.deadline, m.maxEntries);
      ReplaceTimely(w.lookups, w.times, w.clock, m.slot, Apply(w, m).lookups[m.slot], map[]);
    }
  }

  /** What is told was whole before its window shut, whenever it is told. */
  lemma ReadyIsInTime(w: World, m: Move)
    requires Timely(w.lookups, w.times, w.clock) && Reporting(w.lookups, w.windows, w.log) && Allowed(w, m)
    ensures TellsInTime(w, m)
  {
    if m.Report? {
      ReadyIsStamped(w.lookups[m.k], Told(w.log, HandleAt(w.lookups, m.k)), w.times[m.k], w.clock);
    }
  }

  // ----- Done only when over -----

  lemma TellJustified(windows: map<LookupHandle, Window>, log: seq<Notice>, clock: nat, ended: map<LookupHandle, End>,
                      e: Notice)
    requires Justified(windows, log, clock, ended) && e.Found?
    ensures Justified(windows, log + [e], clock, ended)
  {
    assert forall h :: Done(h) in log + [e] <==> Done(h) in log;
  }

  lemma DoneJustified(windows: map<LookupHandle, Window>, log: seq<Notice>, clock: nat, ended: map<LookupHandle, End>,
                      h: LookupHandle, c: Ctx)
    requires Justified(windows, log, clock, ended) && IsOver(c, clock) && h in windows && windows[h] == WindowOf(c)
    ensures Justified(windows, log + [Done(h)], clock, ended[h := End(c, clock)])
  {
    assert forall g :: Done(g) in log + [Done(h)] <==> Done(g) in log || g == h;
  }

  lemma MoveKeepsJustified(w: World, m: Move)
    requires Justified(w.windows, w.log, w.clock, w.ended) && Minted(w.lookups, w.windows, w.nextGeneration)
    requires Allowed(w, m)
    ensures var v := Apply(w, m); Justified(v.windows, v.log, v.clock, v.ended)
  {
    if m.Report? {
      TellJustified(w.windows, w.log, w.clock, w.ended, Apply(w, m).log[|w.log|]);
    } else if m.FinishLookup? {
      DoneJustified(w.windows, w.log, w.clock, w.ended, HandleAt(w.lookups, m.k), w.lookups[m.k]);
    } else if OfTurn(m) {
      TurnMovesOne(w, m);
    }
  }

  // ----- Queries that are gone -----

  lemma LeaveDeparts(queries: map<QueryHandle, QueryCtx>, left: map<QueryHandle, QueryCtx>, nextQuery: nat,
                     gone: set<QueryHandle>)
    requires Departed(queries, left, nextQuery)
    ensures Departed(queries - gone, Leave(left, queries, gone), nextQuery)
  {
  }

  lemma MoveKeepsDeparted(w: World, m: Move)
    requires Departed(w.queries, w.left, w.nextQuery) && Allowed(w, m)
    ensures var v := Apply(w, m); Departed(v.queries, v.left, v.nextQuery)
  {
    if m.CancelLookup? || m.FinishLookup? {
      LeaveDeparts(w.queries, w.left, w.nextQuery, w.lookups[m.k].subqueries.Keys);
    } else if m.EndQuery? {
      LeaveDeparts(w.queries, w.left, w.nextQuery, {m.q});
    }
  }

  // ----- Every move keeps it all -----

  lemma SeededIsSound(seed: Seed, deadline: Option<nat>, maxEntries: nat)
    requires maxEntries >= 1
    ensures var c := Seeded(seed, deadline, maxEntries);
      && Sound(c) && Settled(c) && c.subqueries == map[] && c.emitted == 0 && Flagged(c.partials) == {}
      && Whole(c.partials) == {}
  {
    match seed
    case Browse =>
    case Instance(name) => PtrKeepsSound(NewCtx(deadline, maxEntries), name);
    case Host(name) => SeedHostKeepsSound(deadline, maxEntries, name);
  }

  lemma MoveKeepsSafe(w: World, m: Move)
    requires Safe(w) && Allowed(w, m)
    ensures Safe(Apply(w, m))
  {
    ReadyIsInTime(w, m);
    MoveKeepsOwned(w, m);
    MoveKeepsMinted(w, m);
    MoveKeepsOrderly(w, m);
    MoveKeepsReporting(w, m);
    MoveKeepsTimely(w, m);
    MoveKeepsJustified(w, m);
    MoveKeepsDeparted(w, m);
  }

  /** Ending a lookup leaves no query of its own behind and every other, and its handle no longer resolves. */
  lemma EndTakesItsLegs(w: World, m: Move)
    requires Safe(w) && Allowed(w, m) && (m.CancelLookup? || m.FinishLookup?)
    ensures var v, h := Apply(w, m), HandleAt(w.lookups, m.k);
      && !Live(v.lookups, h)
      && (forall q :: q in v.queries <==> q in w.queries && w.queries[q].owner != Some(h))
      && (forall g :: g != h ==> Live(v.lookups, g) == Live(w.lookups, g))
  {
    CloseOwned(w.lookups, w.queries, w.nextQuery, m.k);
    CloseRetiresHandle(w.lookups, m.k);
  }

  // ----- Runs -----

  const EMPTY := World(map[], map[], 0, 0, map[], {}, [], 0, map[], map[], map[])

  /** Everything that has happened so far, move by move. A run that goes on has it as a prefix. */
  type Run = seq<Move>

  /** Where a run leads. A move that is not open to anyone at that point changes nothing. */
  ghost function After(run: Run): World {
    if run == [] then EMPTY
    else
      var w, move := After(run[..|run| - 1]), run[|run| - 1];
      if Allowed(w, move) then Apply(w, move) else w
  }

  lemma AfterNext(run: Run, move: Move)
    requires Allowed(After(run), move)
    ensures After(run + [move]) == Apply(After(run), move)
  {
    assert (run + [move])[..|run|] == run;
  }

  /** Every run, however long and in whatever order, is safe. */
  lemma {:induction false} EveryRunIsSafe(run: Run)
    ensures Safe(After(run))
  {
    if run != [] {
      var w, move := After(run[..|run| - 1]), run[|run| - 1];
      EveryRunIsSafe(run[..|run| - 1]);
      if Allowed(w, move) { MoveKeepsSafe(w, move); }
    }
  }

  lemma MintedAfresh(run: Run, slot: nat)
    ensures LookupHandle(slot, After(run).nextGeneration) !in After(run).windows
  {
    EveryRunIsSafe(run);
  }

  // ----- Over time -----

  /** Nothing said is unsaid, and no handle is forgotten. */
  ghost predicate Grows(w: World, v: World) {
    && w.cancelled <= v.cancelled && w.log <= v.log
    && (forall h :: h in w.windows ==> h in v.windows && v.windows[h] == w.windows[h])
  }

  /** A handle that stopped resolving never resolves again, even when its slot has a new occupant. */
  lemma StaleStaysStale(w: World, v: World, h: LookupHandle)
    requires Safe(w) && Safe(v) && Grows(w, v) && h in w.windows && !Live(w.lookups, h)
    ensures !Live(v.lookups, h)
  {
    assert Done(h) in w.log ==> Done(h) in v.log;
  }

  lemma MoveGrows(w: World, m: Move)
    requires Allowed(w, m) && (m.Open? ==> LookupHandle(m.slot, w.nextGeneration) !in w.windows)
    ensures Grows(w, Apply(w, m))
  {
    match m
    case Open(slot, seed, deadline, maxEntries) => MintGrows(w, slot, Seeded(seed, deadline, maxEntries));
    case Report(k) => assert w.log <= Tell(w, k).log;
    case FinishLookup(k) => assert w.log <= Finish(w, k).log;
    case CancelLookup(k) => assert w.cancelled <= Cancel(w, k).cancelled;
    case _ => SilentMove(w, m);
  }

  lemma SilentMove(w: World, m: Move)
    requires Allowed(w, m) && !m.Open? && !m.Report? && !m.FinishLookup? && !m.CancelLookup?
    ensures var v := Apply(w, m); v.log == w.log && v.windows == w.windows && v.cancelled == w.cancelled
  {
  }

  lemma MintGrows(w: World, slot: nat, c: Ctx)
    requires LookupHandle(slot, w.nextGeneration) !in w.windows
    ensures Grows(w, Mint(w, slot, c))
  {
  }

  lemma GrowsOn(u: World, v: World, w: World)
    requires Grows(u, v) && Grows(v, w)
    ensures Grows(u, w)
  {
  }

  lemma {:induction false} RunGrows(run: Run, later: Run)
    requires run <= later
    ensures Grows(After(run), After(later))
  {
    if later != run {
      var front, move := later[..|later| - 1], later[|later| - 1];
      assert run <= front;
      RunGrows(run, front);
      if Allowed(After(front), move) {
        if move.Open? { MintedAfresh(front, move.slot); }
        MoveGrows(After(front), move);
        GrowsOn(After(run), After(front), Apply(After(front), move));
      }
    }
  }

  /** Once a handle has stopped resolving, no run brings it back, whoever is given its slot. */
  lemma RetiredForever(run: Run, later: Run, h: LookupHandle)
    requires run <= later && h in After(run).windows && !Live(After(run).lookups, h)
    ensures !Live(After(later).lookups, h)
  {
    EveryRunIsSafe(run);
    EveryRunIsSafe(later);
    RunGrows(run, later);
    StaleStaysStale(After(run), After(later), h);
  }

  lemma MoveKeepsLeft(w: World, m: Move, q: QueryHandle)
    requires Departed(w.queries, w.left, w.nextQuery) && Allowed(w, m) && q in w.left
    ensures q in Apply(w, m).left && Apply(w, m).left[q] == w.left[q]
  {
  }

  /** A query that has left never comes back, and where its reading stopped is settled. */
  lemma {:induction false} LeftForGood(run: Run, later: Run, q: QueryHandle)
    requires run <= later && q in After(run).left
    ensures q in After(later).left && After(later).left[q] == After(run).left[q] && q !in After(later).queries
  {
    EveryRunIsSafe(later);
    if later != run {
      var front, move := later[..|later| - 1], later[|later| - 1];
      assert run <= front;
      LeftForGood(run, front, q);
      EveryRunIsSafe(front);
      if Allowed(After(front), move) { MoveKeepsLeft(After(front), move, q); }
    }
  }

  /** In every run each query ever started is still read or has left for good with its last cursor. */
  lemma EveryQueryIsKnown(run: Run, q: QueryHandle)
    ensures var w := After(run); q < w.nextQuery <==> ((q in w.queries) != (q in w.left))
  {
    EveryRunIsSafe(run);
  }

  /** How far a run read the answers of `q`: where its last reading, if any, stopped. */
  ghost function LastRead(run: Run, q: QueryHandle): nat {
    if run == [] then 0
    else
      var front, move := run[..|run| - 1], run[|run| - 1];
      if move.Read? && move.q == q && q in After(front).queries then move.seqNo else LastRead(front, q)
  }

  ghost predicate ReadUpTo(w: World, q: QueryHandle, seqNo: nat) {
    if q in w.queries then w.queries[q].lastSeq == seqNo
    else if q in w.left then w.left[q].lastSeq == seqNo
    else seqNo == 0
  }

  lemma MoveReadsUpTo(w: World, m: Move, q: QueryHandle, seqNo: nat)
    requires Allowed(w, m) && ReadUpTo(w, q, seqNo) && Departed(w.queries, w.left, w.nextQuery)
    ensures ReadUpTo(Apply(w, m), q, if m.Read? && m.q == q && q in w.queries then m.seqNo else seqNo)
  {
  }

  /**
   A query's cursor, and the one it left with, is where the run last read it, whatever it was that ended it: cancelled,
   swept, retired or gone with its lookup. An answer accepted past that was never read.
   */
  lemma {:induction false} CursorIsLastRead(run: Run, q: QueryHandle)
    ensures ReadUpTo(After(run), q, LastRead(run, q))
  {
    if run != [] {
      var front, move := run[..|run| - 1], run[|run| - 1];
      CursorIsLastRead(front, q);
      EveryRunIsSafe(front);
      if Allowed(After(front), move) { MoveReadsUpTo(After(front), move, q, LastRead(front, q)); }
    }
  }

  /** In every run a query that belongs to a lookup belongs to one that is running, and is among its legs. */
  lemma NoOrphans(run: Run, q: QueryHandle)
    requires q in After(run).queries && After(run).queries[q].owner.Some?
    ensures var w := After(run);
      var h := w.queries[q].owner.value;
      Live(w.lookups, h) && q in w.lookups[h.key].subqueries
  {
    EveryRunIsSafe(run);
  }

  /**
   What the caller hears of one lookup, in every run: each instance at most once, no more of them than asked
   for, each completed inside the window; and one `Done`, after them all, unless the caller cancelled.
   */
  lemma EveryLookupReportsOnce(run: Run, h: LookupHandle)
    requires h in After(run).windows
    ensures var w := After(run);
      && (Live(w.lookups, h) ==>
            w.windows[h] == Window(w.lookups[h.key].deadline, w.lookups[h.key].maxEntries))
      && NoRepeats(Told(w.log, h)) && |Told(w.log, h)| <= w.windows[h].maxEntries
      && (forall i :: 0 <= i < |w.log| && w.log[i].Found? && w.log[i].handle == h && w.windows[h].deadline.Some? ==>
            w.log[i].completedAt < w.windows[h].deadline.value)
      && DoneCount(w.log, h) == (if Live(w.lookups, h) || h in w.cancelled then 0 else 1)
      && (forall i, j :: 0 <= i < j < |w.log| && w.log[i] == Done(h) ==> w.log[j].handle != h)
  {
    EveryRunIsSafe(run);
    DoneAtMostOnce(After(run).log, h);
  }

  /** `emitted` is the number of instances flagged; with nothing waiting it is also the number told. */
  lemma EmittedCountsReports(run: Run, k: nat)
    requires k in After(run).lookups
    ensures var w := After(run);
      var c := w.lookups[k];
      && c.emitted == |Flagged(c.partials)| <= c.maxEntries
      && (c.ready == [] ==> c.emitted == |Told(w.log, HandleAt(w.lookups, k))|)
  {
    EveryRunIsSafe(run);
    var w := After(run);
    var told := Told(w.log, HandleAt(w.lookups, k));
    EmittedIsFlagged(w.lookups[k], told + Names(w.lookups[k].ready));
  }

  /** A lookup starts at most `4 * maxEntries + 1` sub-queries in its whole life. */
  lemma FanOutIsBounded(run: Run, k: nat)
    requires k in After(run).lookups
    ensures var c := After(run).lookups[k];
      && c.launched + |c.pending| <= 1 + 2 * |c.partials| + 2 * |c.hostsQueried|
      && |c.partials| <= c.maxEntries && |c.hostsQueried| <= c.maxEntries
      && c.launched <= 4 * c.maxEntries + 1
  {
    EveryRunIsSafe(run);
  }

  function DoneCount(log: seq<Notice>, h: LookupHandle): nat {
    if log == [] then 0
    else DoneCount(log[..|log| - 1], h) + (if log[|log| - 1] == Done(h) then 1 else 0)
  }

  lemma {:induction false} DoneAtMostOnce(log: seq<Notice>, h: LookupHandle)
    requires forall i, j :: 0 <= i < j < |log| && log[i].Done? ==> log[j].handle != log[i].handle
    ensures DoneCount(log, h) == if Done(h) in log then 1 else 0
  {
    if log != [] {
      DoneAtMostOnce(log[..|log| - 1], h);
      assert log == log[..|log| - 1] + [log[|log| - 1]];
    }
  }

  /** `LookupDone` is never premature: the lookup had expired, or had reported all it would and was out of room or legs. */
  lemma DoneWasOver(run: Run, h: LookupHandle)
    requires Done(h) in After(run).log
    ensures var w := After(run);
      && h in w.ended && w.ended[h].at <= w.clock
      && h in w.windows && w.windows[h] == Window(w.ended[h].last.deadline, w.ended[h].last.maxEntries)
      && var c, at := w.ended[h].last, w.ended[h].at;
         || (c.deadline.Some? && at >= c.deadline.value)
         || (&& c.ready == []
             && (forall k :: k in c.partials && !c.partials[k].emitted ==> !c.partials[k].Complete())
             && (c.emitted >= c.maxEntries || (c.launched > 0 && c.subqueries == map[] && c.pending == [])))
  {
    EveryRunIsSafe(run);
  }

  /** What a stamp is: the instant of the answer that completed the entry. It stays until the entry is broken up. */
  lemma StampIsCompletion(w: World, m: Move, k: nat, n: Name)
    requires Allowed(w, m) && k in w.lookups && k in w.times && w.times[k].Keys == Whole(w.lookups[k].partials)
    requires var v := Apply(w, m); k in v.lookups && k in v.times && n in v.times[k]
    ensures var v := Apply(w, m);
      if n in w.times[k] then v.times[k][n] == w.times[k][n]
      else m.Feed? && m.k == k && v.times[k][n] == w.clock && n in v.lookups[k].partials &&
           v.lookups[k].partials[n].Complete()
  {
    if m.Feed? && m.k == k {
      FedKeepsFlags(w.lookups[k], w.lookups[k].subqueries[m.q], m.record);
      assert n in Flagged(w.lookups[k].partials) ==> n in Whole(w.lookups[k].partials);
      var d := Apply(w, m).lookups[k];
      assert n in d.partials && d.partials[n].emitted ==> n in Flagged(d.partials);
    }
  }
}
