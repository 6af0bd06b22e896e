/** The driver's side of every lookup (hick-mio/src/discovery.rs, `Lookups` and the lookup stage of a tick). */
module LookupDriver {
  import opened AnswerPools
  import opened Answers
  import opened HostAddresses
  import opened Scans
  import opened ServiceDiscovery
  import opened LookupStates
  import opened Lookup
  import opened LookupWorlds
  import opened LookupTurns
  import Fifo

  /** What became of one sub-query start: a leg, a window already shut, or a full query pool. */
  datatype Outcome = Started | Shut | Refused

  /** What the driver's plain fields hold. */
  datatype Front = Front(queries: map<QueryHandle, QueryCtx>, nextQuery: nat, nextGeneration: nat, clock: nat,
                         told: seq<Fifo.Event>)

  function FrontOf(w: World): Front {
    Front(w.queries, w.nextQuery, w.nextGeneration, w.clock, Published(w.log))
  }

  lemma QuietFront(w: World, k: nat, c: Ctx)
    ensures FrontOf(Replace(w, k, c)) == FrontOf(w)
  {
  }

  lemma FeedFront(w: World, k: nat, step: Step, record: Record)
    requires k in w.lookups && k in w.times
    ensures FrontOf(FeedAt(w, k, step, record)) == FrontOf(w)
  {
  }

  lemma LegFront(w: World, k: nat, step: Step)
    requires k in w.lookups
    ensures var owned := QueryCtx(0, Some(HandleAt(w.lookups, k)));
      FrontOf(Register(w, k, step)) ==
        FrontOf(w).(queries := w.queries[w.nextQuery := owned], nextQuery := w.nextQuery + 1)
  {
  }

  lemma TellFront(w: World, k: nat)
    requires k in w.lookups && w.lookups[k].ready != []
    ensures var event := Fifo.Lookup(HandleAt(w.lookups, k), w.lookups[k].ready[0]);
      FrontOf(Tell(w, k)) == FrontOf(w).(told := Published(w.log) + [event])
  {
    var v := Tell(w, k);
    PublishedAppend(w.log, v.log[|w.log|]);
  }

  lemma MintFront(w: World, slot: nat, c: Ctx)
    ensures FrontOf(Mint(w, slot, c)) == FrontOf(w).(nextGeneration := w.nextGeneration + 1)
  {
  }

  lemma FinishFront(w: World, k: nat)
    requires k in w.lookups
    ensures FrontOf(Finish(w, k)) ==
      FrontOf(w).(queries := w.queries - w.lookups[k].subqueries.Keys,
                  told := Published(w.log) + [Fifo.LookupDone(HandleAt(w.lookups, k))])
  {
    PublishedAppend(w.log, Done(HandleAt(w.lookups, k)));
  }

  /** The objects in the slab hold these values, each in a slot of its own. */
  ghost predicate Keeps(slab: map<nat, LookupCtx>, lookups: map<nat, Ctx>)
    reads slab.Values
  {
    slab.Keys == lookups.Keys && forall k :: k in slab ==> slab[k].slot == k && slab[k].View() == lookups[k]
  }

  lemma KeepsWithout(slab: map<nat, LookupCtx>, lookups: map<nat, Ctx>, k: nat)
    requires Keeps(slab, lookups)
    ensures Keeps(slab - {k}, lookups - {k})
  {
  }

  /** Only the object in slot `k` changed. */
  lemma KeepsAgain(slab: map<nat, LookupCtx>, before: map<nat, Ctx>, after: map<nat, Ctx>, k: nat)
    requires k in slab && slab.Keys == before.Keys && slab[k].slot == k && after == before[k := slab[k].View()]
    requires forall j :: j in slab && j != k ==> slab[j].slot == j && slab[j].View() == before[j]
    ensures Keeps(slab, after)
  {
  }

  lemma KeepsWith(slab: map<nat, LookupCtx>, lookups: map<nat, Ctx>, k: nat, ctx: LookupCtx)
    requires Keeps(slab, lookups) && ctx.slot == k
    ensures Keeps(slab[k := ctx], lookups[k := ctx.View()])
  {
  }

  /** Nothing was added to the slab, and what is left is what was there. */
  ghost predicate Within<T>(after: map<nat, T>, before: map<nat, T>) {
    after.Keys <= before.Keys && forall k :: k in after ==> after[k] == before[k]
  }

  /** The window runs for `timeout` from an instant between the two, and the cap is as asked for. */
  predicate OpenedFor(c: Ctx, timeout: Option<nat>, maxEntries: nat, since: nat, now: nat) {
    && c.maxEntries == maxEntries && c.deadline.Some? == timeout.Some?
    && (timeout.Some? ==> since + timeout.value <= c.deadline.value <= now + timeout.value)
  }

  class Mdns {
    var slab: map<nat, LookupCtx>
    var nextGeneration: nat
    var queries: map<QueryHandle, QueryCtx>
    var nextQuery: nat
    var dropped: nat
    var clock: nat
    /** The lookup events queued for the caller, and those already read. */
    var events: seq<Fifo.Event>
    ghost var popped: seq<Fifo.Event>
    /** Everything that has happened, and where it led. */
    ghost var run: Run
    ghost var world: World

    /** The plain fields hold what `world` says, and `world` is where the run led. */
    ghost predicate Fronted()
      reads this
    {
      world == After(run) && FrontOf(world) == Front(queries, nextQuery, nextGeneration, clock, popped + events)
    }

    /** So does the lookup in slot `k`: all that its own turn relies on. */
    ghost predicate At(k: nat)
      requires k in slab
      reads this, slab[k]
    {
      Fronted() && k in world.lookups && slab[k].View() == world.lookups[k]
    }

    /** So does every lookup, each in a slot of its own. */
    ghost predicate Linked()
      reads this, slab.Values
    {
      Fronted() && Keeps(slab, world.lookups)
    }

    /** At rest between ticks: nothing complete is waiting. */
    ghost predicate Valid()
      reads this, slab.Values
    {
      Linked() && AllSettled(world.lookups)
    }

    ghost function DeskAt(k: nat): Desk
      requires k in slab
      reads this, slab[k]
    {
      Desk(LookupHandle(k, slab[k].generation), slab[k].View(), queries, nextQuery, dropped, world.left)
    }

    constructor ()
      ensures Valid() && slab == map[] && queries == map[] && world.log == [] && world.windows == map[]
    {
      slab, nextGeneration, queries, nextQuery, dropped, clock, events := map[], 0, map[], 0, 0, 0, [];
      popped := [];
      run, world := [], EMPTY;
    }

    /** Time passes, by any amount. */
    method Wait()
      requires Fronted()
      modifies this`clock, this`run, this`world
      ensures Fronted() && old(run) <= run && clock >= old(clock) && world == old(world).(clock := clock)
    {
      var elapsed: int := *;
      if elapsed > 0 {
        Do(Pass(elapsed));
        clock := clock + elapsed;
      }
    }

    /** A reading of a clock that never runs backwards. */
    method Now() returns (now: nat)
      requires Fronted()
      modifies this`clock, this`run, this`world
      ensures Fronted() && old(run) <= run && now == clock >= old(clock) && world == old(world).(clock := clock)
    {
      Wait();
      now := clock;
    }

    /** The same, in the turn of one lookup. */
    method NowAt(k: nat) returns (now: nat)
      requires k in slab && At(k)
      modifies this`clock, this`run, this`world
      ensures At(k) && old(run) <= run && OnlyAt(old(world), world, k) && DeskAt(k) == old(DeskAt(k)) && now == clock
    {
      now := Now();
      LaterIsOnlyAt(old(world), world, k);
    }

    /** One move more. */
    ghost method Do(m: Move)
      requires world == After(run) && Allowed(world, m)
      modifies this`run, this`world
      ensures world == Apply(old(world), m) && world == After(run) && old(run) <= run
    {
      AfterNext(run, m);
      run, world := run + [m], Apply(world, m);
    }

    /** The generation check: a handle names one occupant of its slot and no other. */
    predicate Resolves(h: LookupHandle)
      reads this, slab.Values
    {
      h.key in slab && slab[h.key].generation == h.generation
    }

    // ----- Starting sub-queries -----

    /** Records a freshly started sub-query as the lookup's. The one place an owner is ever set. */
    method RecordLeg(k: nat, step: Step)
      requires k in slab
      modifies this`queries, this`nextQuery, slab[k]
      ensures nextQuery == old(nextQuery) + 1
      ensures queries == old(queries)[old(nextQuery) := QueryCtx(0, Some(LookupHandle(k, old(slab[k].generation))))]
      ensures slab[k].View() == LookupStates.AddLeg(old(slab[k].View()), old(nextQuery), step)
    {
      var sub := nextQuery;
      nextQuery := nextQuery + 1;
      queries := queries[sub := QueryCtx(0, Some(LookupHandle(k, slab[k].generation)))];
      slab[k].AddLeg(sub, step);
    }

    /** Query, owner and leg appear together. */
    method RegisterSubquery(k: nat, step: Step)
      requires k in slab && At(k) && MayLaunch(world.lookups[k], step)
      modifies this`queries, this`nextQuery, this`run, this`world, slab[k]
      ensures At(k) && old(run) <= run && world == Register(old(world), k, step)
      ensures slab[k].subqueries == old(slab[k].subqueries)[old(nextQuery) := step]
      ensures queries == old(queries)[old(nextQuery) := QueryCtx(0, Some(LookupHandle(k, old(slab[k].generation))))]
    {
      LegFront(world, k, step);
      Do(Leg(k, step));
      RecordLeg(k, step);
    }

    method StartLeg(k: nat, step: Step)
      requires k in slab && At(k) && MayLaunch(slab[k].View(), step)
      modifies this`queries, this`nextQuery, this`run, this`world, slab[k]
      ensures At(k) && old(run) <= run && OnlyAt(old(world), world, k) && world.clock == old(world).clock
      ensures DeskAt(k) == Opened(old(DeskAt(k)), step)
    {
      RegisterSubquery(k, step);
    }

    /** Starts one leg inside the lookup's window, on a reading taken here, if the proto layer accepts it. */
    method OpenLeg(k: nat, step: Step, accepted: bool) returns (outcome: Outcome)
      requires k in slab && At(k) && MayLaunch(slab[k].View(), step)
      modifies this`queries, this`nextQuery, this`clock, this`run, this`world, slab[k]
      ensures At(k) && old(run) <= run && OnlyAt(old(world), world, k)
      ensures DeskAt(k) == if outcome == Started then Opened(old(DeskAt(k)), step) else old(DeskAt(k))
      ensures outcome == Shut <==> slab[k].View().Expired(clock)
      ensures outcome != Shut ==> (outcome == Started) == accepted
    {
      var at := NowAt(k);
      if slab[k].deadline.Some? && at >= slab[k].deadline.value { return Shut; }
      if !accepted { return Refused; }
      ghost var weighed := world;
      StartLeg(k, step);
      OnlyAtOn(old(world), weighed, world, k);
      outcome := Started;
    }

    /** The `i`-th of the starts a lookup asked for, when those before it have been dealt with. */
    method LaunchOne(k: nat, step: Step, accepted: bool, ghost asked: Run, ghost i: nat) returns (outcome: Outcome)
      requires k in slab && At(k) && k in After(asked).lookups
      requires i < |After(asked).lookups[k].pending| && step == After(asked).lookups[k].pending[i]
      requires LaunchedFrom(After(asked).lookups[k], slab[k].View(), i)
      modifies this`queries, this`nextQuery, this`clock, this`run, this`world, slab[k]
      ensures At(k) && old(run) <= run && OnlyAt(old(world), world, k)
      ensures DeskAt(k) == if outcome == Started then Opened(old(DeskAt(k)), step) else old(DeskAt(k))
      ensures outcome == Shut <==> slab[k].View().Expired(clock)
      ensures outcome != Shut ==> (outcome == Started) == accepted
    {
      AskedForMayLaunch(asked, k, slab[k].View(), i);
      outcome := OpenLeg(k, step, accepted);
    }

    method TakeStarts(k: nat) returns (starts: seq<Step>)
      requires k in slab && At(k)
      modifies this`run, this`world, slab[k]
      ensures At(k) && old(run) <= run && OnlyAt(old(world), world, k)
      ensures DeskAt(k) == TakenPending(old(DeskAt(k))) && starts == old(slab[k].pending)
    {
      Do(LookupWorlds.TakePending(k));
      starts := slab[k].TakePending();
    }

    /**
     Starts what a lookup asked for, in order. A refused start is counted and skipped. A shut window starts
     nothing; it ends the loop when the caller has no use for the rest.
     */
    method LaunchEach(k: nat, starts: seq<Step>, stopWhenShut: bool, accepts: (nat, nat) -> bool, ghost asked: Run)
        returns (shut: bool, refused: nat, ghost n: nat)
      requires k in slab && At(k) && k in After(asked).lookups && starts == After(asked).lookups[k].pending
      requires slab[k].View() == After(asked).lookups[k].(pending := [])
      modifies this`queries, this`nextQuery, this`clock, this`run, this`world, slab[k]
      ensures At(k) && old(run) <= run && OnlyAt(old(world), world, k)
      ensures n <= |starts| && DeskAt(k) == Launched(old(DeskAt(k)), starts, accepts, n)
      ensures shut == (n < |starts|) && (shut ==> slab[k].View().Expired(clock))
      ensures refused == Refusals(k, accepts, n)
    {
      ghost var desk := DeskAt(k);
      shut, refused, n := false, 0, 0;
      for i := 0 to |starts|
        invariant At(k) && old(run) <= run && OnlyAt(old(world), world, k)
        invariant n <= i && DeskAt(k) == Launched(desk, starts, accepts, n)
        invariant if shut then n < i && slab[k].View().Expired(clock) else n == i
        invariant refused == Refusals(k, accepts, n)
      {
        if shut && stopWhenShut { break; }
        ghost var now := world;
        LaunchingFrom(After(asked).lookups[k], desk, starts, accepts, n, i);
        var outcome := LaunchOne(k, starts[i], accepts(k, i), asked, i);
        OnlyAtOn(old(world), now, world, k);
        match outcome {
          case Started => n := n + 1;
          case Refused => refused, n := refused + 1, n + 1;
          case Shut => shut := true;
        }
      }
    }

    /** The follow-ups the answers asked for: each is started or refused, unless the window shut. */
    method LaunchFollowUps(k: nat, accepts: (nat, nat) -> bool) returns (shut: bool, ghost n: nat)
      requires k in slab && At(k)
      modifies this`queries, this`nextQuery, this`clock, this`run, this`world, slab[k]
      ensures At(k) && old(run) <= run && OnlyAt(old(world), world, k)
      ensures n <= |old(slab[k].pending)|
      ensures DeskAt(k) == Launched(TakenPending(old(DeskAt(k))), old(slab[k].pending), accepts, n)
      ensures shut == (n < |old(slab[k].pending)|) && (shut ==> slab[k].View().Expired(clock))
    {
      var starts := TakeStarts(k);
      ghost var taken := world;
      var refused;
      shut, refused, n := LaunchEach(k, starts, true, accepts, old(run));
      OnlyAtOn(old(world), taken, world, k);
    }

    // ----- The answers of one lookup's legs -----

    /** One answer, folded in under the step its leg serves. */
    method FeedNow(k: nat, sub: QueryHandle, record: Record)
      requires k in slab && At(k) && sub in slab[k].subqueries
      modifies this`run, this`world, slab[k]
      ensures At(k) && old(run) <= run && k in old(world).times
      ensures world == FeedAt(old(world), k, old(slab[k].subqueries[sub]), record)
      ensures slab[k].View() == Fed(old(slab[k].View()), old(slab[k].subqueries[sub]), record)
    {
      LegIsTracked(run, k, sub);
      RunningIsMinted(run, k);
      FeedFront(world, k, slab[k].subqueries[sub], record);
      Do(LookupWorlds.Feed(k, sub, record));
      slab[k].Feed(slab[k].subqueries[sub], record);
    }

    /** ...whenever it comes to be read. */
    method FeedOne(k: nat, sub: QueryHandle, record: Record)
      requires k in slab && At(k) && sub in slab[k].subqueries
      modifies this`clock, this`run, this`world, slab[k]
      ensures At(k) && old(run) <= run && OnlyAt(old(world), world, k) && world.left == old(world).left
      ensures slab[k].View() == Fed(old(slab[k].View()), old(slab[k].subqueries[sub]), record)
    {
      var _ := NowAt(k);
      ghost var now := world;
      FeedNow(k, sub, record);
      FedIsOnlyAt(now, k, old(slab[k].subqueries[sub]), record);
      OnlyAtOn(old(world), now, world, k);
    }

    /** One slot of a pool, if it holds an answer not read before. */
    method FeedSlot(k: nat, sub: QueryHandle, slot: Option<CollectedAnswer>, last: nat,
                    decode: CollectedAnswer -> Record)
        returns (fed: bool)
      requires k in slab && At(k) && sub in slab[k].subqueries
      modifies this`clock, this`run, this`world, slab[k]
      ensures At(k) && old(run) <= run && OnlyAt(old(world), world, k) && world.left == old(world).left
      ensures fed == (slot.Some? && slot.value.seqNo >= last)
      ensures slab[k].View() == if fed
        then Fed(old(slab[k].View()), old(slab[k].subqueries[sub]), decode(slot.value))
        else old(slab[k].View())
    {
      fed := slot.Some? && slot.value.seqNo >= last;
      if fed { FeedOne(k, sub, decode(slot.value)); }
    }

    /** The new answers of one pool, in slab order. */
    method FeedFresh(k: nat, sub: QueryHandle, slots: Slab, last: nat, decode: CollectedAnswer -> Record)
        returns (delivered: nat)
      requires k in slab && At(k) && sub in slab[k].subqueries
      modifies this`clock, this`run, this`world, slab[k]
      ensures At(k) && old(run) <= run && OnlyAt(old(world), world, k)
      ensures DeskAt(k) == old(DeskAt(k)).(
        c := FedInTurn(old(slab[k].View()), old(slab[k].subqueries[sub]), FreshAnswers(slots, last), decode))
      ensures delivered == |FreshAnswers(slots, last)|
    {
      ghost var c, step := slab[k].View(), slab[k].subqueries[sub];
      delivered := 0;
      for i := 0 to |slots|
        invariant At(k) && old(run) <= run && OnlyAt(old(world), world, k) && world.left == old(world).left
        invariant slab[k].View() == FedInTurn(c, step, FreshAnswers(slots[..i], last), decode)
        invariant delivered == |FreshAnswers(slots[..i], last)|
      {
        ghost var now := world;
        FedInTurnKeepsRest(c, step, FreshAnswers(slots[..i], last), decode);
        FedSlot(c, step, slots, i, last, decode);
        var fed := FeedSlot(k, sub, slots[i], last, decode);
        OnlyAtOn(old(world), now, world, k);
        if fed { delivered := delivered + 1; }
      }
      assert slots[..|slots|] == slots;
    }

    method SetLastSeq(q: QueryHandle, seqNo: nat)
      requires Fronted()
      modifies this`queries, this`run, this`world
      ensures Fronted() && old(run) <= run && world == Scan(old(world), q, seqNo)
    {
      if q in queries { queries := queries[q := queries[q].(lastSeq := seqNo)]; }
      Do(LookupWorlds.Read(q, seqNo));
    }

    method RemoveQuery(q: QueryHandle)
      requires Fronted()
      modifies this`queries, this`run, this`world
      ensures Fronted() && old(run) <= run && world == DropQuery(old(world), q)
    {
      queries := queries - {q};
      Do(LookupWorlds.EndQuery(q));
    }

    method ForgetLegs(k: nat, gone: set<QueryHandle>)
      requires k in slab && At(k) && gone !! queries.Keys
      modifies this`run, this`world, slab[k]
      ensures old(run) <= run
      ensures At(k) && world == Replace(old(world), k, LookupStates.DropLegs(old(world).lookups[k], gone))
    {
      QuietFront(world, k, LookupStates.DropLegs(world.lookups[k], gone));
      Do(LetGo(k, gone));
      slab[k].DropLegs(gone);
    }

    /** The proto layer retired or the sweep removed some legs; this is where the lookup learns of it. */
    method Reconcile(k: nat)
      requires k in slab && At(k)
      modifies this`run, this`world, slab[k]
      ensures At(k) && old(run) <= run && OnlyAt(old(world), world, k)
      ensures DeskAt(k) == Reconciled(old(DeskAt(k))) && DeskAt(k).Held()
    {
      ForgetLegs(k, slab[k].subqueries.Keys - queries.Keys);
    }

    /** A leg that reached its terminal: its query is freed at once, and the lookup waits on it no longer. */
    method EndLeg(k: nat, sub: QueryHandle)
      requires k in slab && At(k)
      modifies this`queries, this`run, this`world, slab[k]
      ensures At(k) && old(run) <= run && OnlyAt(old(world), world, k)
      ensures DeskAt(k) == LookupTurns.EndLeg(old(DeskAt(k)), sub)
    {
      RemoveQuery(sub);
      ForgetLegs(k, {sub});
    }

    /** The leg has been read up to `seqNo`. */
    method MoveCursor(k: nat, sub: QueryHandle, seqNo: nat)
      requires k in slab && At(k) && sub in queries
      modifies this`queries, this`run, this`world
      ensures At(k) && old(run) <= run && OnlyAt(old(world), world, k)
      ensures DeskAt(k) == old(DeskAt(k)).(queries := old(queries)[sub := old(queries)[sub].(lastSeq := seqNo)])
    {
      SetLastSeq(sub, seqNo);
    }

    method CountLost(k: nat, n: nat)
      requires k in slab && At(k)
      modifies this`dropped
      ensures At(k) && DeskAt(k) == old(DeskAt(k)).(dropped := old(dropped) + n)
    {
      dropped := dropped + n;
    }

    /** One leg's new answers. Those the pool evicted before they could be read are counted, not lost silently. */
    method ScanLeg(k: nat, sub: QueryHandle, state: ProtoQuery, decode: CollectedAnswer -> Record)
      requires k in slab && At(k) && sub in slab[k].subqueries && sub in queries
      requires AnswerPools.Window(state.slots, state.accepted)
      modifies this`queries, this`dropped, this`clock, this`run, this`world, slab[k]
      ensures At(k) && old(run) <= run && OnlyAt(old(world), world, k)
      ensures DeskAt(k) == ReadLeg(old(DeskAt(k)), sub, state, decode)
    {
      var ctx := queries[sub];
      ReadLegIs(DeskAt(k), sub, state, decode);
      if state.accepted > ctx.lastSeq {
        var delivered := FeedFresh(k, sub, state.slots, ctx.lastSeq, decode);
        ghost var read := world;
        MoveCursor(k, sub, state.accepted);
        OnlyAtOn(old(world), read, world, k);
        CountLost(k, state.accepted - ctx.lastSeq - delivered);
      }
    }

    /** One leg: its answers, then its terminal. */
    method VisitLeg(k: nat, sub: QueryHandle, proto: map<QueryHandle, ProtoQuery>, decode: CollectedAnswer -> Record)
      requires k in slab && At(k) && AllWindows(proto) && (sub in slab[k].subqueries ==> sub in queries)
      modifies this`queries, this`dropped, this`clock, this`run, this`world, slab[k]
      ensures At(k) && old(run) <= run && OnlyAt(old(world), world, k)
      ensures DeskAt(k) == Visited(old(DeskAt(k)), sub, proto, decode)
    {
      if sub !in slab[k].subqueries || sub !in proto { return; }
      ScanLeg(k, sub, proto[sub], decode);
      ghost var read := world;
      if proto[sub].terminal.Some? {
        EndLeg(k, sub);
        OnlyAtOn(old(world), read, world, k);
      }
    }

    /** Every leg in turn, in whatever order the map yields them. */
    method AnswerWalk(k: nat, proto: map<QueryHandle, ProtoQuery>, decode: CollectedAnswer -> Record)
        returns (ghost order: seq<QueryHandle>)
      requires k in slab && At(k) && AllWindows(proto) && DeskAt(k).Held()
      modifies this`queries, this`dropped, this`clock, this`run, this`world, slab[k]
      ensures At(k) && old(run) <= run && OnlyAt(old(world), world, k) && LegOrder(order, old(slab[k].View()))
      ensures DeskAt(k) == AllVisited(old(DeskAt(k)), order, proto, decode)
      ensures dropped == old(dropped) + LostIn(old(DeskAt(k)), order, proto)
    {
      ghost var desk := DeskAt(k);
      order := [];
      var left := slab[k].subqueries.Keys;
      while left != {}
        invariant At(k) && old(run) <= run && OnlyAt(old(world), world, k)
        invariant VisitedSoFar(desk, DeskAt(k), order, left, proto, decode)
        decreases left
      {
        ghost var now, e := world, DeskAt(k);
        var sub :| sub in left;
        VisitNext(desk, e, order, left, proto, decode, sub);
        VisitLeg(k, sub, proto, decode);
        OnlyAtOn(old(world), now, world, k);
        order, left := order + [sub], left - {sub};
      }
      VisitedThrough(desk, DeskAt(k), order, proto, decode);
    }

    // ----- Reporting -----

    method Collect(k: nat) returns (ghost order: seq<Name>)
      requires k in slab && At(k) && !slab[k].View().Expired(clock)
      modifies this`run, this`world, slab[k]
      ensures At(k) && old(run) <= run && forall n :: n in order <==> n in old(world).lookups[k].partials
      ensures world == Replace(old(world), k, CollectAll(old(world).lookups[k], order))
    {
      order := slab[k].CollectReady();
      Do(LookupWorlds.CollectReady(k, order));
    }

    method PushReady(k: nat)
      requires k in slab && slab[k].ready != []
      modifies this`events, slab[k]
      ensures events == old(events) + [Fifo.Lookup(LookupHandle(k, old(slab[k].generation)), old(slab[k].ready)[0])]
      ensures slab[k].View() == old(slab[k].View()).(ready := old(slab[k].ready)[1..])
    {
      var entry := slab[k].TakeReady();
      events := events + [Fifo.Lookup(LookupHandle(k, slab[k].generation), entry.value)];
    }

    /** One entry out of `ready` and into the caller's event queue. */
    method TellOne(k: nat)
      requires k in slab && At(k) && slab[k].ready != []
      modifies this`events, this`run, this`world, slab[k]
      ensures At(k) && old(run) <= run && world == Tell(old(world), k)
      ensures events == old(events) + [Fifo.Lookup(LookupHandle(k, slab[k].generation), old(slab[k].ready)[0])]
    {
      ghost var event := Fifo.Lookup(LookupHandle(k, slab[k].generation), slab[k].ready[0]);
      Basics.Concat3(popped, events, [event]);
      TellFront(world, k);
      Do(LookupWorlds.Report(k));
      PushReady(k);
    }

    /** Every instance with all its parts in and not yet reported is flagged and told of, as it stands; no other is. */
    method Report(k: nat) returns (ghost told: seq<ServiceEntry>)
      requires k in slab && At(k) && slab[k].ready == [] && !slab[k].View().Expired(clock)
      modifies this`events, this`run, this`world, slab[k]
      ensures At(k) && old(run) <= run && ToldAt(old(world), world, k) && world.left == old(world).left
      ensures Settled(slab[k].View()) && ReportedOnly(old(slab[k].View()), slab[k].View())
      ensures FlaggedOf(old(slab[k].partials), slab[k].partials, old(slab[k].partials.Keys))
      ensures ToldOf(old(slab[k].partials), slab[k].partials, told) && |told| == slab[k].emitted - old(slab[k].emitted)
      ensures events == old(events) + Offered(LookupHandle(k, slab[k].generation), told)
    {
      ghost var before := slab[k].View();
      RunningIsNamed(run, k);
      ghost var order := Collect(k);
      CollectStep(old(world), k, order);
      CollectAllReports(before, order);
      CollectAllTells(before, order);
      assert (set n | n in order) == before.partials.Keys;
      told := slab[k].ready;
      ghost var collected := world;
      TellAll(k);
      ToldAtOn(old(world), collected, world, k);
    }

    /** The collected entries, one by one. */
    method TellAll(k: nat)
      requires k in slab && At(k)
      modifies this`events, this`run, this`world, slab[k]
      ensures At(k) && old(run) <= run && ToldAt(old(world), world, k) && world.left == old(world).left
      ensures slab[k].View() == old(slab[k].View()).(ready := [])
      ensures events == old(events) + Offered(LookupHandle(k, slab[k].generation), old(slab[k].ready))
    {
      NothingTold(world, k);
      ghost var h := LookupHandle(k, slab[k].generation);
      while slab[k].ready != []
        invariant At(k) && old(run) <= run && ToldAt(old(world), world, k) && world.left == old(world).left
        invariant slab[k].View().(ready := old(slab[k].ready)) == old(slab[k].View())
        invariant events + Offered(h, slab[k].ready) == old(events) + Offered(h, old(slab[k].ready))
        decreases |slab[k].ready|
      {
        ReportStep(old(world), world, k);
        OfferOne(events, h, slab[k].ready);
        TellOne(k);
      }
    }

    // ----- One lookup's turn, and the tick's -----

    /** Answers in, follow-ups out. */
    method Work(k: nat, proto: map<QueryHandle, ProtoQuery>, decode: CollectedAnswer -> Record,
                accepts: (nat, nat) -> bool)
        returns (shut: bool, ghost order: seq<QueryHandle>, ghost n: nat)
      requires k in slab && At(k) && AllWindows(proto)
      modifies this`queries, this`nextQuery, this`dropped, this`clock, this`run, this`world, slab[k]
      ensures At(k) && old(run) <= run && OnlyAt(old(world), world, k)
      ensures LegOrder(order, Reconciled(old(DeskAt(k))).c)
      ensures n <= |AllVisited(Reconciled(old(DeskAt(k))), order, proto, decode).c.pending|
      ensures DeskAt(k) == Worked(old(DeskAt(k)), order, proto, decode, accepts, n)
      ensures shut ==> slab[k].View().Expired(clock)
      ensures !shut ==> n == |AllVisited(Reconciled(old(DeskAt(k))), order, proto, decode).c.pending|
    {
      Reconcile(k);
      ghost var reconciled := world;
      order := AnswerWalk(k, proto, decode);
      OnlyAtOn(old(world), reconciled, world, k);
      ghost var read := world;
      shut, n := LaunchFollowUps(k, accepts);
      OnlyAtOn(old(world), read, world, k);
    }

    /** The end of a turn: report, if the window is still open, then ask whether anything is left to wait for. */
    method Conclude(k: nat) returns (done: bool)
      requires k in slab && At(k) && slab[k].ready == []
      modifies this`events, this`clock, this`run, this`world, slab[k]
      ensures At(k) && old(run) <= run && ToldAt(old(world), world, k) && world.left == old(world).left
      ensures done ==> IsOver(slab[k].View(), clock)
      ensures !done ==> Settled(slab[k].View()) && !slab[k].View().Finished(old(clock))
      ensures slab[k].subqueries == old(slab[k].subqueries)
      ensures !done ==> ReportedOnly(old(slab[k].View()), slab[k].View())
    {
      var now := NowAt(k);
      NothingToldAt(old(world), world, k);
      if slab[k].deadline.Some? && now >= slab[k].deadline.value { return true; }
      ghost var weighed := world;
      ghost var _ := Report(k);
      TurnStep(old(world), weighed, world, k);
      ghost var told := world;
      now := NowAt(k);
      TurnEnds(old(world), told, world, k);
      done := slab[k].Finished(now);
    }

    /** A turn past its first test: answers, follow-ups, reports. */
    method TakeTurn(k: nat, proto: map<QueryHandle, ProtoQuery>, decode: CollectedAnswer -> Record,
                    accepts: (nat, nat) -> bool)
        returns (done: bool, ghost order: seq<QueryHandle>, ghost n: nat)
      requires k in slab && At(k) && slab[k].ready == [] && AllWindows(proto)
      modifies this`queries, this`nextQuery, this`dropped, this`clock, this`events, this`run, this`world, slab[k]
      ensures At(k) && old(run) <= run && ToldAt(old(world), world, k)
      ensures done ==> IsOver(slab[k].View(), clock)
      ensures !done ==> Settled(slab[k].View()) && !slab[k].View().Finished(old(clock))
      ensures WorkedOn(old(DeskAt(k)), DeskAt(k), order, proto, decode, accepts, n)
      ensures !done ==> n == |Asked(old(DeskAt(k)), order, proto, decode)|
      ensures !done ==> ReportedOnly(Worked(old(DeskAt(k)), order, proto, decode, accepts, n).c, slab[k].View())
    {
      var shut;
      shut, order, n := Work(k, proto, decode, accepts);
      NothingToldAt(old(world), world, k);
      done := shut;
      if !shut {
        ghost var worked := world;
        done := Conclude(k);
        TurnStep(old(world), worked, world, k);
      }
    }

    /**
     A lookup's turn. The window is weighed before the answers, at each launch, before the reports and at the end,
     each time on a fresh reading.
     */
    method WholeTurn(k: nat, proto: map<QueryHandle, ProtoQuery>, decode: CollectedAnswer -> Record,
                     accepts: (nat, nat) -> bool)
        returns (done: bool, ghost turn: Turn)
      requires k in slab && At(k) && Settled(slab[k].View()) && AllWindows(proto)
      modifies this`queries, this`nextQuery, this`dropped, this`clock, this`events, this`run, this`world, slab[k]
      ensures At(k) && old(run) <= run
      ensures turn.d == old(DeskAt(k)) && turn.End() == DeskAt(k) && turn.Over() == done
      ensures Turned(old(world), world, turn, proto, decode, accepts)
    {
      LegsAreOwned(run, DeskAt(k));
      NoneMoved(DeskAt(k));
      turn := Skipped(DeskAt(k));
      var now := NowAt(k);
      NothingToldAt(old(world), world, k);
      if slab[k].deadline.Some? && now >= slab[k].deadline.value { return true, turn; }
      ghost var weighed, order, n := world, [], 0;
      done, order, n := TakeTurn(k, proto, decode, accepts);
      WorkedHears(old(DeskAt(k)), DeskAt(k), order, proto, decode, accepts, n);
      TurnStep(old(world), weighed, world, k);
      turn := Taken(old(DeskAt(k)), DeskAt(k), order, n, done);
    }

    /** ...which leaves every other lookup alone. */
    method AdvanceOne(k: nat, proto: map<QueryHandle, ProtoQuery>, decode: CollectedAnswer -> Record,
                      accepts: (nat, nat) -> bool)
        returns (done: bool, ghost turn: Turn)
      requires Linked() && k in slab && Settled(slab[k].View()) && AllWindows(proto)
      modifies this`queries, this`nextQuery, this`dropped, this`clock, this`events, this`run, this`world, slab[k]
      ensures Linked() && slab == old(slab) && old(run) <= run
      ensures turn.d == old(DeskAt(k)) && turn.End() == DeskAt(k) && turn.Over() == done
      ensures Turned(old(world), world, turn, proto, decode, accepts)
    {
      done, turn := WholeTurn(k, proto, decode, accepts);
      KeepsAgain(slab, old(world).lookups, world.lookups, k);
    }

    /** Every leg of a lookup that is leaving. The one place legs are cancelled. */
    method CancelSubqueries(ctx: LookupCtx)
      modifies this`queries
      ensures queries == old(queries) - ctx.subqueries.Keys
    {
      var left := ctx.subqueries.Keys;
      while left != {}
        invariant left <= ctx.subqueries.Keys
        invariant queries == old(queries) - (ctx.subqueries.Keys - left)
        decreases left
      {
        var sub :| sub in left;
        queries, left := queries - {sub}, left - {sub};
      }
    }

    /** The slot is vacated and the legs are cancelled. */
    method Vacate(k: nat, ghost lookups: map<nat, Ctx>)
      requires k in slab && Keeps(slab, lookups)
      modifies this`slab, this`queries
      ensures slab == old(slab) - {k} && queries == old(queries) - lookups[k].subqueries.Keys
      ensures Keeps(slab, lookups - {k})
    {
      CancelSubqueries(slab[k]);
      KeepsWithout(slab, lookups, k);
      slab := slab - {k};
    }

    /** ...and the caller is told. */
    method Dismiss(h: LookupHandle, ghost lookups: map<nat, Ctx>)
      requires h.key in slab && Keeps(slab, lookups)
      modifies this`slab, this`queries, this`events
      ensures slab == old(slab) - {h.key} && queries == old(queries) - lookups[h.key].subqueries.Keys
      ensures Keeps(slab, lookups - {h.key}) && events == old(events) + [Fifo.LookupDone(h)]
    {
      Vacate(h.key, lookups);
      events := events + [Fifo.LookupDone(h)];
    }

    /** The teardown of one finished lookup, and the one report of it. */
    method FinishOne(h: LookupHandle)
      requires Linked() && Live(world.lookups, h) && IsOver(world.lookups[h.key], clock)
      modifies this`slab, this`queries, this`events, this`run, this`world
      ensures Linked() && old(run) <= run && slab == old(slab) - {h.key} && world == Finish(old(world), h.key)
      ensures events == old(events) + [Fifo.LookupDone(h)]
    {
      Basics.Concat3(popped, events, [Fifo.LookupDone(h)]);
      FinishFront(world, h.key);
      Do(LookupWorlds.FinishLookup(h.key));
      ghost var legs, told := old(world).lookups[h.key].subqueries.Keys, popped + (events + [Fifo.LookupDone(h)]);
      assert FrontOf(world) == Front(queries - legs, nextQuery, nextGeneration, clock, told);
      Dismiss(h, old(world).lookups);
    }

    /** The turn of one lookup the walk has not reached yet; if it is over it joins those noted in `fin`. */
    method WalkOne(k: nat, proto: map<QueryHandle, ProtoQuery>, decode: CollectedAnswer -> Record,
                   accepts: (nat, nat) -> bool, fin: seq<LookupHandle>, ghost start: World, ghost todo: set<nat>,
                   ghost turns: map<nat, Turn>, ghost lost: nat)
        returns (noted: seq<LookupHandle>, ghost after: map<nat, Turn>)
      requires Linked() && k in slab && AllWindows(proto)
      requires Ticked(start, world, todo, fin, turns, proto, decode, accepts) && k in todo
      requires dropped == lost + LostOver(turns)
      modifies this`queries, this`nextQuery, this`dropped, this`clock, this`events, this`run, this`world, slab[k]
      ensures Linked() && slab == old(slab) && old(run) <= run
      ensures Ticked(start, world, todo - {k}, noted, after, proto, decode, accepts)
      ensures dropped == lost + LostOver(after)
    {
      var done;
      ghost var turn;
      done, turn := AdvanceOne(k, proto, decode, accepts);
      TickOn(start, old(world), world, turn, todo, fin, turns, proto, decode, accepts);
      LostOn(turns, k, turn);
      after := turns[k := turn];
      noted := if done then fin + [LookupHandle(k, slab[k].generation)] else fin;
    }

    /** Every lookup's turn; those that are over are only noted, since the slab is being walked. */
    method WalkSlab(proto: map<QueryHandle, ProtoQuery>, decode: CollectedAnswer -> Record, accepts: (nat, nat) -> bool)
        returns (fin: seq<LookupHandle>, ghost turns: map<nat, Turn>)
      requires Valid() && AllWindows(proto)
      modifies this`queries, this`nextQuery, this`dropped, this`clock, this`events, this`run, this`world, slab.Values
      ensures Linked() && old(run) <= run
      ensures Ticked(old(world), world, {}, fin, turns, proto, decode, accepts)
      ensures dropped == old(dropped) + LostOver(turns)
    {
      ghost var start, lost := world, dropped;
      TickBegins(run, proto, decode, accepts);
      fin, turns := [], map[];
      var todo := slab.Keys;
      while todo != {}
        invariant Linked() && todo <= slab.Keys && slab == old(slab) && old(run) <= run
        invariant Ticked(start, world, todo, fin, turns, proto, decode, accepts)
        invariant dropped == lost + LostOver(turns)
        decreases todo
      {
        var k :| k in todo;
        fin, turns := WalkOne(k, proto, decode, accepts, fin, start, todo, turns, lost);
        todo := todo - {k};
      }
    }

    method Teardown(fin: seq<LookupHandle>, ghost start: World, ghost turns: map<nat, Turn>,
                    ghost proto: map<QueryHandle, ProtoQuery>, ghost decode: CollectedAnswer -> Record,
                    ghost accepts: (nat, nat) -> bool)
      requires Linked() && Ticked(start, world, {}, fin, turns, proto, decode, accepts)
      modifies this`slab, this`queries, this`events, this`run, this`world
      ensures Linked() && Within(slab, old(slab)) && old(run) <= run
      ensures Ticked(start, world, {}, [], turns, proto, decode, accepts)
    {
      var left := fin;
      while left != []
        invariant Linked() && Within(slab, old(slab)) && old(run) <= run
        invariant Ticked(start, world, {}, left, turns, proto, decode, accepts)
        decreases |left|
      {
        FinishOn(start, run, left, turns, proto, decode, accepts);
        FinishOne(left[0]);
        left := left[1..];
      }
    }

    /**
     The lookup stage of a tick, for the record in `turns`: every lookup had one turn, from how the tick found it. A
     lookup that stays had not expired when the tick began, its legs' answers were read to the end and folded in, what
     they asked for was started, and everything due was reported. One that is gone was over, at an instant inside this
     tick, and was told done. The caller's own queries are as they were, and nothing queued for it was taken back.
     */
    method AdvanceLookups(proto: map<QueryHandle, ProtoQuery>, decode: CollectedAnswer -> Record,
                          accepts: (nat, nat) -> bool)
        returns (ghost turns: map<nat, Turn>)
      requires Valid() && AllWindows(proto)
      modifies this`slab, this`queries, this`nextQuery, this`dropped, this`clock, this`events, this`run, this`world,
               slab.Values
      ensures Valid() && clock >= old(clock) && SameRegister(old(world), world) && old(run) <= run
      ensures old(events) <= events && Within(slab, old(slab))
      ensures TurnsFit(old(world), world, {}, [], turns, proto, decode, accepts)
      ensures dropped == old(dropped) + LostOver(turns)
      ensures StayedOrOver(old(world), world)
      ensures QueriesTicked(old(world), world, turns, proto)
    {
      ghost var start := world;
      var fin;
      fin, turns := WalkSlab(proto, decode, accepts);
      Teardown(fin, start, turns, proto, decode, accepts);
      WalkedOut(start, old(run), run);
      QueriesWalkedOut(start, run, turns, proto, decode, accepts);
      PublishedGrows(start.log, world.log);
      QueuedStays(popped, old(events), events);
    }

    /** The caller reads the oldest lookup event. */
    method NextEvent() returns (event: Option<Fifo.Event>)
      requires Valid()
      modifies this`events, this`popped
      ensures Valid()
      ensures event == None <==> old(events) == []
      ensures event == None ==> popped == old(popped) && events == []
      ensures event.Some? ==> popped == old(popped) + [event.value] && popped + events == old(popped + events)
    {
      if events == [] { return None; }
      event := Some(events[0]);
      assert events == [events[0]] + events[1..];
      Basics.Concat3(popped, [events[0]], events[1..]);
      popped, events := popped + [events[0]], events[1..];
    }

    // ----- The caller's calls -----

    /** A window opened now. `None` stands for a timeout past the end of the clock, which never shuts. */
    method OpenWindow(timeout: Option<nat>) returns (deadline: Option<nat>)
      requires Valid()
      modifies this`clock, this`run, this`world
      ensures Valid() && old(run) <= run && clock >= old(clock) && world == old(world).(clock := clock)
      ensures deadline == if timeout.Some? then Some(clock + timeout.value) else None
    {
      var now := Now();
      deadline := if timeout.Some? then Some(now + timeout.value) else None;
    }

    /** A new lookup in a vacant slot. The one place a handle is minted. */
    method Place(slot: nat, seed: Seed, deadline: Option<nat>, maxEntries: nat, ghost lookups: map<nat, Ctx>)
        returns (h: LookupHandle)
      requires slot !in slab && Keeps(slab, lookups)
      modifies this`slab, this`nextGeneration
      ensures slot in slab && slab == old(slab)[slot := slab[slot]] && fresh(slab[slot])
      ensures Keeps(slab, lookups[slot := Seeded(seed, deadline, maxEntries).(generation := old(nextGeneration))])
      ensures h == LookupHandle(slot, old(nextGeneration)) && nextGeneration == old(nextGeneration) + 1
    {
      var ctx := NewLookup(slot, seed, deadline, maxEntries, nextGeneration);
      KeepsWith(slab, lookups, slot, ctx);
      h := LookupHandle(slot, nextGeneration);
      nextGeneration := nextGeneration + 1;
      slab := slab[slot := ctx];
    }

    method Insert(slot: nat, seed: Seed, deadline: Option<nat>, maxEntries: nat) returns (h: LookupHandle)
      requires Linked() && slot !in slab && maxEntries >= 1
      modifies this`slab, this`nextGeneration, this`run, this`world
      ensures Linked() && old(run) <= run && h == LookupHandle(slot, old(nextGeneration))
      ensures slot in slab && slab == old(slab)[slot := slab[slot]] && fresh(slab[slot])
      ensures world == Mint(old(world), slot, Seeded(seed, deadline, maxEntries))
    {
      MintFront(world, slot, Seeded(seed, deadline, maxEntries));
      Do(LookupWorlds.Open(slot, seed, deadline, maxEntries));
      h := Place(slot, seed, deadline, maxEntries, old(world).lookups);
    }

    method NewLookup(slot: nat, seed: Seed, deadline: Option<nat>, maxEntries: nat, generation: nat)
        returns (ctx: LookupCtx)
      ensures fresh(ctx) && ctx.slot == slot
      ensures ctx.View() == Seeded(seed, deadline, maxEntries).(generation := generation)
    {
      ctx := new LookupCtx(deadline, maxEntries, slot);
      match seed {
        case Browse =>
        case Instance(name) => ctx.OnPtr(name);
        case Host(name) => ctx.SeedHost(name);
      }
      ctx.generation := generation;
    }

    /** Stops a lookup and every leg it owns. A handle that resolves to nothing is accepted and ignored. */
    method CancelLookup(h: LookupHandle)
      requires Linked()
      modifies this`slab, this`queries, this`run, this`world
      ensures Linked() && old(run) <= run
      ensures old(Live(world.lookups, h)) ==> slab == old(slab) - {h.key} && world == Cancel(old(world), h.key)
      ensures !old(Live(world.lookups, h)) ==> slab == old(slab) && world == old(world)
    {
      if Resolves(h) {
        Do(LookupWorlds.CancelLookup(h.key));
        ghost var legs := old(world).lookups[h.key].subqueries.Keys;
        assert FrontOf(world) == Front(queries - legs, nextQuery, nextGeneration, clock, popped + events);
        Vacate(h.key, old(world).lookups);
      }
    }

    /** Starts what a seeded lookup asked for. Every start is attempted, and one refusal fails the whole. */
    method LaunchPending(k: nat, accepts: (nat, nat) -> bool) returns (ok: bool)
      requires k in slab && At(k)
      modifies this`queries, this`nextQuery, this`clock, this`run, this`world, slab[k]
      ensures At(k) && OnlyAt(old(world), world, k) && old(run) <= run
      ensures OnlyLegsOf(LookupHandle(k, slab[k].generation), old(queries), queries, old(nextQuery))
      ensures slab[k].View().partials == old(slab[k].View()).partials
      ensures ok && !slab[k].View().Expired(clock) ==> slab[k].launched == old(slab[k].launched) + |old(slab[k].pending)|
      ensures ok && !slab[k].View().Expired(clock) ==>
        LegsInRow(slab[k].subqueries, old(nextQuery), old(slab[k].pending))
      ensures !ok ==> RefusesOne(k, accepts, |old(slab[k].pending)|)
    {
      var starts := TakeStarts(k);
      ghost var taken, desk := world, DeskAt(k);
      LegsAreOwned(run, desk);
      var shut, refused;
      ghost var n;
      shut, refused, n := LaunchEach(k, starts, false, accepts, old(run));
      OnlyAtOn(old(world), taken, world, k);
      LaunchedEffect(desk, starts, accepts, n);
      LaunchedOnlyLegs(desk, starts, accepts, n);
      RefusedSomewhere(k, accepts, n);
      if refused == 0 && n == |starts| { AllLaunched(desk, starts, accepts); }
      ok := refused == 0;
    }

    /** The caller's own cancellation, between ticks: that lookup and its legs go, unread, and nothing else moves. */
    method StopLookup(h: LookupHandle)
      requires Valid()
      modifies this`slab, this`queries, this`run, this`world
      ensures Valid() && !Live(world.lookups, h) && old(run) <= run
      ensures forall q :: q in queries ==> queries[q].owner != Some(h)
      ensures slab == if old(Live(world.lookups, h)) then old(slab) - {h.key} else old(slab)
      ensures old(Live(world.lookups, h)) ==> world == Cancel(old(world), h.key)
      ensures !old(Live(world.lookups, h)) ==> world == old(world)
    {
      CancelLookup(h);
      NoLegsLeft(run, h);
    }

    /** A fresh lookup, not yet asking anything. */
    method Enter(slot: nat, seed: Seed, timeout: Option<nat>, maxEntries: nat) returns (h: LookupHandle)
      requires Valid() && slot !in slab && maxEntries >= 1
      modifies this`slab, this`nextGeneration, this`clock, this`run, this`world
      ensures Valid() && h == LookupHandle(slot, old(nextGeneration)) && old(run) <= run
      ensures slot in slab && slab == old(slab)[slot := slab[slot]] && fresh(slab[slot])
      ensures Joined(old(world), world, h)
      ensures world.lookups[slot].partials == Seeded(seed, None, maxEntries).partials
      ensures world.lookups[slot].pending == Seeded(seed, None, maxEntries).pending
      ensures world.lookups[slot].launched == 0 && world.lookups[slot].subqueries == map[]
      ensures OpenedFor(world.lookups[slot], timeout, maxEntries, old(clock), clock)
    {
      var deadline := OpenWindow(timeout);
      MintJoins(run, slot, Seeded(seed, deadline, maxEntries));
      MintSettles(world, slot, seed, deadline, maxEntries);
      h := Insert(slot, seed, deadline, maxEntries);
    }

    method AskFirst(slot: nat, accepted: bool) returns (ok: bool)
      requires Valid() && slot in slab && world.lookups[slot].launched == 0 && world.lookups[slot].pending == []
      modifies this`queries, this`nextQuery, this`clock, this`run, this`world, slab[slot]
      ensures Valid() && slab == old(slab) && OnlyAt(old(world), world, slot) && old(run) <= run
      ensures OnlyLegsOf(LookupHandle(slot, slab[slot].generation), old(queries), queries, old(nextQuery))
      ensures !ok ==> !accepted
      ensures ok ==> slab[slot].View().Expired(clock) || slab[slot].launched == 1
      ensures ok && !slab[slot].View().Expired(clock) ==>
        slab[slot].subqueries == old(slab[slot].subqueries)[old(nextQuery) := PtrQuery]
    {
      LegsAreOwned(run, DeskAt(slot));
      NoneMoved(DeskAt(slot));
      OpenedOnlyLegs(DeskAt(slot), PtrQuery);
      var outcome := OpenLeg(slot, PtrQuery, accepted);
      KeepsAgain(slab, old(world).lookups, world.lookups, slot);
      SameSettles(old(world), world, slot);
      ok := outcome != Refused;
    }

    method AskAll(slot: nat, accepts: (nat, nat) -> bool, ghost first: QueryHandle, ghost steps: seq<Step>)
        returns (ok: bool)
      requires Valid() && slot in slab && nextQuery == first && slab[slot].pending == steps
      modifies this`queries, this`nextQuery, this`clock, this`run, this`world, slab[slot]
      ensures Valid() && slab == old(slab) && OnlyAt(old(world), world, slot) && old(run) <= run
      ensures OnlyLegsOf(LookupHandle(slot, slab[slot].generation), old(queries), queries, old(nextQuery))
      ensures ok && !slab[slot].View().Expired(clock) ==>
        slab[slot].launched == old(slab[slot].launched) + |steps| && LegsInRow(slab[slot].subqueries, first, steps)
      ensures !ok ==> RefusesOne(slot, accepts, |steps|)
    {
      ok := LaunchPending(slot, accepts);
      KeepsAgain(slab, old(world).lookups, world.lookups, slot);
      SameSettles(old(world), world, slot);
    }

    /** A lookup that joined a moment ago, at `start`, is given up, and everything is as it was then. */
    method Withdraw(h: LookupHandle, ghost before: map<nat, LookupCtx>, ghost start: Run)
      requires Valid() && h.key !in before && h.key in slab && slab == before[h.key := slab[h.key]]
      requires Joined(After(start), world, h)
      requires OnlyLegsOf(h, After(start).queries, world.queries, After(start).nextQuery)
      modifies this`slab, this`queries, this`run, this`world
      ensures Valid() && slab == before && Undone(After(start), world) && old(run) <= run
    {
      Basics.VacatedIsBefore(before, h.key, slab[h.key]);
      WithdrawnIsUndone(start, run, h);
      StopLookup(h);
    }

    /**
     A browse: one lookup, one PTR leg. A refused leg undoes the whole; a window that shuts at once does not, and
     the lookup is reported done by the next tick. `slot` is the vacant slot the slab hands out.
     */
    method Browse(slot: nat, timeout: Option<nat>, maxEntries: nat, accepted: bool) returns (r: Option<LookupHandle>)
      requires Valid() && slot !in slab
      modifies this`slab, this`nextGeneration, this`queries, this`nextQuery, this`clock, this`run, this`world
      ensures Valid() && old(run) <= run
      ensures r.Some? ==> r.value == LookupHandle(slot, old(nextGeneration)) && Joined(old(world), world, r.value)
      ensures r.Some? ==> slot in slab && slab == old(slab)[slot := slab[slot]]
      ensures r.Some? ==> OnlyLegsOf(r.value, old(queries), queries, old(nextQuery))
      ensures r.Some? && !slab[slot].View().Expired(clock) ==>
        slab[slot].launched == 1 && slab[slot].subqueries == map[old(nextQuery) := PtrQuery]
      ensures r.Some? ==>
        OpenedFor(slab[slot].View(), timeout, if maxEntries == 0 then 1 else maxEntries, old(clock), clock)
      ensures r == None ==> !accepted && slab == old(slab) && Undone(old(world), world)
    {
      var cap := if maxEntries == 0 then 1 else maxEntries;
      var h := Enter(slot, LookupWorlds.Browse, timeout, cap);
      ghost var entered := world;
      var ok := AskFirst(slot, accepted);
      assert old(run) <= run;
      JoinedOn(old(world), entered, world, h);
      r := Some(h);
      if !ok {
        Withdraw(h, old(slab), old(run));
        r := None;
      }
    }

    /** Such a lookup, entered and asked for all its first legs. */
    method EnterSeeded(slot: nat, seed: Seed, timeout: Option<nat>, accepts: (nat, nat) -> bool)
        returns (h: LookupHandle, ok: bool, ghost steps: seq<Step>)
      requires Valid() && slot !in slab && !seed.Browse?
      modifies this`slab, this`nextGeneration, this`queries, this`nextQuery, this`clock, this`run, this`world
      ensures Valid() && old(run) <= run && h == LookupHandle(slot, old(nextGeneration))
      ensures Joined(old(world), world, h) && slot in slab && slab == old(slab)[slot := slab[slot]]
      ensures OnlyLegsOf(h, old(queries), queries, old(nextQuery))
      ensures steps == Seeded(seed, None, 1).pending
      ensures ok && !slab[slot].View().Expired(clock) ==>
        slab[slot].launched == |steps| && LegsInRow(slab[slot].subqueries, old(nextQuery), steps)
      ensures OpenedFor(slab[slot].View(), timeout, 1, old(clock), clock)
      ensures !ok ==> RefusesOne(slot, accepts, |steps|)
    {
      steps := Seeded(seed, None, 1).pending;
      h := Enter(slot, seed, timeout, 1);
      ghost var entered := world;
      ok := AskAll(slot, accepts, nextQuery, steps);
      assert old(run) <= run;
      JoinedOn(old(world), entered, world, h);
    }

    /** A lookup that knows its instance or host: all its first legs start, or the call fails and leaves nothing. */
    method StartSeeded(slot: nat, seed: Seed, timeout: Option<nat>, accepts: (nat, nat) -> bool)
        returns (r: Option<LookupHandle>)
      requires Valid() && slot !in slab && !seed.Browse?
      modifies this`slab, this`nextGeneration, this`queries, this`nextQuery, this`clock, this`run, this`world
      ensures Valid() && old(run) <= run
      ensures r.Some? ==> r.value == LookupHandle(slot, old(nextGeneration)) && Joined(old(world), world, r.value)
      ensures r.Some? ==> slot in slab && slab == old(slab)[slot := slab[slot]]
      ensures r.Some? ==> OnlyLegsOf(r.value, old(queries), queries, old(nextQuery))
      ensures r.Some? && !slab[slot].View().Expired(clock) ==>
        slab[slot].launched == 2 && LegsInRow(slab[slot].subqueries, old(nextQuery), Seeded(seed, None, 1).pending)
      ensures r.Some? ==> OpenedFor(slab[slot].View(), timeout, 1, old(clock), clock)
      ensures r == None ==> slab == old(slab) && RefusesOne(slot, accepts, 2) && Undone(old(world), world)
    {
      SeedAsksTwo(seed);
      var h, ok;
      ghost var steps;
      h, ok, steps := EnterSeeded(slot, seed, timeout, accepts);
      r := Some(h);
      if !ok {
        Withdraw(h, old(slab), old(run));
        r := None;
      }
    }

    /** A query of the caller's own, which no lookup may touch. */
    method StartQuery() returns (q: QueryHandle)
      requires Valid()
      modifies this`queries, this`nextQuery, this`run, this`world
      ensures Valid() && old(run) <= run && world == StartOwn(old(world)) && q !in old(queries) && q in queries
    {
      NextQueryIsNew(run);
      Do(OwnQuery);
      q := nextQuery;
      queries, nextQuery := queries[q := QueryCtx(0, None)], nextQuery + 1;
    }

    /** A leg is the lookup's to stop: cancelling one here would leave the lookup waiting on it for ever. */
    method CancelQuery(q: QueryHandle)
      requires Valid()
      modifies this`queries, this`run, this`world
      ensures Valid() && old(run) <= run
      ensures q in old(queries) && old(queries)[q].owner.Some? ==> world == old(world)
      ensures !(q in old(queries) && old(queries)[q].owner.Some?) ==> world == DropQuery(old(world), q)
    {
      if q in queries && queries[q].owner.Some? { return; }
      RemoveQuery(q);
    }

    /** A query the pipeline retired or the sweep removed, whoever owned it. */
    method RetireQuery(q: QueryHandle)
      requires Valid()
      modifies this`queries, this`run, this`world
      ensures Valid() && old(run) <= run && world == DropQuery(old(world), q)
    {
      RemoveQuery(q);
    }
  }
}
