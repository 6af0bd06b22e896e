/**
 One lookup's turn in a tick, and the tick's walk over all of them (hick-mio/src/discovery.rs, `advance_lookups`):
 what a turn does, as functions of the pools and of the starts the proto layer accepts, and what that means.
 */
module LookupTurns {
  import opened Answers
  import opened AnswerPools
  import opened Basics
  import opened HostAddresses
  import opened LookupStates
  import opened LookupWorlds
  import opened Scans
  import opened ServiceDiscovery
  import Fifo

  /** What a turn works on: the lookup under handle `h`, the queries, those that left, and the count of answers lost. */
  datatype Desk = Desk(h: LookupHandle, c: Ctx, queries: map<QueryHandle, QueryCtx>, nextQuery: nat, dropped: nat,
                       left: map<QueryHandle, QueryCtx>) {
    /** Every leg the lookup waits on still has a query behind it. */
    predicate Held() {
      c.subqueries.Keys <= queries.Keys
    }

    /** The lookup's legs and the queries that name it as owner are the same. */
    ghost predicate Own() {
      && (forall q :: q in queries ==> q < nextQuery)
      && (forall q :: q in c.subqueries ==> q < nextQuery)
      && (forall q :: q in queries ==> (queries[q].owner == Some(h) <==> q in c.subqueries))
      && (forall q :: q in left ==> q !in queries)
    }
  }

  // ----- Answers in -----

  /** The answers of one scan, folded in one after the other under the step of their leg. */
  function FedInTurn(c: Ctx, step: Step, answers: seq<CollectedAnswer>, decode: CollectedAnswer -> Record): Ctx {
    if answers == [] then c
    else Fed(FedInTurn(c, step, answers[..|answers| - 1], decode), step, decode(answers[|answers| - 1]))
  }

  /** Legs whose query is gone are waited on no longer. */
  function Reconciled(d: Desk): Desk {
    d.(c := DropLegs(d.c, d.c.subqueries.Keys - d.queries.Keys))
  }

  /** A leg that has a query the proto layer still knows. */
  predicate Readable(d: Desk, q: QueryHandle, proto: map<QueryHandle, ProtoQuery>) {
    q in d.c.subqueries && q in d.queries && q in proto
  }

  function ReadLeg(d: Desk, q: QueryHandle, state: ProtoQuery, decode: CollectedAnswer -> Record): Desk
    requires q in d.c.subqueries && q in d.queries
  {
    d.(c := FedInTurn(d.c, d.c.subqueries[q], News(d.queries[q], state), decode),
       queries := d.queries[q := Scanned(d.queries[q], state)],
       dropped := d.dropped + Missed(d.queries[q], state))
  }

  function EndLeg(d: Desk, q: QueryHandle): Desk {
    d.(c := DropLegs(d.c, {q}), queries := d.queries - {q}, left := Leave(d.left, d.queries, {q}))
  }

  /** One leg's share of the walk: its answers, then its terminal. */
  function Visited(d: Desk, q: QueryHandle, proto: map<QueryHandle, ProtoQuery>, decode: CollectedAnswer -> Record): Desk {
    if !Readable(d, q, proto) then d
    else if proto[q].terminal.Some? then EndLeg(ReadLeg(d, q, proto[q], decode), q)
    else ReadLeg(d, q, proto[q], decode)
  }

  function AllVisited(d: Desk, order: seq<QueryHandle>, proto: map<QueryHandle, ProtoQuery>,
                      decode: CollectedAnswer -> Record): Desk {
    if order == [] then d
    else Visited(AllVisited(d, order[..|order| - 1], proto, decode), order[|order| - 1], proto, decode)
  }

  /** A scan as the driver makes it: the fresh answers, if the count has moved, and what is missing from them. */
  lemma ReadLegIs(d: Desk, q: QueryHandle, state: ProtoQuery, decode: CollectedAnswer -> Record)
    requires q in d.c.subqueries && q in d.queries && AnswerPools.Window(state.slots, state.accepted)
    ensures var last := d.queries[q].lastSeq;
      state.accepted > last ==> last + |FreshAnswers(state.slots, last)| <= state.accepted
    ensures var last := d.queries[q].lastSeq;
      var news := FreshAnswers(state.slots, last);
      ReadLeg(d, q, state, decode) ==
        if state.accepted > last then
          d.(c := FedInTurn(d.c, d.c.subqueries[q], news, decode),
             queries := d.queries[q := d.queries[q].(lastSeq := state.accepted)],
             dropped := d.dropped + (state.accepted - last - |news|))
        else d
  {
    NewsAndMissed(d.queries[q], state);
    assert d.queries[q := d.queries[q]] == d.queries;
  }

  /** The legs of a lookup, once each, in some order. */
  ghost predicate LegOrder(order: seq<QueryHandle>, c: Ctx) {
    NoRepeats(order) && forall q :: q in order <==> q in c.subqueries
  }

  lemma {:induction false} FedInTurnKeepsRest(c: Ctx, step: Step, answers: seq<CollectedAnswer>,
                                             decode: CollectedAnswer -> Record)
    ensures var d := FedInTurn(c, step, answers, decode);
      d.(partials := c.partials, hostAddrs := c.hostAddrs, hostsQueried := c.hostsQueried, pending := c.pending) == c
  {
    if answers != [] {
      var n := |answers| - 1;
      FedInTurnKeepsRest(c, step, answers[..n], decode);
      FedKeepsRest(FedInTurn(c, step, answers[..n], decode), step, decode(answers[n]));
    }
  }

  /** A pool read slot by slot. */
  lemma FedSlot(c: Ctx, step: Step, slots: Slab, i: nat, last: nat, decode: CollectedAnswer -> Record)
    requires i < |slots|
    ensures var before, after := FreshAnswers(slots[..i], last), FreshAnswers(slots[..i + 1], last);
      if slots[i].Some? && slots[i].value.seqNo >= last then
        && |after| == |before| + 1
        && FedInTurn(c, step, after, decode) == Fed(FedInTurn(c, step, before, decode), step, decode(slots[i].value))
      else after == before
  {
    var before := FreshAnswers(slots[..i], last);
    assert slots[..i + 1] == slots[..i] + [slots[i]];
    FreshAppend(slots[..i], slots[i], last);
    assert before + [] == before;
    if slots[i].Some? { assert (before + [slots[i].value])[..|before|] == before; }
  }

  /** What the walk leaves of one query and leg. */
  ghost predicate LegAfter(d: Desk, e: Desk, q: QueryHandle, proto: map<QueryHandle, ProtoQuery>, visited: bool) {
    if visited && Readable(d, q, proto) then
      if proto[q].terminal.Some? then
        && q !in e.queries && q in e.left && e.left[q] == Scanned(d.queries[q], proto[q])
        && q !in e.c.subqueries
      else
        && q in e.queries && e.queries[q] == Scanned(d.queries[q], proto[q])
        && q in e.c.subqueries && e.c.subqueries[q] == d.c.subqueries[q]
    else
      && (q in e.queries <==> q in d.queries) && (q in d.queries ==> e.queries[q] == d.queries[q])
      && (q in e.c.subqueries <==> q in d.c.subqueries)
      && (q in d.c.subqueries ==> e.c.subqueries[q] == d.c.subqueries[q])
      && (q in e.left <==> q in d.left) && (q in d.left ==> e.left[q] == d.left[q])
  }

  lemma VisitedAt(d: Desk, x: QueryHandle, proto: map<QueryHandle, ProtoQuery>, decode: CollectedAnswer -> Record,
                  q: QueryHandle)
    ensures LegAfter(d, Visited(d, x, proto, decode), q, proto, x == q)
  {
    if Readable(d, x, proto) { FedInTurnKeepsRest(d.c, d.c.subqueries[x], News(d.queries[x], proto[x]), decode); }
  }

  /** What two stretches of a walk leave of one leg, when at most one of them visited it. */
  lemma LegAfterOn(d: Desk, e: Desk, f: Desk, q: QueryHandle, proto: map<QueryHandle, ProtoQuery>, first: bool,
                   second: bool)
    requires LegAfter(d, e, q, proto, first) && LegAfter(e, f, q, proto, second) && !(first && second)
    ensures LegAfter(d, f, q, proto, first || second)
  {
  }

  lemma {:induction false} AllVisitedAt(d: Desk, order: seq<QueryHandle>, proto: map<QueryHandle, ProtoQuery>,
                                       decode: CollectedAnswer -> Record, q: QueryHandle)
    requires NoRepeats(order)
    ensures LegAfter(d, AllVisited(d, order, proto, decode), q, proto, q in order)
  {
    if order != [] {
      var n := |order| - 1;
      var front := order[..n];
      assert order == front + [order[n]];
      NoRepeatsParts(front, [order[n]]);
      var e, f := AllVisited(d, front, proto, decode), AllVisited(d, order, proto, decode);
      AllVisitedAt(d, front, proto, decode, q);
      VisitedAt(e, order[n], proto, decode, q);
      assert (q in front || order[n] == q) == (q in order);
      LegAfterOn(d, e, f, q, proto, q in front, order[n] == q);
    }
  }

  /** The walk leaves the rest of the desk, and the lookup's own identity, alone. */
  lemma {:induction false} AllVisitedKeepsRest(d: Desk, order: seq<QueryHandle>, proto: map<QueryHandle, ProtoQuery>,
                                               decode: CollectedAnswer -> Record)
    ensures var e := AllVisited(d, order, proto, decode);
      && e.h == d.h && e.nextQuery == d.nextQuery
      && SameLookup(d.c, e.c) && e.c.ready == d.c.ready && e.c.launched == d.c.launched
  {
    if order != [] {
      var n := |order| - 1;
      var e, x := AllVisited(d, order[..n], proto, decode), order[n];
      AllVisitedKeepsRest(d, order[..n], proto, decode);
      if Readable(e, x, proto) { FedInTurnKeepsRest(e.c, e.c.subqueries[x], News(e.queries[x], proto[x]), decode); }
    }
  }

  lemma AllVisitedHeld(d: Desk, order: seq<QueryHandle>, proto: map<QueryHandle, ProtoQuery>,
                       decode: CollectedAnswer -> Record)
    requires d.Held() && NoRepeats(order)
    ensures AllVisited(d, order, proto, decode).Held()
  {
    var e := AllVisited(d, order, proto, decode);
    forall q | q in e.c.subqueries
      ensures q in e.queries
    {
      AllVisitedAt(d, order, proto, decode, q);
    }
  }

  /** Part-way: the legs not in `left` have been visited, once each, in the order given. */
  ghost predicate VisitedSoFar(d: Desk, e: Desk, order: seq<QueryHandle>, left: set<QueryHandle>,
                               proto: map<QueryHandle, ProtoQuery>, decode: CollectedAnswer -> Record)
  {
    && NoRepeats(order) && left <= d.c.subqueries.Keys && (forall q :: q in order <==> q in d.c.subqueries && q !in left)
    && e == AllVisited(d, order, proto, decode)
  }

  lemma VisitNext(d: Desk, e: Desk, order: seq<QueryHandle>, left: set<QueryHandle>,
                  proto: map<QueryHandle, ProtoQuery>, decode: CollectedAnswer -> Record, q: QueryHandle)
    requires d.Held() && VisitedSoFar(d, e, order, left, proto, decode) && q in left
    ensures VisitedSoFar(d, Visited(e, q, proto, decode), order + [q], left - {q}, proto, decode)
    ensures e.Held()
  {
    AllVisitedHeld(d, order, proto, decode);
    NoRepeatsSnoc(order, q);
    assert (order + [q])[..|order|] == order;
  }

  lemma VisitedThrough(d: Desk, e: Desk, order: seq<QueryHandle>, proto: map<QueryHandle, ProtoQuery>,
                       decode: CollectedAnswer -> Record)
    requires VisitedSoFar(d, e, order, {}, proto, decode)
    ensures LegOrder(order, d.c) && e.dropped == d.dropped + LostIn(d, order, proto)
  {
    AllVisitedLoses(d, order, proto, decode);
  }

  /** How many answers of these legs the pools had evicted before the walk came. */
  function LostIn(d: Desk, order: seq<QueryHandle>, proto: map<QueryHandle, ProtoQuery>): nat {
    if order == [] then 0
    else
      var q := order[|order| - 1];
      LostIn(d, order[..|order| - 1], proto) + (if Readable(d, q, proto) then Missed(d.queries[q], proto[q]) else 0)
  }

  lemma {:induction false} AllVisitedLoses(d: Desk, order: seq<QueryHandle>, proto: map<QueryHandle, ProtoQuery>,
                                          decode: CollectedAnswer -> Record)
    requires NoRepeats(order)
    ensures AllVisited(d, order, proto, decode).dropped == d.dropped + LostIn(d, order, proto)
  {
    if order != [] {
      var n := |order| - 1;
      var front := order[..n];
      assert order == front + [order[n]];
      NoRepeatsParts(front, [order[n]]);
      AllVisitedLoses(d, front, proto, decode);
      AllVisitedAt(d, front, proto, decode, order[n]);
    }
  }

  // ----- What the walk learned -----

  /** The lookup has taken this answer in: its instance, SRV, TXT or address is there, or there was no room for it. */
  ghost predicate Knows(c: Ctx, step: Step, record: Record) {
    match (step, record)
    case (PtrQuery, PtrRecord(target)) => target in c.partials || |c.partials| >= c.maxEntries
    case (SrvQuery(k), SrvRecord(_, _)) => k in c.partials && c.partials[k].hasSrv && c.partials[k].host.Some?
    case (TxtQuery(k), TxtRecord(_)) => k in c.partials && c.partials[k].txt.Some?
    case (AQuery(host), AddrRecord(V4(a))) =>
      host in c.hostAddrs && (a in c.hostAddrs[host].ipv4 || |c.hostAddrs[host].ipv4| >= 16)
    case (AaaaQuery(host), AddrRecord(V6(a))) =>
      host in c.hostAddrs && (a in c.hostAddrs[host].ipv6 || |c.hostAddrs[host].ipv6| >= 16)
    case _ => true
  }

  lemma FedKnows(c: Ctx, step: Step, record: Record)
    requires Tracked(c, step)
    ensures Knows(Fed(c, step, record), step, record)
  {
  }

  /** The same lookup, having heard more: nothing known of an instance or host is forgotten. */
  ghost predicate Richer(c: Ctx, d: Ctx) {
    && d.maxEntries == c.maxEntries && (|c.partials| >= c.maxEntries ==> |d.partials| >= d.maxEntries)
    && (forall k :: k in c.partials ==> k in d.partials && RicherPartial(c.partials[k], d.partials[k]))
    && (forall h :: h in c.hostAddrs ==> h in d.hostAddrs && RicherAddrs(c.hostAddrs[h], d.hostAddrs[h]))
    && c.hostsQueried <= d.hostsQueried
  }

  predicate RicherPartial(p: Partial, q: Partial) {
    && q.instance == p.instance && (p.hasSrv ==> q.hasSrv) && (p.host.Some? ==> q.host.Some?)
    && (p.txt.Some? ==> q.txt.Some?)
  }

  predicate RicherAddrs(a: Addrs, b: Addrs) {
    a.ipv4 <= b.ipv4 && a.ipv6 <= b.ipv6
  }

  lemma RicherStill(c: Ctx, d: Ctx, e: Ctx)
    requires Richer(c, d) && Richer(d, e)
    ensures Richer(c, e)
  {
    forall h | h in c.hostAddrs
      ensures h in e.hostAddrs && RicherAddrs(c.hostAddrs[h], e.hostAddrs[h])
    {
      assert RicherAddrs(c.hostAddrs[h], d.hostAddrs[h]) && RicherAddrs(d.hostAddrs[h], e.hostAddrs[h]);
    }
  }

  /** What is known stays known, and what is tracked stays tracked. */
  lemma RicherKnows(c: Ctx, d: Ctx, step: Step, record: Record)
    requires Richer(c, d)
    ensures Knows(c, step, record) ==> Knows(d, step, record)
    ensures Tracked(c, step) ==> Tracked(d, step)
  {
    if (step.AQuery? || step.AaaaQuery?) && step.host in c.hostAddrs {
      assert RicherAddrs(c.hostAddrs[step.host], d.hostAddrs[step.host]);
    }
    if (step.SrvQuery? || step.TxtQuery?) && step.instance in c.partials {
      assert RicherPartial(c.partials[step.instance], d.partials[step.instance]);
    }
  }

  lemma FedIsRicher(c: Ctx, step: Step, record: Record)
    ensures Richer(c, Fed(c, step, record))
  {
    if |c.partials| >= c.maxEntries { FedStaysFull(c, step, record); }
    match (step, record)
    case (PtrQuery, PtrRecord(target)) =>
    case (SrvQuery(k), SrvRecord(host, port)) => SrvIsRicher(c, k, host, port);
    case (TxtQuery(k), TxtRecord(txt)) =>
    case (AQuery(host), AddrRecord(V4(a))) => AddrIsRicher(c, host, V4(a));
    case (AaaaQuery(host), AddrRecord(V6(a))) => AddrIsRicher(c, host, V6(a));
    case _ =>
  }

  lemma SrvIsRicher(c: Ctx, k: Name, host: Name, port: nat)
    requires |c.partials| >= c.maxEntries ==> |AfterSrv(c, k, host, port).partials| >= c.maxEntries
    ensures Richer(c, AfterSrv(c, k, host, port))
  {
  }

  lemma AddrIsRicher(c: Ctx, host: Name, ip: IpAddr)
    requires |c.partials| >= c.maxEntries ==> |AfterAddr(c, host, ip).partials| >= c.maxEntries
    ensures Richer(c, AfterAddr(c, host, ip))
  {
    AddIsRicher(AddrsOf(c.hostAddrs, host), ip);
  }

  lemma AddIsRicher(addrs: Addrs, ip: IpAddr)
    ensures RicherAddrs(addrs, addrs.Add(ip))
  {
  }

  lemma FedStaysFull(c: Ctx, step: Step, record: Record)
    requires |c.partials| >= c.maxEntries
    ensures var d := Fed(c, step, record); |d.partials| >= d.maxEntries
  {
    var d := Fed(c, step, record);
    FedKeepsFlags(c, step, record);
    assert d.partials.Keys == c.partials.Keys;
    assert |d.partials.Keys| == |d.partials| && |c.partials.Keys| == |c.partials|;
  }

  lemma {:induction false} FedInTurnIsRicher(c: Ctx, step: Step, answers: seq<CollectedAnswer>,
                                             decode: CollectedAnswer -> Record)
    ensures Richer(c, FedInTurn(c, step, answers, decode))
  {
    if answers != [] {
      var n := |answers| - 1;
      var before := FedInTurn(c, step, answers[..n], decode);
      FedInTurnIsRicher(c, step, answers[..n], decode);
      FedIsRicher(before, step, decode(answers[n]));
      RicherStill(c, before, FedInTurn(c, step, answers, decode));
    }
  }

  lemma {:induction false} FedInTurnKnows(c: Ctx, step: Step, answers: seq<CollectedAnswer>,
                                         decode: CollectedAnswer -> Record, answer: CollectedAnswer)
    requires Tracked(c, step) && answer in answers
    ensures Knows(FedInTurn(c, step, answers, decode), step, decode(answer))
  {
    var n := |answers| - 1;
    var before := FedInTurn(c, step, answers[..n], decode);
    FedInTurnIsRicher(c, step, answers[..n], decode);
    RicherKnows(c, before, step, decode(answer));
    if answer == answers[n] {
      FedKnows(before, step, decode(answer));
    } else {
      FedInTurnKnows(c, step, answers[..n], decode, answer);
      FedIsRicher(before, step, decode(answers[n]));
      RicherKnows(before, FedInTurn(c, step, answers, decode), step, decode(answer));
    }
  }

  /** Of several SRVs, or TXTs, read under one leg the last is the one that stands. */
  lemma {:induction false} LastReadStands(c: Ctx, step: Step, answers: seq<CollectedAnswer>,
                                          decode: CollectedAnswer -> Record, j: nat)
    requires j < |answers| && Tracked(c, step)
    requires step.SrvQuery? && decode(answers[j]).SrvRecord? ==>
      forall i :: j < i < |answers| ==> !decode(answers[i]).SrvRecord?
    requires step.TxtQuery? && decode(answers[j]).TxtRecord? ==>
      forall i :: j < i < |answers| ==> !decode(answers[i]).TxtRecord?
    ensures var d := FedInTurn(c, step, answers, decode);
      match (step, decode(answers[j]))
      case (SrvQuery(k), SrvRecord(host, port)) =>
        k in d.partials && d.partials[k].host == Some(host) && d.partials[k].port == port
      case (TxtQuery(k), TxtRecord(txt)) => k in d.partials && d.partials[k].txt == Some(txt)
      case _ => true
  {
    var n := |answers| - 1;
    FedInTurnIsRicher(c, step, answers[..n], decode);
    RicherKnows(c, FedInTurn(c, step, answers[..n], decode), step, Unusable);
    if j < n { LastReadStands(c, step, answers[..n], decode, j); }
  }

  lemma VisitedIsRicher(d: Desk, x: QueryHandle, proto: map<QueryHandle, ProtoQuery>, decode: CollectedAnswer -> Record)
    ensures Richer(d.c, Visited(d, x, proto, decode).c)
  {
    if Readable(d, x, proto) { FedInTurnIsRicher(d.c, d.c.subqueries[x], News(d.queries[x], proto[x]), decode); }
  }

  lemma {:induction false} AllVisitedIsRicher(d: Desk, order: seq<QueryHandle>, proto: map<QueryHandle, ProtoQuery>,
                                              decode: CollectedAnswer -> Record)
    ensures Richer(d.c, AllVisited(d, order, proto, decode).c)
  {
    if order != [] {
      var n := |order| - 1;
      var e := AllVisited(d, order[..n], proto, decode);
      AllVisitedIsRicher(d, order[..n], proto, decode);
      VisitedIsRicher(e, order[n], proto, decode);
      RicherStill(d.c, e.c, AllVisited(d, order, proto, decode).c);
    }
  }

  /** After the walk every answer a leg's pool held that had not been read is known. */
  lemma {:induction false} AllVisitedKnows(d: Desk, order: seq<QueryHandle>, proto: map<QueryHandle, ProtoQuery>,
                                           decode: CollectedAnswer -> Record, q: QueryHandle, answer: CollectedAnswer)
    requires NoRepeats(order) && q in order && Readable(d, q, proto) && Tracked(d.c, d.c.subqueries[q])
    requires answer in News(d.queries[q], proto[q])
    ensures Knows(AllVisited(d, order, proto, decode).c, d.c.subqueries[q], decode(answer))
  {
    var n, step := |order| - 1, d.c.subqueries[q];
    var front := order[..n];
    assert order == front + [order[n]];
    NoRepeatsParts(front, [order[n]]);
    var e := AllVisited(d, front, proto, decode);
    if q == order[n] {
      AllVisitedAt(d, front, proto, decode, q);
      AllVisitedIsRicher(d, front, proto, decode);
      RicherKnows(d.c, e.c, step, decode(answer));
      FedInTurnKnows(e.c, step, News(d.queries[q], proto[q]), decode, answer);
    } else {
      AllVisitedKnows(d, front, proto, decode, q, answer);
      VisitedIsRicher(e, order[n], proto, decode);
      RicherKnows(e.c, AllVisited(d, order, proto, decode).c, step, decode(answer));
    }
  }

  // ----- Follow-ups out -----

  function TakenPending(d: Desk): Desk {
    d.(c := d.c.(pending := []))
  }

  function Opened(d: Desk, step: Step): Desk {
    d.(c := AddLeg(d.c, d.nextQuery, step), queries := d.queries[d.nextQuery := QueryCtx(0, Some(d.h))],
       nextQuery := d.nextQuery + 1)
  }

  /** The first `n` starts; whether the proto layer takes the `i`-th start of slot `k` is `accepts(k, i)`. */
  function Launched(d: Desk, starts: seq<Step>, accepts: (nat, nat) -> bool, n: nat): Desk
    requires n <= |starts|
  {
    if n == 0 then d
    else
      var before := Launched(d, starts, accepts, n - 1);
      if accepts(d.h.key, n - 1) then Opened(before, starts[n - 1]) else before
  }

  function Refusals(k: nat, accepts: (nat, nat) -> bool, n: nat): nat {
    if n == 0 then 0 else Refusals(k, accepts, n - 1) + (if accepts(k, n - 1) then 0 else 1)
  }

  /** Each start that was accepted is a leg with that step, under the next handle in turn, and its query is the lookup's. */
  lemma {:induction false} LaunchedLegs(d: Desk, starts: seq<Step>, accepts: (nat, nat) -> bool, n: nat, i: nat)
    requires i < n <= |starts|
    ensures var e, q := Launched(d, starts, accepts, n), d.nextQuery + i - Refusals(d.h.key, accepts, i);
      accepts(d.h.key, i) ==>
        && q in e.c.subqueries && e.c.subqueries[q] == starts[i]
        && q in e.queries && e.queries[q] == QueryCtx(0, Some(d.h))
  {
    LaunchedEffect(d, starts, accepts, n - 1);
    LaunchedCount(d, starts, accepts, n - 1);
    if i < n - 1 && accepts(d.h.key, i) {
      LaunchedLegs(d, starts, accepts, n - 1, i);
      RefusalsGrow(d.h.key, accepts, i, n - 1);
    }
  }

  lemma {:induction false} LaunchedCount(d: Desk, starts: seq<Step>, accepts: (nat, nat) -> bool, n: nat)
    requires n <= |starts|
    ensures Launched(d, starts, accepts, n).nextQuery == d.nextQuery + n - Refusals(d.h.key, accepts, n)
  {
    if n > 0 {
      LaunchedEffect(d, starts, accepts, n - 1);
      LaunchedCount(d, starts, accepts, n - 1);
    }
  }

  lemma {:induction false} RefusalsGrow(k: nat, accepts: (nat, nat) -> bool, i: nat, n: nat)
    requires i < n && accepts(k, i)
    ensures Refusals(k, accepts, n) - Refusals(k, accepts, i) < n - i
  {
    if i < n - 1 { RefusalsGrow(k, accepts, i, n - 1); }
  }

  predicate IsLeg(legs: map<QueryHandle, Step>, q: QueryHandle, step: Step) {
    q in legs && legs[q] == step
  }

  /** These steps are legs, under handles in a row. */
  ghost predicate LegsInRow(legs: map<QueryHandle, Step>, first: QueryHandle, steps: seq<Step>)
    decreases |steps|
  {
    steps == [] || (IsLeg(legs, first, steps[0]) && LegsInRow(legs, first + 1, steps[1..]))
  }

  lemma {:induction false} RowOfLegs(legs: map<QueryHandle, Step>, first: QueryHandle, steps: seq<Step>)
    requires forall i :: 0 <= i < |steps| ==> IsLeg(legs, first + i, steps[i])
    ensures LegsInRow(legs, first, steps)
    decreases |steps|
  {
    if steps != [] {
      assert IsLeg(legs, first + 0, steps[0]);
      forall i | 0 <= i < |steps[1..]|
        ensures IsLeg(legs, first + 1 + i, steps[1..][i])
      {
        assert IsLeg(legs, first + (i + 1), steps[i + 1]);
      }
      RowOfLegs(legs, first + 1, steps[1..]);
    }
  }

  /** With no start refused, they are all legs. */
  lemma AllLaunched(d: Desk, starts: seq<Step>, accepts: (nat, nat) -> bool)
    requires Refusals(d.h.key, accepts, |starts|) == 0
    ensures LegsInRow(Launched(d, starts, accepts, |starts|).c.subqueries, d.nextQuery, starts)
  {
    forall i | 0 <= i < |starts|
      ensures IsLeg(Launched(d, starts, accepts, |starts|).c.subqueries, d.nextQuery + i, starts[i])
    {
      NoneRefused(d.h.key, accepts, |starts|, i);
      LaunchedLegs(d, starts, accepts, |starts|, i);
    }
    RowOfLegs(Launched(d, starts, accepts, |starts|).c.subqueries, d.nextQuery, starts);
  }

  lemma {:induction false} NoneRefused(k: nat, accepts: (nat, nat) -> bool, n: nat, i: nat)
    requires i < n && Refusals(k, accepts, n) == 0
    ensures accepts(k, i) && Refusals(k, accepts, i) == 0
  {
    if i < n - 1 { NoneRefused(k, accepts, n - 1, i); }
  }

  /** One of the first `n` starts is refused. */
  ghost predicate RefusesOne(k: nat, accepts: (nat, nat) -> bool, n: nat) {
    exists i :: 0 <= i < n && !accepts(k, i)
  }

  lemma {:induction false} RefusedSomewhere(k: nat, accepts: (nat, nat) -> bool, n: nat)
    ensures Refusals(k, accepts, n) > 0 ==> RefusesOne(k, accepts, n)
  {
    if n > 0 { RefusedSomewhere(k, accepts, n - 1); }
  }

  /** Each start became a leg or was refused; nothing else of the lookup changed. */
  lemma {:induction false} LaunchedEffect(d: Desk, starts: seq<Step>, accepts: (nat, nat) -> bool, n: nat)
    requires n <= |starts|
    ensures var e := Launched(d, starts, accepts, n);
      && e.c.(subqueries := d.c.subqueries, launched := d.c.launched) == d.c
      && e.c.launched + Refusals(d.h.key, accepts, n) == d.c.launched + n
      && e.nextQuery >= d.nextQuery && e.h == d.h && e.dropped == d.dropped && e.left == d.left
      && (d.Held() ==> e.Held())
  {
    if n > 0 { LaunchedEffect(d, starts, accepts, n - 1); }
  }

  /** Queries and legs there before stay as they were. */
  lemma {:induction false} LaunchedAt(d: Desk, starts: seq<Step>, accepts: (nat, nat) -> bool, n: nat, q: QueryHandle)
    requires n <= |starts| && q < d.nextQuery
    ensures LegAfter(d, Launched(d, starts, accepts, n), q, map[], false)
  {
    if n > 0 {
      LaunchedEffect(d, starts, accepts, n - 1);
      LaunchedAt(d, starts, accepts, n - 1, q);
    }
  }

  lemma {:induction false} LaunchedNew(d: Desk, starts: seq<Step>, accepts: (nat, nat) -> bool, n: nat, q: QueryHandle)
    requires n <= |starts|
    ensures var e := Launched(d, starts, accepts, n);
      q in e.queries && q !in d.queries ==> e.queries[q].owner == Some(d.h)
  {
    if n > 0 {
      LaunchedEffect(d, starts, accepts, n - 1);
      LaunchedNew(d, starts, accepts, n - 1, q);
    }
  }

  lemma OpenedOnlyLegs(d: Desk, step: Step)
    requires d.Own()
    ensures OnlyLegsOf(d.h, d.queries, Opened(d, step).queries, d.nextQuery)
  {
  }

  /** Launching adds queries of the lookup's own and touches no other. */
  lemma LaunchedOnlyLegs(d: Desk, starts: seq<Step>, accepts: (nat, nat) -> bool, n: nat)
    requires n <= |starts| && d.Own()
    ensures OnlyLegsOf(d.h, d.queries, Launched(d, starts, accepts, n).queries, d.nextQuery)
  {
    var e := Launched(d, starts, accepts, n);
    forall q: QueryHandle
      ensures q in d.queries ==> q in e.queries && e.queries[q] == d.queries[q]
      ensures q in e.queries && q !in d.queries ==> q >= d.nextQuery && e.queries[q].owner == Some(d.h)
    {
      LaunchedNew(d, starts, accepts, n, q);
      if q < d.nextQuery { LaunchedAt(d, starts, accepts, n, q); }
    }
  }

  // ----- The turn as a whole -----

  /** What a turn works out before it reports: `n` of the starts were dealt with before the window was found shut. */
  function Worked(d: Desk, order: seq<QueryHandle>, proto: map<QueryHandle, ProtoQuery>,
                  decode: CollectedAnswer -> Record, accepts: (nat, nat) -> bool, n: nat): Desk
    requires n <= |Asked(d, order, proto, decode)|
  {
    Launched(TakenPending(AllVisited(Reconciled(d), order, proto, decode)), Asked(d, order, proto, decode), accepts, n)
  }

  /** What the lookup wants started once its answers are in. */
  function Asked(d: Desk, order: seq<QueryHandle>, proto: map<QueryHandle, ProtoQuery>,
                 decode: CollectedAnswer -> Record): seq<Step>
  {
    AllVisited(Reconciled(d), order, proto, decode).c.pending
  }

  /** The desk after a turn that dealt with `n` starts; what it then reported shows in `c` alone. */
  ghost predicate WorkedOn(d: Desk, e: Desk, order: seq<QueryHandle>, proto: map<QueryHandle, ProtoQuery>,
                           decode: CollectedAnswer -> Record, accepts: (nat, nat) -> bool, n: nat)
  {
    && LegOrder(order, Reconciled(d).c) && n <= |Asked(d, order, proto, decode)|
    && e == Worked(d, order, proto, decode, accepts, n).(c := e.c)
    && e.c.subqueries == Worked(d, order, proto, decode, accepts, n).c.subqueries
  }

  /** Only the queries of `h` moved, none changed hands, and new ones are its own, under new handles. */
  ghost predicate OnlyLegsOf(h: LookupHandle, before: map<QueryHandle, QueryCtx>, after: map<QueryHandle, QueryCtx>,
                             nextQuery: nat) {
    && (forall q :: q in before && before[q].owner != Some(h) ==> q in after && after[q] == before[q])
    && (forall q :: q in after && q in before ==> after[q].owner == before[q].owner)
    && (forall q :: q in after && q !in before ==> q >= nextQuery && after[q].owner == Some(h))
  }

  /** Everything the proto layer had for one query has been read, and a finished query is gone. */
  predicate Heard(before: QueryCtx, q: QueryHandle, state: ProtoQuery, queries: map<QueryHandle, QueryCtx>,
                  left: map<QueryHandle, QueryCtx>)
  {
    if state.terminal.Some? then q !in queries && q in left && left[q] == Scanned(before, state)
    else q in queries && queries[q] == Scanned(before, state)
  }

  /** ...for every query of the desk's lookup. */
  ghost predicate HeardAll(d: Desk, e: Desk, proto: map<QueryHandle, ProtoQuery>) {
    forall q :: q in d.queries && d.queries[q].owner == Some(d.h) && q in proto ==>
      Heard(d.queries[q], q, proto[q], e.queries, e.left)
  }

  /** What has left stays as it left. */
  ghost predicate StaysLeft(before: map<QueryHandle, QueryCtx>, after: map<QueryHandle, QueryCtx>) {
    forall q :: q in before ==> q in after && after[q] == before[q]
  }

  lemma NoneMoved(d: Desk)
    ensures OnlyLegsOf(d.h, d.queries, d.queries, d.nextQuery)
  {
  }

  /** What a turn makes of one query. */
  ghost predicate QueryTurned(d: Desk, e: Desk, proto: map<QueryHandle, ProtoQuery>, q: QueryHandle) {
    && (q in d.queries && d.queries[q].owner != Some(d.h) ==> q in e.queries && e.queries[q] == d.queries[q])
    && (q in e.queries && q in d.queries ==> e.queries[q].owner == d.queries[q].owner)
    && (q in e.queries && q !in d.queries ==> q >= d.nextQuery && e.queries[q].owner == Some(d.h))
    && (q in d.queries && d.queries[q].owner == Some(d.h) && q in proto ==>
          Heard(d.queries[q], q, proto[q], e.queries, e.left))
    && (q in d.left ==> q in e.left && e.left[q] == d.left[q])
  }

  lemma WorkedAt(d: Desk, order: seq<QueryHandle>, proto: map<QueryHandle, ProtoQuery>,
                 decode: CollectedAnswer -> Record, accepts: (nat, nat) -> bool, n: nat, q: QueryHandle)
    requires n <= |Asked(d, order, proto, decode)| && d.Own() && LegOrder(order, Reconciled(d).c)
    ensures QueryTurned(d, Worked(d, order, proto, decode, accepts, n), proto, q)
  {
    var answered := AllVisited(Reconciled(d), order, proto, decode);
    AllVisitedKeepsRest(Reconciled(d), order, proto, decode);
    AllVisitedAt(Reconciled(d), order, proto, decode, q);
    LaunchedEffect(TakenPending(answered), answered.c.pending, accepts, n);
    LaunchedNew(TakenPending(answered), answered.c.pending, accepts, n, q);
    if q < d.nextQuery { LaunchedAt(TakenPending(answered), answered.c.pending, accepts, n, q); }
  }

  /** A turn reads every leg it has, touches no query that is not the lookup's, and leaves no leg without a query. */
  lemma WorkedHears(d: Desk, e: Desk, order: seq<QueryHandle>, proto: map<QueryHandle, ProtoQuery>,
                    decode: CollectedAnswer -> Record, accepts: (nat, nat) -> bool, n: nat)
    requires d.Own() && WorkedOn(d, e, order, proto, decode, accepts, n)
    ensures OnlyLegsOf(d.h, d.queries, e.queries, d.nextQuery) && HeardAll(d, e, proto) && StaysLeft(d.left, e.left)
    ensures e.nextQuery >= d.nextQuery && e.Held()
    ensures e.dropped == d.dropped + LostIn(Reconciled(d), order, proto)
  {
    var answered := AllVisited(Reconciled(d), order, proto, decode);
    AllVisitedKeepsRest(Reconciled(d), order, proto, decode);
    AllVisitedHeld(Reconciled(d), order, proto, decode);
    AllVisitedLoses(Reconciled(d), order, proto, decode);
    LaunchedEffect(TakenPending(answered), answered.c.pending, accepts, n);
    forall q: QueryHandle
      ensures q in d.queries && d.queries[q].owner != Some(d.h) ==> q in e.queries && e.queries[q] == d.queries[q]
      ensures q in e.queries && q in d.queries ==> e.queries[q].owner == d.queries[q].owner
      ensures q in e.queries && q !in d.queries ==> q >= d.nextQuery && e.queries[q].owner == Some(d.h)
      ensures q in d.queries && d.queries[q].owner == Some(d.h) && q in proto ==>
        Heard(d.queries[q], q, proto[q], e.queries, e.left)
      ensures q in d.left ==> q in e.left && e.left[q] == d.left[q]
    {
      WorkedAt(d, order, proto, decode, accepts, n, q);
    }
  }

  // ----- A turn, for the record -----

  /**
   What became of one lookup's turn. It was skipped, the lookup being found expired; or its legs were read in `order`
   and `n` of the starts they asked for were dealt with, which left the lookup `done` or not.
   */
  datatype Turn = Skipped(d: Desk) | Taken(d: Desk, e: Desk, order: seq<QueryHandle>, n: nat, done: bool) {
    function End(): Desk {
      if Skipped? then d else e
    }

    predicate Over() {
      Skipped? || done
    }
  }

  /**
   A turn that began no earlier than `since` and was over by `now`. One that leaves the lookup running read each leg
   to the end, started what was asked for, reported all that was due, and left something to wait for.
   */
  ghost predicate Right(t: Turn, proto: map<QueryHandle, ProtoQuery>, decode: CollectedAnswer -> Record,
                        accepts: (nat, nat) -> bool, since: nat, now: nat)
  {
    match t
    case Skipped(d) => d.c.Expired(now)
    case Taken(d, e, order, n, done) =>
      && HeardAll(d, e, proto) && WorkedOn(d, e, order, proto, decode, accepts, n)
      && e.dropped == d.dropped + LostIn(Reconciled(d), order, proto)
      && if done then IsOver(e.c, now)
         else
           && n == |Asked(d, order, proto, decode)|
           && ReportedOnly(Worked(d, order, proto, decode, accepts, n).c, e.c)
           && !e.c.Finished(since) && Settled(e.c) && e.Held()
  }

  /** What the turn added to the count of answers lost. */
  function LostBy(t: Turn): int {
    t.End().dropped - t.d.dropped
  }

  ghost function LostOver(turns: map<nat, Turn>): int {
    if turns == map[] then 0
    else
      var k :| k in turns;
      LostOver(turns - {k}) + LostBy(turns[k])
  }

  lemma {:induction false} LostPeels(turns: map<nat, Turn>, k: nat)
    requires k in turns
    ensures LostOver(turns) == LostOver(turns - {k}) + LostBy(turns[k])
  {
    var j :| j in turns && LostOver(turns) == LostOver(turns - {j}) + LostBy(turns[j]);
    if j != k {
      LostPeels(turns - {j}, k);
      LostPeels(turns - {k}, j);
      assert turns - {j} - {k} == turns - {k} - {j};
    }
  }

  lemma LostOn(turns: map<nat, Turn>, k: nat, t: Turn)
    requires k !in turns
    ensures LostOver(turns[k := t]) == LostOver(turns) + LostBy(t)
  {
    LostPeels(turns[k := t], k);
    assert turns[k := t] - {k} == turns;
  }

  /** A turn that leaves its lookup running has taken in every answer its legs' pools held that had not been read. */
  lemma TurnKnows(t: Turn, proto: map<QueryHandle, ProtoQuery>, decode: CollectedAnswer -> Record,
                  accepts: (nat, nat) -> bool, since: nat, now: nat, q: QueryHandle, answer: CollectedAnswer)
    requires Right(t, proto, decode, accepts, since, now) && !t.Over()
    requires Readable(t.d, q, proto) && Tracked(t.d.c, t.d.c.subqueries[q])
    requires Some(answer) in proto[q].slots && t.d.queries[q].lastSeq <= answer.seqNo < proto[q].accepted
    ensures Knows(t.e.c, t.d.c.subqueries[q], decode(answer))
  {
    FreshAre(proto[q].slots, t.d.queries[q].lastSeq, answer);
    var answered := AllVisited(Reconciled(t.d), t.order, proto, decode);
    AllVisitedKnows(Reconciled(t.d), t.order, proto, decode, q, answer);
    LaunchedEffect(TakenPending(answered), answered.c.pending, accepts, t.n);
  }

  lemma StaysRight(t: Turn, proto: map<QueryHandle, ProtoQuery>, decode: CollectedAnswer -> Record,
                   accepts: (nat, nat) -> bool, since: nat, now: nat, earlier: nat, later: nat)
    requires Right(t, proto, decode, accepts, since, now) && earlier <= since && now <= later
    ensures Right(t, proto, decode, accepts, earlier, later)
  {
  }

  // ----- The world around one turn -----

  /** From one moment of a tick to another, only the lookup in slot `k`, the queries and the clock have moved. */
  ghost predicate OnlyAt(w: World, v: World, k: nat) {
    && k in w.lookups && k in v.lookups && v.lookups == w.lookups[k := v.lookups[k]]
    && v.windows == w.windows && v.cancelled == w.cancelled && v.log == w.log && v.ended == w.ended
    && v.nextGeneration == w.nextGeneration && v.clock >= w.clock
    && SameLookup(w.lookups[k], v.lookups[k]) && v.lookups[k].ready == w.lookups[k].ready
  }

  lemma OnlyAtOn(u: World, v: World, w: World, k: nat)
    requires OnlyAt(u, v, k) && OnlyAt(v, w, k)
    ensures OnlyAt(u, w, k)
  {
  }

  lemma LaterIsOnlyAt(w: World, v: World, k: nat)
    requires k in w.lookups && v == w.(clock := v.clock) && v.clock >= w.clock
    ensures OnlyAt(w, v, k)
  {
    assert w.lookups == w.lookups[k := w.lookups[k]];
  }

  lemma FedIsOnlyAt(w: World, k: nat, step: Step, record: Record)
    requires k in w.lookups && k in w.times
    ensures OnlyAt(w, FeedAt(w, k, step, record), k)
  {
    FedKeepsRest(w.lookups[k], step, record);
  }

  /** The same, and entries of that lookup alone were told. */
  ghost predicate ToldAt(w: World, v: World, k: nat) {
    && k in w.lookups && k in v.lookups && v.lookups == w.lookups[k := v.lookups[k]]
    && v.windows == w.windows && v.cancelled == w.cancelled && v.ended == w.ended
    && v.nextGeneration == w.nextGeneration && v.clock >= w.clock
    && SameLookup(w.lookups[k], v.lookups[k])
    && w.log <= v.log
    && (forall i :: |w.log| <= i < |v.log| ==> v.log[i].Found? && v.log[i].handle == HandleAt(w.lookups, k))
  }

  lemma ReportStep(w: World, v: World, k: nat)
    requires ToldAt(w, v, k) && v.lookups[k].ready != []
    ensures ToldAt(w, Tell(v, k), k)
  {
  }

  lemma CollectStep(w: World, k: nat, order: seq<Name>)
    requires k in w.lookups && forall n :: n in order ==> n in w.lookups[k].partials
    ensures ToldAt(w, Replace(w, k, CollectAll(w.lookups[k], order)), k)
  {
    CollectAllReports(w.lookups[k], order);
  }

  lemma TurnStep(u: World, v: World, w: World, k: nat)
    requires OnlyAt(u, v, k) && ToldAt(v, w, k)
    ensures ToldAt(u, w, k)
  {
  }

  lemma TurnEnds(u: World, v: World, w: World, k: nat)
    requires ToldAt(u, v, k) && OnlyAt(v, w, k)
    ensures ToldAt(u, w, k)
  {
  }

  lemma NothingTold(w: World, k: nat)
    requires k in w.lookups
    ensures ToldAt(w, w, k)
  {
    assert w.lookups == w.lookups[k := w.lookups[k]];
  }

  lemma ToldAtOn(u: World, v: World, w: World, k: nat)
    requires ToldAt(u, v, k) && ToldAt(v, w, k)
    ensures ToldAt(u, w, k)
  {
  }

  lemma NothingToldAt(w: World, v: World, k: nat)
    requires OnlyAt(w, v, k)
    ensures ToldAt(w, v, k)
  {
  }

  /** What a turn amounts to: it told only of its own lookup, moved only its own legs' queries, and was right. */
  ghost predicate Turned(w: World, v: World, t: Turn, proto: map<QueryHandle, ProtoQuery>,
                         decode: CollectedAnswer -> Record, accepts: (nat, nat) -> bool)
  {
    var d, e := t.d, t.End();
    && ToldAt(w, v, d.h.key) && OnlyLegsOf(d.h, d.queries, e.queries, d.nextQuery)
    && d.nextQuery <= e.nextQuery && StaysLeft(d.left, e.left)
    && Right(t, proto, decode, accepts, w.clock, v.clock)
  }

  // ----- What a run grants a turn -----

  lemma RunningIsMinted(run: Run, k: nat)
    requires k in After(run).lookups
    ensures HandleAt(After(run).lookups, k) in After(run).windows && k in After(run).times
  {
    EveryRunIsSafe(run);
  }

  lemma RunningIsNamed(run: Run, k: nat)
    requires k in After(run).lookups
    ensures KeysNamed(After(run).lookups[k].partials)
  {
    EveryRunIsSafe(run);
  }

  /** A leg's step names something its lookup tracks, so no handler is ever given a stranger. */
  lemma LegIsTracked(run: Run, k: nat, q: QueryHandle)
    requires k in After(run).lookups && q in After(run).lookups[k].subqueries
    ensures Tracked(After(run).lookups[k], After(run).lookups[k].subqueries[q])
  {
    EveryRunIsSafe(run);
  }

  /** The lookup's legs and the queries it owns are the same, in every run. */
  lemma LegsAreOwned(run: Run, d: Desk)
    requires var w := After(run);
      Live(w.lookups, d.h) && d.c == w.lookups[d.h.key] && d.queries == w.queries && d.nextQuery == w.nextQuery
      && d.left == w.left
    ensures d.Own()
  {
    EveryRunIsSafe(run);
  }

  /** A lookup part-way through launching what it asked for: at most `i` starts in. */
  predicate LaunchedFrom(asked: Ctx, c: Ctx, i: nat) {
    && c.(subqueries := asked.subqueries, launched := asked.launched, pending := asked.pending) == asked
    && c.pending == [] && c.launched <= asked.launched + i
  }

  lemma LaunchingFrom(asked: Ctx, d: Desk, starts: seq<Step>, accepts: (nat, nat) -> bool, n: nat, i: nat)
    requires d.c == asked.(pending := []) && n <= |starts| && n <= i
    ensures LaunchedFrom(asked, Launched(d, starts, accepts, n).c, i)
    ensures Launched(d, starts, accepts, n).h == d.h
  {
    LaunchedEffect(d, starts, accepts, n);
  }

  /** Whatever a running lookup asked for, it may launch, however many of the others it has launched since. */
  lemma AskedForMayLaunch(run: Run, k: nat, c: Ctx, i: nat)
    requires k in After(run).lookups && i < |After(run).lookups[k].pending|
    requires LaunchedFrom(After(run).lookups[k], c, i)
    ensures MayLaunch(c, After(run).lookups[k].pending[i])
  {
    EveryRunIsSafe(run);
  }

  // ----- What a turn tells is new -----

  lemma {:induction false} ToldConcat(a: seq<Notice>, b: seq<Notice>, h: LookupHandle)
    ensures Told(a + b, h) == Told(a, h) + Told(b, h)
  {
    if b == [] {
      assert a + b == a;
    } else {
      var n := |b| - 1;
      assert (a + b)[..|a| + n] == a + b[..n];
      ToldConcat(a, b[..n], h);
    }
  }

  lemma {:induction false} ToldHolds(log: seq<Notice>, h: LookupHandle, i: nat)
    requires i < |log| && log[i].Found? && log[i].handle == h
    ensures log[i].entry.instance in Told(log, h)
  {
    if i < |log| - 1 { ToldHolds(log[..|log| - 1], h, i); }
  }

  lemma NewNameNotTold(log: seq<Notice>, later: seq<Notice>, h: LookupHandle, i: nat)
    requires log <= later && NoRepeats(Told(later, h))
    requires |log| <= i < |later| && later[i].Found? && later[i].handle == h
    ensures later[i].entry.instance !in Told(log, h)
  {
    var news := later[|log|..];
    assert later == log + news && news[i - |log|] == later[i];
    ToldConcat(log, news, h);
    ToldHolds(news, h, i - |log|);
    NoRepeatsParts(Told(log, h), Told(news, h));
  }

  lemma FlaggedIsTold(run: Run, k: nat)
    requires k in After(run).lookups && After(run).lookups[k].ready == []
    ensures var w := After(run);
      forall n :: n in Flagged(w.lookups[k].partials) ==> n in Told(w.log, HandleAt(w.lookups, k))
  {
    EveryRunIsSafe(run);
    var told := Told(After(run).log, HandleAt(After(run).lookups, k));
    assert told + Names([]) == told;
    assert forall n :: n in (set x | x in told) ==> n in told;
  }

  /** An entry told in this turn was not complete when the turn began: the turn's own answers completed it. */
  lemma ToldIsNew(run: Run, later: Run, k: nat, i: nat)
    requires k in After(run).lookups && Settled(After(run).lookups[k])
    requires ToldAt(After(run), After(later), k)
    requires |After(run).log| <= i < |After(later).log|
    ensures var n := After(later).log[i].entry.instance;
      var before := After(run).lookups[k].partials;
      n in before ==> !before[n].Complete()
  {
    var w, v, h := After(run), After(later), HandleAt(After(run).lookups, k);
    RunningIsMinted(later, k);
    EveryLookupReportsOnce(later, h);
    NewNameNotTold(w.log, v.log, h, i);
    FlaggedIsTold(run, k);
    var n := v.log[i].entry.instance;
    assert n !in Flagged(w.lookups[k].partials);
  }

  // ----- What the caller reads -----

  function ToEvent(notice: Notice): Fifo.Event {
    match notice
    case Found(handle, entry, _) => Fifo.Lookup(handle, entry)
    case Done(handle) => Fifo.LookupDone(handle)
  }

  /** The events the caller is given for what the log says. */
  function Published(log: seq<Notice>): seq<Fifo.Event> {
    if log == [] then [] else Published(log[..|log| - 1]) + [ToEvent(log[|log| - 1])]
  }

  lemma PublishedAppend(log: seq<Notice>, notice: Notice)
    ensures Published(log + [notice]) == Published(log) + [ToEvent(notice)]
  {
    assert (log + [notice])[..|log|] == log;
  }

  lemma {:induction false} PublishedGrows(log: seq<Notice>, later: seq<Notice>)
    requires log <= later
    ensures Published(log) <= Published(later)
  {
    if later != log {
      assert log <= later[..|later| - 1];
      PublishedGrows(log, later[..|later| - 1]);
    }
  }

  /** The events that tell of these entries under this handle. */
  function Offered(h: LookupHandle, entries: seq<ServiceEntry>): (events: seq<Fifo.Event>)
    ensures |events| == |entries| && forall i :: 0 <= i < |entries| ==> events[i] == Fifo.Lookup(h, entries[i])
  {
    seq(|entries|, i requires 0 <= i < |entries| => Fifo.Lookup(h, entries[i]))
  }

  lemma OfferOne(events: seq<Fifo.Event>, h: LookupHandle, entries: seq<ServiceEntry>)
    requires entries != []
    ensures events + [Fifo.Lookup(h, entries[0])] + Offered(h, entries[1..]) == events + Offered(h, entries)
  {
  }

  /** With as much read as before, what was queued is still queued, in front. */
  lemma QueuedStays(popped: seq<Fifo.Event>, before: seq<Fifo.Event>, after: seq<Fifo.Event>)
    requires popped + before <= popped + after
    ensures before <= after
  {
    assert before == (popped + before)[|popped|..] && after == (popped + after)[|popped|..];
  }

  /** Notice by notice. */
  lemma {:induction false} PublishedIs(log: seq<Notice>, i: nat)
    requires i < |log|
    ensures |Published(log)| == |log| && Published(log)[i] == ToEvent(log[i])
  {
    var n := |log| - 1;
    if n == 0 {
      assert Published(log[..0]) == [];
    } else {
      PublishedIs(log[..n], if i < n then i else 0);
    }
  }

  // ----- A tick's walk over the slab -----

  /** The lookups in `todo` are as the tick found them. */
  ghost predicate Waiting(start: World, w: World, todo: set<nat>) {
    forall k :: k in todo ==>
      k in start.lookups && k in w.lookups && w.lookups[k] == start.lookups[k] && Settled(w.lookups[k])
  }

  /** The lookups that stay had their turn, reported everything that was due, and have something left to wait for. */
  ghost predicate Staying(lookups: map<nat, Ctx>, todo: set<nat>, fin: seq<LookupHandle>, since: nat) {
    forall k :: k in lookups && k !in todo && HandleAt(lookups, k) !in fin ==>
      Settled(lookups[k]) && !lookups[k].Finished(since)
  }

  /** The lookups in `fin`, each in there once, are over. */
  ghost predicate Leaving(lookups: map<nat, Ctx>, todo: set<nat>, fin: seq<LookupHandle>, now: nat) {
    && (forall i :: 0 <= i < |fin| ==> Live(lookups, fin[i]) && fin[i].key !in todo && IsOver(lookups[fin[i].key], now))
    && (forall i, j :: 0 <= i < j < |fin| ==> fin[i].key != fin[j].key)
  }

  ghost predicate Walked(start: World, w: World, todo: set<nat>, fin: seq<LookupHandle>) {
    && start.clock <= w.clock && Waiting(start, w, todo)
    && Staying(w.lookups, todo, fin, start.clock) && Leaving(w.lookups, todo, fin, w.clock)
  }

  lemma OverStaysOver(c: Ctx, now: nat, later: nat)
    requires IsOver(c, now) && now <= later
    ensures IsOver(c, later)
  {
  }

  lemma StayOn(lookups: map<nat, Ctx>, k: nat, c: Ctx, todo: set<nat>, fin: seq<LookupHandle>, since: nat, done: bool)
    requires Staying(lookups, todo, fin, since) && k in lookups && c.generation == lookups[k].generation
    requires !done ==> Settled(c) && !c.Finished(since)
    ensures Staying(lookups[k := c], todo - {k}, if done then fin + [LookupHandle(k, c.generation)] else fin, since)
  {
  }

  lemma LeaveOn(lookups: map<nat, Ctx>, k: nat, c: Ctx, todo: set<nat>, fin: seq<LookupHandle>, now: nat, later: nat,
                done: bool)
    requires Leaving(lookups, todo, fin, now) && k in todo && now <= later && (done ==> IsOver(c, later))
    ensures Leaving(lookups[k := c], todo - {k}, if done then fin + [LookupHandle(k, c.generation)] else fin, later)
  {
    forall i | 0 <= i < |fin|
      ensures Live(lookups[k := c], fin[i]) && IsOver(lookups[k := c][fin[i].key], later)
    {
      OverStaysOver(lookups[fin[i].key], now, later);
    }
  }

  lemma WalkOn(start: World, w: World, v: World, k: nat, todo: set<nat>, fin: seq<LookupHandle>, done: bool)
    requires Walked(start, w, todo, fin) && k in todo && ToldAt(w, v, k)
    requires if done then IsOver(v.lookups[k], v.clock) else Settled(v.lookups[k]) && !v.lookups[k].Finished(w.clock)
    ensures Walked(start, v, todo - {k}, if done then fin + [HandleAt(v.lookups, k)] else fin)
  {
    StayOn(w.lookups, k, v.lookups[k], todo, fin, start.clock, done);
    LeaveOn(w.lookups, k, v.lookups[k], todo, fin, w.clock, v.clock, done);
  }

  lemma WalkFinish(start: World, w: World, fin: seq<LookupHandle>)
    requires Walked(start, w, {}, fin) && fin != []
    ensures Walked(start, Finish(w, fin[0].key), {}, fin[1..])
  {
    var v := Finish(w, fin[0].key);
    forall k | k in v.lookups && HandleAt(v.lookups, k) !in fin[1..]
      ensures Settled(v.lookups[k]) && !v.lookups[k].Finished(start.clock)
    {
      assert fin == [fin[0]] + fin[1..];
      assert HandleAt(w.lookups, k) !in fin;
    }
    assert forall i :: 0 <= i < |fin[1..]| ==> fin[1..][i] == fin[i + 1];
  }

  /** The query stands, or left, with this context. */
  predicate CursorIs(w: World, q: QueryHandle, ctx: QueryCtx) {
    (q in w.queries && w.queries[q] == ctx) || (q in w.left && w.left[q] == ctx)
  }

  /** Where a turn leaves the reading of a leg the proto layer knows: at the end, or, if it was skipped, where it was. */
  function ReadTo(t: Turn, before: QueryCtx, state: ProtoQuery): QueryCtx {
    if t.Skipped? then before else Scanned(before, state)
  }

  /** The queries part-way: the caller's own and those of `todo` untouched, the others as their lookup's turn left them. */
  ghost predicate QueriesWalked(start: World, w: World, todo: set<nat>, turns: map<nat, Turn>,
                                proto: map<QueryHandle, ProtoQuery>) {
    && start.nextQuery <= w.nextQuery
    && (forall q :: q in start.queries ==> QueryWalked(start, w, todo, turns, proto, q))
    && (forall q :: q in w.queries && q !in start.queries ==> q >= start.nextQuery)
  }

  ghost predicate QueryWalked(start: World, w: World, todo: set<nat>, turns: map<nat, Turn>,
                              proto: map<QueryHandle, ProtoQuery>, q: QueryHandle)
    requires q in start.queries
  {
    var ctx := start.queries[q];
    && (q in w.queries ==> w.queries[q].owner == ctx.owner)
    && (ctx.owner == None || ctx.owner.value.key in todo ==> q in w.queries && w.queries[q] == ctx)
    && (ctx.owner.Some? && ctx.owner.value.key in turns && q in proto ==>
          LegWalked(w, turns[ctx.owner.value.key], ctx, proto[q], q))
  }

  ghost predicate LegWalked(w: World, t: Turn, ctx: QueryCtx, state: ProtoQuery, q: QueryHandle)
    requires ctx.owner.Some?
  {
    && CursorIs(w, q, ReadTo(t, ctx, state))
    && (Live(w.lookups, ctx.owner.value) ==> (q in w.queries <==> t.Skipped? || state.terminal == None))
  }

  lemma QueryWalkOn(start: World, w: World, v: World, t: Turn, todo: set<nat>, turns: map<nat, Turn>,
                    proto: map<QueryHandle, ProtoQuery>, decode: CollectedAnswer -> Record,
                    accepts: (nat, nat) -> bool, q: QueryHandle)
    requires var k := t.d.h.key;
      && Owned(start.lookups, start.queries, start.nextQuery) && k in todo && k !in turns
      && QueriesWalked(start, w, todo, turns, proto) && Turned(w, v, t, proto, decode, accepts)
      && k in start.lookups && t.d.h == HandleAt(w.lookups, k) == HandleAt(start.lookups, k)
      && t.d.queries == w.queries && t.d.nextQuery == w.nextQuery && t.d.left == w.left
      && t.End().queries == v.queries && t.End().left == v.left
    requires q in start.queries
    ensures QueryWalked(start, v, todo - {t.d.h.key}, turns[t.d.h.key := t], proto, q)
  {
    assert QueryWalked(start, w, todo, turns, proto, q);
    var owner := start.queries[q].owner;
    if owner.Some? && owner.value.key == t.d.h.key {
      assert owner.value == t.d.h;
      assert q in t.d.queries && t.d.queries[q] == start.queries[q];
    }
  }

  lemma QueriesWalkOn(start: World, w: World, v: World, t: Turn, todo: set<nat>, turns: map<nat, Turn>,
                      proto: map<QueryHandle, ProtoQuery>, decode: CollectedAnswer -> Record,
                      accepts: (nat, nat) -> bool)
    requires var k := t.d.h.key;
      && Owned(start.lookups, start.queries, start.nextQuery) && k in todo && k !in turns
      && QueriesWalked(start, w, todo, turns, proto) && Turned(w, v, t, proto, decode, accepts)
      && k in start.lookups && t.d.h == HandleAt(w.lookups, k) == HandleAt(start.lookups, k)
      && t.d.queries == w.queries && t.d.nextQuery == w.nextQuery && t.d.left == w.left
      && t.End().queries == v.queries && t.End().left == v.left && t.End().nextQuery == v.nextQuery
    ensures QueriesWalked(start, v, todo - {t.d.h.key}, turns[t.d.h.key := t], proto)
  {
    forall q | q in start.queries
      ensures QueryWalked(start, v, todo - {t.d.h.key}, turns[t.d.h.key := t], proto, q)
    {
      QueryWalkOn(start, w, v, t, todo, turns, proto, decode, accepts, q);
    }
  }

  lemma QueriesWalkFinish(start: World, w: World, k: nat, turns: map<nat, Turn>, proto: map<QueryHandle, ProtoQuery>)
    requires Owned(w.lookups, w.queries, w.nextQuery) && Departed(w.queries, w.left, w.nextQuery) && k in w.lookups
    requires QueriesWalked(start, w, {}, turns, proto)
    ensures QueriesWalked(start, Finish(w, k), {}, turns, proto)
  {
    var v := Finish(w, k);
    CloseOwned(w.lookups, w.queries, w.nextQuery, k);
    CloseRetiresHandle(w.lookups, k);
    forall q | q in start.queries
      ensures QueryWalked(start, v, {}, turns, proto, q)
    {
      assert QueryWalked(start, w, {}, turns, proto, q);
    }
  }

  /** Each lookup out of `todo` had one turn, which began with it and its legs as `start` has them. */
  ghost predicate TurnsFit(start: World, w: World, todo: set<nat>, fin: seq<LookupHandle>, turns: map<nat, Turn>,
                           proto: map<QueryHandle, ProtoQuery>, decode: CollectedAnswer -> Record,
                           accepts: (nat, nat) -> bool)
  {
    && turns.Keys == start.lookups.Keys - todo
    && (forall k :: k in turns ==> TurnFits(start, w, k, fin, turns[k], proto, decode, accepts))
  }

  ghost predicate TurnFits(start: World, w: World, k: nat, fin: seq<LookupHandle>, t: Turn,
                           proto: map<QueryHandle, ProtoQuery>, decode: CollectedAnswer -> Record,
                           accepts: (nat, nat) -> bool)
    requires k in start.lookups
  {
    && t.d.h == HandleAt(start.lookups, k) && t.d.c == start.lookups[k] && LegsAs(start.queries, t.d)
    && Right(t, proto, decode, accepts, start.clock, w.clock)
    && (k in w.lookups ==> w.lookups[k] == t.End().c && (t.Over() <==> t.d.h in fin))
  }

  ghost predicate LegsAs(queries: map<QueryHandle, QueryCtx>, d: Desk) {
    forall q :: q in d.c.subqueries ==>
      (q in d.queries <==> q in queries) && (q in queries ==> d.queries[q] == queries[q])
  }

  lemma LegsStillAs(start: World, w: World, d: Desk, todo: set<nat>, turns: map<nat, Turn>,
                    proto: map<QueryHandle, ProtoQuery>)
    requires Owned(start.lookups, start.queries, start.nextQuery) && QueriesWalked(start, w, todo, turns, proto)
    requires var k := d.h.key;
      k in todo && k in start.lookups && d.h == HandleAt(start.lookups, k) && d.c == start.lookups[k]
    requires d.queries == w.queries
    ensures LegsAs(start.queries, d)
  {
    forall q | q in d.c.subqueries
      ensures (q in d.queries <==> q in start.queries) && (q in start.queries ==> d.queries[q] == start.queries[q])
    {
      if q in start.queries { assert QueryWalked(start, w, todo, turns, proto, q); }
    }
  }

  lemma TurnStillFits(start: World, w: World, v: World, j: nat, fin: seq<LookupHandle>, more: seq<LookupHandle>, t: Turn,
                      proto: map<QueryHandle, ProtoQuery>, decode: CollectedAnswer -> Record,
                      accepts: (nat, nat) -> bool)
    requires j in start.lookups && TurnFits(start, w, j, fin, t, proto, decode, accepts) && w.clock <= v.clock
    requires j in v.lookups ==> j in w.lookups && v.lookups[j] == w.lookups[j] && (t.d.h in fin <==> t.d.h in more)
    ensures TurnFits(start, v, j, more, t, proto, decode, accepts)
  {
    StaysRight(t, proto, decode, accepts, start.clock, w.clock, start.clock, v.clock);
  }

  lemma TurnFitsNow(start: World, w: World, v: World, t: Turn, fin: seq<LookupHandle>,
                    proto: map<QueryHandle, ProtoQuery>, decode: CollectedAnswer -> Record,
                    accepts: (nat, nat) -> bool)
    requires var k := t.d.h.key;
      && start.clock <= w.clock && k in start.lookups && Turned(w, v, t, proto, decode, accepts)
      && t.d.h == HandleAt(start.lookups, k) && t.d.c == start.lookups[k] && LegsAs(start.queries, t.d)
      && t.End().c == v.lookups[k] && t.d.h !in fin
    ensures TurnFits(start, v, t.d.h.key, if t.Over() then fin + [t.d.h] else fin, t, proto, decode, accepts)
  {
    StaysRight(t, proto, decode, accepts, w.clock, v.clock, start.clock, v.clock);
  }

  lemma TurnsFitOn(start: World, w: World, v: World, t: Turn, todo: set<nat>, fin: seq<LookupHandle>,
                   turns: map<nat, Turn>, proto: map<QueryHandle, ProtoQuery>, decode: CollectedAnswer -> Record,
                   accepts: (nat, nat) -> bool)
    requires var k := t.d.h.key;
      && start.clock <= w.clock && k in todo && k in start.lookups
      && TurnsFit(start, w, todo, fin, turns, proto, decode, accepts)
      && Turned(w, v, t, proto, decode, accepts) && t.d.h == HandleAt(start.lookups, k) && t.d.c == start.lookups[k]
      && LegsAs(start.queries, t.d) && t.End().c == v.lookups[k] && t.d.h !in fin
    ensures var k := t.d.h.key;
      TurnsFit(start, v, todo - {k}, if t.Over() then fin + [t.d.h] else fin, turns[k := t], proto, decode, accepts)
  {
    var k, more := t.d.h.key, if t.Over() then fin + [t.d.h] else fin;
    TurnFitsNow(start, w, v, t, fin, proto, decode, accepts);
    assert turns[k := t].Keys == start.lookups.Keys - (todo - {k});
    forall j | j in turns && j != k
      ensures TurnFits(start, v, j, more, turns[j], proto, decode, accepts)
    {
      assert TurnFits(start, w, j, fin, turns[j], proto, decode, accepts);
      TurnStillFits(start, w, v, j, fin, more, turns[j], proto, decode, accepts);
    }
  }

  lemma TurnsFitFinish(start: World, w: World, fin: seq<LookupHandle>, turns: map<nat, Turn>,
                       proto: map<QueryHandle, ProtoQuery>, decode: CollectedAnswer -> Record,
                       accepts: (nat, nat) -> bool)
    requires fin != [] && fin[0].key in w.lookups && TurnsFit(start, w, {}, fin, turns, proto, decode, accepts)
    ensures TurnsFit(start, Finish(w, fin[0].key), {}, fin[1..], turns, proto, decode, accepts)
  {
    var v := Finish(w, fin[0].key);
    forall j | j in turns
      ensures TurnFits(start, v, j, fin[1..], turns[j], proto, decode, accepts)
    {
      assert TurnFits(start, w, j, fin, turns[j], proto, decode, accepts);
      assert fin == [fin[0]] + fin[1..];
      TurnStillFits(start, w, v, j, fin, fin[1..], turns[j], proto, decode, accepts);
    }
  }

  /** No handle was minted, none cancelled, and nothing said was unsaid. */
  ghost predicate SameRegister(w: World, v: World) {
    v.windows == w.windows && v.cancelled == w.cancelled && w.log <= v.log
  }

  /** Lookups retired since were retired since. */
  ghost predicate EndedSince(start: World, w: World) {
    forall h :: h in w.ended && h !in start.ended ==> w.ended[h].at >= start.clock
  }

  ghost predicate Ticked(start: World, w: World, todo: set<nat>, fin: seq<LookupHandle>, turns: map<nat, Turn>,
                         proto: map<QueryHandle, ProtoQuery>, decode: CollectedAnswer -> Record,
                         accepts: (nat, nat) -> bool)
  {
    && Owned(start.lookups, start.queries, start.nextQuery) && SameRegister(start, w) && EndedSince(start, w)
    && Walked(start, w, todo, fin) && QueriesWalked(start, w, todo, turns, proto)
    && TurnsFit(start, w, todo, fin, turns, proto, decode, accepts)
  }

  lemma TickBegins(run: Run, proto: map<QueryHandle, ProtoQuery>, decode: CollectedAnswer -> Record,
                   accepts: (nat, nat) -> bool)
    requires AllSettled(After(run).lookups)
    ensures Ticked(After(run), After(run), After(run).lookups.Keys, [], map[], proto, decode, accepts)
  {
    EveryRunIsSafe(run);
  }

  lemma TickOn(start: World, w: World, v: World, t: Turn, todo: set<nat>, fin: seq<LookupHandle>, turns: map<nat, Turn>,
               proto: map<QueryHandle, ProtoQuery>, decode: CollectedAnswer -> Record, accepts: (nat, nat) -> bool)
    requires var k := t.d.h.key;
      && Ticked(start, w, todo, fin, turns, proto, decode, accepts) && k in todo
      && Turned(w, v, t, proto, decode, accepts) && t.d.h == HandleAt(w.lookups, k) && t.d.c == w.lookups[k]
      && t.d.queries == w.queries && t.d.nextQuery == w.nextQuery && t.d.left == w.left
      && t.End().c == v.lookups[k] && t.End().queries == v.queries && t.End().nextQuery == v.nextQuery
      && t.End().left == v.left
    ensures var k := t.d.h.key;
      Ticked(start, v, todo - {k}, if t.Over() then fin + [t.d.h] else fin, turns[k := t], proto, decode, accepts)
  {
    LegsStillAs(start, w, t.d, todo, turns, proto);
    WalkOn(start, w, v, t.d.h.key, todo, fin, t.Over());
    QueriesWalkOn(start, w, v, t, todo, turns, proto, decode, accepts);
    TurnsFitOn(start, w, v, t, todo, fin, turns, proto, decode, accepts);
  }

  lemma FinishOn(start: World, run: Run, fin: seq<LookupHandle>, turns: map<nat, Turn>,
                 proto: map<QueryHandle, ProtoQuery>, decode: CollectedAnswer -> Record, accepts: (nat, nat) -> bool)
    requires Ticked(start, After(run), {}, fin, turns, proto, decode, accepts) && fin != []
    ensures var v := Finish(After(run), fin[0].key);
      Ticked(start, v, {}, fin[1..], turns, proto, decode, accepts)
    ensures Live(After(run).lookups, fin[0]) && IsOver(After(run).lookups[fin[0].key], After(run).clock)
  {
    EveryRunIsSafe(run);
    WalkFinish(start, After(run), fin);
    QueriesWalkFinish(start, After(run), fin[0].key, turns, proto);
    TurnsFitFinish(start, After(run), fin, turns, proto, decode, accepts);
  }

  /** The lookup under `h` was over, at an instant between the two, and was told done. */
  ghost predicate GoneInTick(start: World, w: World, h: LookupHandle) {
    Done(h) in w.log && h in w.ended && start.clock <= w.ended[h].at <= w.clock && IsOver(w.ended[h].last, w.ended[h].at)
  }

  /** That is how a lookup leaves the slab, unless it is cancelled. */
  lemma GoneWasOver(run: Run, later: Run, k: nat)
    requires k in After(run).lookups && k !in After(later).lookups
    requires SameRegister(After(run), After(later)) && EndedSince(After(run), After(later))
    ensures GoneInTick(After(run), After(later), HandleAt(After(run).lookups, k))
  {
    var h := HandleAt(After(run).lookups, k);
    EveryRunIsSafe(run);
    EveryRunIsSafe(later);
    assert Live(After(run).lookups, h) && !Live(After(later).lookups, h);
  }

  /**
   What a tick did to the reading of one leg the proto layer knows. It was read to the end and its terminal taken; or,
   its lookup having been found expired first, it left unread.
   */
  ghost predicate LegTicked(w: World, t: Turn, ctx: QueryCtx, state: ProtoQuery, q: QueryHandle) {
    && ctx.owner.Some? && CursorIs(w, q, ReadTo(t, ctx, state))
    && (q in w.queries <==> Live(w.lookups, ctx.owner.value) && state.terminal == None)
    && (q in w.left <==> q !in w.queries)
    && (Live(w.lookups, ctx.owner.value) ==> !t.Over())
  }

  /** The caller's own queries are as they were, and the owned ones as their lookup's turn left them. */
  ghost predicate QueriesTicked(start: World, w: World, turns: map<nat, Turn>, proto: map<QueryHandle, ProtoQuery>) {
    && (forall q :: q in start.queries && start.queries[q].owner == None ==>
          q in w.queries && w.queries[q] == start.queries[q])
    && (forall q :: q in start.queries && start.queries[q].owner.Some? && q in proto ==>
          && start.queries[q].owner.value.key in turns
          && LegTicked(w, turns[start.queries[q].owner.value.key], start.queries[q], proto[q], q))
  }

  lemma QueriesWalkedOut(start: World, run: Run, turns: map<nat, Turn>, proto: map<QueryHandle, ProtoQuery>,
                         decode: CollectedAnswer -> Record, accepts: (nat, nat) -> bool)
    requires Ticked(start, After(run), {}, [], turns, proto, decode, accepts)
    ensures QueriesTicked(start, After(run), turns, proto)
  {
    var w := After(run);
    EveryRunIsSafe(run);
    forall q | q in start.queries
      ensures QueryWalked(start, w, {}, turns, proto, q)
    {
    }
    forall q | q in start.queries && start.queries[q].owner.Some? && q in proto
      ensures start.queries[q].owner.value.key in turns
      ensures LegTicked(w, turns[start.queries[q].owner.value.key], start.queries[q], proto[q], q)
    {
      LegTickedOut(start, w, turns, proto, decode, accepts, q);
    }
  }

  lemma LegTickedOut(start: World, w: World, turns: map<nat, Turn>, proto: map<QueryHandle, ProtoQuery>,
                     decode: CollectedAnswer -> Record, accepts: (nat, nat) -> bool, q: QueryHandle)
    requires Ticked(start, w, {}, [], turns, proto, decode, accepts)
    requires Owned(w.lookups, w.queries, w.nextQuery) && Departed(w.queries, w.left, w.nextQuery)
    requires q in start.queries && start.queries[q].owner.Some? && q in proto
    ensures start.queries[q].owner.value.key in turns
    ensures LegTicked(w, turns[start.queries[q].owner.value.key], start.queries[q], proto[q], q)
  {
    var h := start.queries[q].owner.value;
    assert QueryWalked(start, w, {}, turns, proto, q);
    assert h == HandleAt(start.lookups, h.key);
    assert TurnFits(start, w, h.key, [], turns[h.key], proto, decode, accepts);
  }

  /** An answer is lost with nothing counting it exactly when its leg left unread and had been given one since. */
  lemma UncountedIffSkipped(w: World, t: Turn, ctx: QueryCtx, state: ProtoQuery, q: QueryHandle)
    requires LegTicked(w, t, ctx, state, q)
    ensures (q in w.left && Expected(w.left[q], state) > 0) <==> t.Skipped? && state.accepted > ctx.lastSeq
    ensures t.Skipped? ==> q in w.left && Expected(w.left[q], state) == Expected(ctx, state)
  {
  }

  /** Its window had not shut by `since`, there is room for more, something is awaited, and nothing whole is untold. */
  ghost predicate Goes(c: Ctx, since: nat) {
    && (c.deadline.Some? ==> since < c.deadline.value) && c.emitted < c.maxEntries
    && (c.launched == 0 || c.subqueries != map[] || c.pending != [])
    && c.ready == [] && forall k :: k in c.partials ==>
         var p := c.partials[k];
         p.hasSrv && p.host.Some? && p.txt.Some? && (p.addrs.ipv4 != [] || p.addrs.ipv6 != []) ==> p.emitted
  }

  /** A lookup that stayed has something left to wait for; one that is gone was over and was told done. */
  ghost predicate StayedOrOver(start: World, w: World) {
    && (forall k :: k in w.lookups ==> Goes(w.lookups[k], start.clock))
    && (forall k :: k in start.lookups && k !in w.lookups ==> GoneInTick(start, w, HandleAt(start.lookups, k)))
  }

  lemma WalkedOut(start: World, run: Run, later: Run)
    requires start == After(run) && Walked(start, After(later), {}, [])
    requires SameRegister(start, After(later)) && EndedSince(start, After(later))
    ensures AllSettled(After(later).lookups) && StayedOrOver(start, After(later))
  {
    forall k | k in start.lookups && k !in After(later).lookups
      ensures GoneInTick(start, After(later), HandleAt(start.lookups, k))
    {
      GoneWasOver(run, later, k);
    }
  }

  /** No leg outlives its lookup. */
  lemma NoLegsLeft(run: Run, h: LookupHandle)
    requires !Live(After(run).lookups, h)
    ensures forall q :: q in After(run).queries ==> After(run).queries[q].owner != Some(h)
  {
    EveryRunIsSafe(run);
  }

  /** In every run a query that has left leaves an answer uncounted exactly if its pool took one past its last reading. */
  lemma UncountedIffUnread(run: Run, q: QueryHandle, state: ProtoQuery)
    requires q in After(run).left
    ensures Expected(After(run).left[q], state) > 0 <==> state.accepted > LastRead(run, q)
  {
    CursorIsLastRead(run, q);
    EveryRunIsSafe(run);
  }

  lemma NextQueryIsNew(run: Run)
    ensures After(run).nextQuery !in After(run).queries
  {
    EveryRunIsSafe(run);
  }

  // ----- A new lookup -----

  /** One lookup more, under a handle never seen before. Of the rest only the queries and the clock have moved. */
  ghost predicate Joined(w: World, v: World, h: LookupHandle) {
    && h !in w.windows && h.key !in w.lookups && Live(v.lookups, h)
    && v.lookups == w.lookups[h.key := v.lookups[h.key]]
    && v.windows == w.windows[h := LookupWorlds.Window(v.lookups[h.key].deadline, v.lookups[h.key].maxEntries)]
    && v.cancelled == w.cancelled && v.log == w.log && v.ended == w.ended && v.clock >= w.clock
  }

  lemma MintJoins(run: Run, slot: nat, c: Ctx)
    requires slot !in After(run).lookups
    ensures Joined(After(run), Mint(After(run), slot, c), LookupHandle(slot, After(run).nextGeneration))
  {
    MintedAfresh(run, slot);
  }

  lemma JoinedOn(u: World, v: World, w: World, h: LookupHandle)
    requires Joined(u, v, h) && OnlyAt(v, w, h.key)
    ensures Joined(u, w, h)
  {
  }

  /** Given up before anyone heard of it: the lookups, the queries and what was told are as they were. */
  ghost predicate Undone(w: World, v: World) {
    v.lookups == w.lookups && v.queries == w.queries && v.log == w.log && v.ended == w.ended && v.clock >= w.clock
  }

  lemma WithdrawnLegs(w: World, v: World, h: LookupHandle)
    requires Owned(w.lookups, w.queries, w.nextQuery) && Owned(v.lookups, v.queries, v.nextQuery)
    requires !Live(w.lookups, h) && Live(v.lookups, h) && OnlyLegsOf(h, w.queries, v.queries, w.nextQuery)
    ensures v.queries - v.lookups[h.key].subqueries.Keys == w.queries
  {
    CloseOwned(v.lookups, v.queries, v.nextQuery, h.key);
    assert forall q :: q in w.queries ==> w.queries[q].owner != Some(h);
  }

  lemma WithdrawnIsUndone(run: Run, later: Run, h: LookupHandle)
    requires var w, v := After(run), After(later);
      Joined(w, v, h) && OnlyLegsOf(h, w.queries, v.queries, w.nextQuery)
    ensures Undone(After(run), Cancel(After(later), h.key))
  {
    EveryRunIsSafe(run);
    EveryRunIsSafe(later);
    var w, v := After(run), After(later);
    WithdrawnLegs(w, v, h);
    VacatedIsBefore(w.lookups, h.key, v.lookups[h.key]);
  }

  // ----- It has nothing due, and asking leaves it so -----

  lemma MintSettles(w: World, slot: nat, seed: Seed, deadline: Option<nat>, maxEntries: nat)
    requires AllSettled(w.lookups) && maxEntries >= 1
    ensures AllSettled(Mint(w, slot, Seeded(seed, deadline, maxEntries)).lookups)
  {
    SeededIsSound(seed, deadline, maxEntries);
  }

  /** A lookup that knows its instance asks for its SRV and TXT at once; one that knows a host, for its addresses. */
  lemma SeedAsks(seed: Seed)
    ensures Seeded(seed, None, 1).pending == match seed
      case Browse => []
      case Instance(name) => [SrvQuery(name), TxtQuery(name)]
      case Host(name) => [AQuery(name), AaaaQuery(name)]
  {
  }

  lemma SeedAsksTwo(seed: Seed)
    requires !seed.Browse?
    ensures |Seeded(seed, None, 1).pending| == 2
  {
    SeedAsks(seed);
  }

  lemma SameSettles(w: World, v: World, k: nat)
    requires OnlyAt(w, v, k) && v.lookups[k].partials == w.lookups[k].partials && AllSettled(w.lookups)
    ensures AllSettled(v.lookups)
  {
  }
}
