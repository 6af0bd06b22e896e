/**
 Moving collected answers and query terminals into the event queue (hick-mio/src/driver.rs, stages 4 to 6),
 and bounding the queue's footprint afterwards.

 Three components meet here: the proto layer's pools, which may evict an answer before it is scanned; the
 event queue, which may coalesce or evict it after; and the caller, who pops. `Tally` is what a scan does to the
 list and to the counters, as functions; the driver's loops are proved to compute exactly that, and that between
 the three no scanned answer goes missing uncounted and nothing about a query follows its terminal.
 */
module UpdatePump {
  import opened Answers
  import opened AnswerPools
  import opened Basics
  import opened EventQueues
  import opened Fifo
  import opened Scans

  const EVENT_QUEUE_COMPACT_THRESHOLD: nat := 4 * ANSWER_CAPACITY

  // ----- Nothing about a query follows its terminal -----

  function About(item: Item): Option<QueryHandle> {
    match item
    case Answer(key, _) => Some(key.handle)
    case Terminal(QueryTerminal(query, _)) => Some(query)
    case Terminal(_) => None
  }

  predicate Ends(item: Item, query: QueryHandle) {
    item.Terminal? && item.event.QueryTerminal? && item.event.query == query
  }

  ghost predicate TerminalsClose(items: seq<Item>) {
    forall i, j {:trigger items[i], items[j]} :: 0 <= i < j < |items| && About(items[j]).Some? ==>
      !Ends(items[i], About(items[j]).value)
  }

  ghost predicate EndedIn(items: seq<Item>, ended: set<QueryHandle>) {
    forall i :: 0 <= i < |items| && items[i].Terminal? && items[i].event.QueryTerminal? ==>
      items[i].event.query in ended
  }

  lemma CloseAppend(items: seq<Item>, item: Item, ended: set<QueryHandle>)
    requires TerminalsClose(items) && EndedIn(items, ended)
    requires About(item).Some? ==> About(item).value !in ended
    ensures TerminalsClose(items + [item])
    ensures item.Terminal? && item.event.QueryTerminal? ==> EndedIn(items + [item], ended + {item.event.query})
    ensures !(item.Terminal? && item.event.QueryTerminal?) ==> EndedIn(items + [item], ended)
  {
  }

  lemma CloseDrop(items: seq<Item>, k: nat, ended: set<QueryHandle>)
    requires k < |items| && TerminalsClose(items) && EndedIn(items, ended)
    ensures TerminalsClose(items[..k] + items[k + 1..]) && EndedIn(items[..k] + items[k + 1..], ended)
  {
    var rest := items[..k] + items[k + 1..];
    assert forall i :: 0 <= i < |rest| ==> rest[i] == items[if i < k then i else i + 1];
  }

  lemma CloseRefresh(past: seq<Item>, items: seq<Item>, key: AnswerKey, answer: CollectedAnswer, ended: set<QueryHandle>)
    requires TerminalsClose(past + items) && EndedIn(past + items, ended)
    ensures TerminalsClose(past + Refresh(items, key, answer)) && EndedIn(past + Refresh(items, key, answer), ended)
  {
    var before, after := past + items, past + Refresh(items, key, answer);
    RefreshKeepsPlaces(items, key, answer);
    forall i | 0 <= i < |before|
      ensures About(after[i]) == About(before[i]) && (after[i].Terminal? || before[i].Terminal? ==> after[i] == before[i])
    {
      if i >= |past| { assert before[i] == items[i - |past|]; }
    }
  }

  /** An answer for a query that has not ended may join the list: received before it, or still queued. */
  lemma ClosePushAnswer(past: seq<Item>, items: seq<Item>, key: AnswerKey, answer: CollectedAnswer, ended: set<QueryHandle>)
    requires TerminalsClose(past + items) && EndedIn(past + items, ended) && key.handle !in ended
    ensures TerminalsClose(past + Fifo.PushAnswer(items, key, answer))
    ensures EndedIn(past + Fifo.PushAnswer(items, key, answer), ended)
  {
    if Coalesces(items, key) {
      CloseRefresh(past, items, key, answer, ended);
    } else {
      var kept := items;
      if Evicts(items, key) {
        var k := DropOldestAt(items);
        var at := |past| + k;
        CloseDrop(past + items, at, ended);
        kept := DropOldest(items);
        assert (past + items)[..at] + (past + items)[at + 1..] == past + kept;
      }
      CloseAppend(past + kept, Answer(key, answer), ended);
      assert past + (kept + [Answer(key, answer)]) == (past + kept) + [Answer(key, answer)];
    }
  }

  // ----- What a scan does -----

  /** The list the caller reads, and the counters: answers accepted, absorbed by a queued copy, and lost. */
  datatype Tally = Tally(items: seq<Item>, accepted: nat, coalesced: nat, dropped: nat)

  function PushedOn(t: Tally, query: QueryHandle, answer: CollectedAnswer): Tally {
    var key := KeyOf(query, answer);
    Tally(Fifo.PushAnswer(t.items, key, answer), t.accepted,
          t.coalesced + (if Coalesces(t.items, key) then 1 else 0),
          t.dropped + (if Evicts(t.items, key) then 1 else 0))
  }

  function AllPushedOn(t: Tally, query: QueryHandle, answers: seq<CollectedAnswer>): Tally {
    if answers == [] then t
    else PushedOn(AllPushedOn(t, query, answers[..|answers| - 1]), query, answers[|answers| - 1])
  }

  /** Every new answer is pushed, in slab order, and those that came too late are counted. */
  function ReadOn(t: Tally, ctx: QueryCtx, query: QueryHandle, state: ProtoQuery): Tally {
    var pushed := AllPushedOn(t, query, News(ctx, state));
    pushed.(accepted := pushed.accepted + Expected(ctx, state), dropped := pushed.dropped + Missed(ctx, state))
  }

  /** A caller-owned query's share of stage 5: its answers, then its terminal if it has one. */
  function ScannedOn(t: Tally, ctx: QueryCtx, query: QueryHandle, state: ProtoQuery): Tally {
    var read := ReadOn(t, ctx, query, state);
    if state.terminal.Some?
    then read.(items := Fifo.PushTerminal(read.items, QueryTerminal(query, state.terminal.value)))
    else read
  }

  /** The queries of `order`, one after the other. */
  function AllScannedOn(t: Tally, order: seq<QueryHandle>, queries: map<QueryHandle, QueryCtx>,
                        proto: map<QueryHandle, ProtoQuery>): Tally
    requires forall q :: q in order ==> q in queries && q in proto
  {
    if order == [] then t
    else
      var front, q := order[..|order| - 1], order[|order| - 1];
      ScannedOn(AllScannedOn(t, front, queries, proto), queries[q], q, proto[q])
  }

  /** Every accepted answer was popped, is queued, was coalesced, or is counted in `dropped`. */
  ghost predicate Balanced(t: Tally, received: seq<Item>, lookupLosses: nat) {
    t.accepted + lookupLosses == |Keys(received)| + |Keys(t.items)| + t.coalesced + t.dropped
  }

  ghost predicate Ordered(t: Tally, received: seq<Item>, ended: set<QueryHandle>) {
    TerminalsClose(received + t.items) && EndedIn(received + t.items, ended)
  }

  lemma PushKeeps(t: Tally, query: QueryHandle, answer: CollectedAnswer, received: seq<Item>, ended: set<QueryHandle>)
    requires Bounded(t.items) && Ordered(t, received, ended) && query !in ended
    ensures var after := PushedOn(t, query, answer);
      && Bounded(after.items) && Ordered(after, received, ended)
      && Terminals(after.items) == Terminals(t.items)
      && |Keys(after.items)| + after.coalesced + after.dropped == |Keys(t.items)| + t.coalesced + t.dropped + 1
  {
    PushAnswerKeys(t.items, KeyOf(query, answer), answer);
    ClosePushAnswer(received, t.items, KeyOf(query, answer), answer, ended);
  }

  /** Of the answers pushed each one is queued now, absorbed, or counted as evicting another. */
  lemma {:induction false} PushesKeep(t: Tally, query: QueryHandle, answers: seq<CollectedAnswer>,
                                      received: seq<Item>, ended: set<QueryHandle>)
    requires Bounded(t.items) && Ordered(t, received, ended) && query !in ended
    ensures var after := AllPushedOn(t, query, answers);
      && Bounded(after.items) && Ordered(after, received, ended)
      && Terminals(after.items) == Terminals(t.items) && after.accepted == t.accepted
      && |Keys(after.items)| + after.coalesced + after.dropped ==
           |Keys(t.items)| + t.coalesced + t.dropped + |answers|
  {
    if answers != [] {
      var n := |answers| - 1;
      PushesKeep(t, query, answers[..n], received, ended);
      PushKeeps(AllPushedOn(t, query, answers[..n]), query, answers[n], received, ended);
    }
  }

  lemma TerminalKeeps(t: Tally, query: QueryHandle, outcome: nat, received: seq<Item>, ended: set<QueryHandle>)
    requires Bounded(t.items) && Ordered(t, received, ended) && query !in ended
    ensures var after := t.(items := Fifo.PushTerminal(t.items, QueryTerminal(query, outcome)));
      && Bounded(after.items) && Ordered(after, received, ended + {query})
      && Keys(after.items) == Keys(t.items)
      && Terminals(after.items) == Terminals(t.items) + [QueryTerminal(query, outcome)]
  {
    var item := Terminal(QueryTerminal(query, outcome));
    CloseAppend(received + t.items, item, ended);
    KeysAppend(t.items, [item]);
    assert Keys([item]) == [] && Terminals([item]) == [item.event];
    assert Keys(t.items) + [] == Keys(t.items);
    Concat3(received, t.items, [item]);
  }

  function EndedAfter(ended: set<QueryHandle>, query: QueryHandle, state: ProtoQuery): set<QueryHandle> {
    if state.terminal.Some? then ended + {query} else ended
  }

  /** One scan keeps the books balanced and the terminals last, and queues exactly the terminal it was given. */
  lemma ScanKeeps(t: Tally, ctx: QueryCtx, query: QueryHandle, state: ProtoQuery, received: seq<Item>,
                  ended: set<QueryHandle>, lookupLosses: nat)
    requires Bounded(t.items) && Ordered(t, received, ended) && query !in ended
    requires Balanced(t, received, lookupLosses) && Window(state.slots, state.accepted)
    ensures var after := ScannedOn(t, ctx, query, state);
      && Bounded(after.items) && Ordered(after, received, EndedAfter(ended, query, state))
      && Balanced(after, received, lookupLosses)
      && after.accepted == t.accepted + Expected(ctx, state)
      && after.dropped >= t.dropped + Missed(ctx, state)
      && Terminals(after.items) == Terminals(t.items) +
           (if state.terminal.Some? then [QueryTerminal(query, state.terminal.value)] else [])
  {
    PushesKeep(t, query, News(ctx, state), received, ended);
    NewsAndMissed(ctx, state);
    PushesOnlyLose(t, query, News(ctx, state));
    var read := ReadOn(t, ctx, query, state);
    if state.terminal.Some? { TerminalKeeps(read, query, state.terminal.value, received, ended); }
  }

  lemma {:induction false} PushesOnlyLose(t: Tally, query: QueryHandle, answers: seq<CollectedAnswer>)
    ensures AllPushedOn(t, query, answers).dropped >= t.dropped
  {
    if answers != [] { PushesOnlyLose(t, query, answers[..|answers| - 1]); }
  }

  // ----- What a scan delivers -----

  /** The last of these answers under `key`. */
  function LastOf(query: QueryHandle, answers: seq<CollectedAnswer>, key: AnswerKey): (last: Option<CollectedAnswer>)
    ensures last.Some? ==> last.value in answers && KeyOf(query, last.value) == key
    ensures last == None ==> forall a :: a in answers ==> KeyOf(query, a) != key
  {
    if answers == [] then None
    else if KeyOf(query, answers[|answers| - 1]) == key then Some(answers[|answers| - 1])
    else LastOf(query, answers[..|answers| - 1], key)
  }

  /** Of several pushes under an identity the last is the payload queued; nothing else queued has changed. */
  lemma {:induction false} PushesDeliver(t: Tally, query: QueryHandle, answers: seq<CollectedAnswer>, item: Item)
    requires Bounded(t.items) && item in AllPushedOn(t, query, answers).items && item.Answer?
    ensures
      if LastOf(query, answers, item.key).Some? then Some(item.answer) == LastOf(query, answers, item.key)
      else item in t.items
  {
    if answers != [] {
      var n := |answers| - 1;
      PushesBounded(t, query, answers[..n]);
      PushedItems(AllPushedOn(t, query, answers[..n]).items, KeyOf(query, answers[n]), answers[n], item);
      if item.key != KeyOf(query, answers[n]) { PushesDeliver(t, query, answers[..n], item); }
    }
  }

  lemma {:induction false} PushesBounded(t: Tally, query: QueryHandle, answers: seq<CollectedAnswer>)
    requires Bounded(t.items)
    ensures Bounded(AllPushedOn(t, query, answers).items)
  {
    if answers != [] {
      var n := |answers| - 1;
      PushesBounded(t, query, answers[..n]);
      PushAnswerKeys(AllPushedOn(t, query, answers[..n]).items, KeyOf(query, answers[n]), answers[n]);
    }
  }

  /** With nothing evicted on the way every identity queued before, or pushed, is queued. */
  lemma {:induction false} PushesAllQueued(t: Tally, query: QueryHandle, answers: seq<CollectedAnswer>, key: AnswerKey)
    requires Bounded(t.items) && AllPushedOn(t, query, answers).dropped == t.dropped
    requires key in Keys(t.items) || exists j :: 0 <= j < |answers| && KeyOf(query, answers[j]) == key
    ensures key in Keys(AllPushedOn(t, query, answers).items)
  {
    if answers != [] {
      var n := |answers| - 1;
      var before := AllPushedOn(t, query, answers[..n]);
      PushesBounded(t, query, answers[..n]);
      PushesOnlyLose(t, query, answers[..n]);
      PushAnswerKeys(before.items, KeyOf(query, answers[n]), answers[n]);
      if key != KeyOf(query, answers[n]) {
        if key !in Keys(t.items) {
          var j :| 0 <= j < |answers| && KeyOf(query, answers[j]) == key;
          assert answers[..n][j] == answers[j];
        }
        PushesAllQueued(t, query, answers[..n], key);
      }
    }
  }

  /**
   After a scan an answer its pool held unread is queued under its identity, unless an eviction was counted on the way;
   and whatever is queued was queued before, or is an answer the pool held unread, as it was held.
   */
  lemma ScanDelivers(t: Tally, ctx: QueryCtx, query: QueryHandle, state: ProtoQuery, answer: CollectedAnswer, item: Item)
    requires Bounded(t.items) && Window(state.slots, state.accepted)
    ensures var after := ScannedOn(t, ctx, query, state);
      && (Some(answer) in state.slots && ctx.lastSeq <= answer.seqNo < state.accepted ==>
            || AnswerKey(query, answer.rtype, answer.rclass, answer.rdataKey) in Keys(after.items)
            || after.dropped > t.dropped + Missed(ctx, state))
      && (item in after.items && item.Answer? ==>
            || item in t.items
            || (Some(item.answer) in state.slots && ctx.lastSeq <= item.answer.seqNo < state.accepted &&
                item.key == AnswerKey(query, item.answer.rtype, item.answer.rclass, item.answer.rdataKey)))
  {
    var news, read := News(ctx, state), ReadOn(t, ctx, query, state);
    PushesOnlyLose(t, query, news);
    if state.terminal.Some? { TerminalsAddNoKey(read.items, QueryTerminal(query, state.terminal.value)); }
    if Some(answer) in state.slots && ctx.lastSeq <= answer.seqNo < state.accepted
       && read.dropped == t.dropped + Missed(ctx, state) {
      FreshAre(state.slots, ctx.lastSeq, answer);
      PushesAllQueued(t, query, news, KeyOf(query, answer));
    }
    if item in read.items && item.Answer? {
      PushesDeliver(t, query, news, item);
      if item !in t.items {
        FreshAre(state.slots, ctx.lastSeq, item.answer);
        RetainedIsAccepted(state.slots, state.accepted, item.answer);
      }
    }
  }

  lemma TerminalsAddNoKey(items: seq<Item>, event: Event)
    ensures Keys(Fifo.PushTerminal(items, event)) == Keys(items)
    ensures forall item :: item in Fifo.PushTerminal(items, event) && item.Answer? ==> item in items
  {
    KeysAppend(items, [Terminal(event)]);
    assert Keys([Terminal(event)]) == [];
    assert Keys(items) + [] == Keys(items);
  }

  lemma RetainedIsAccepted(slots: Slab, accepted: nat, answer: CollectedAnswer)
    requires Window(slots, accepted) && Some(answer) in slots
    ensures answer.seqNo < accepted
  {
    var i :| 0 <= i < |slots| && slots[i] == Some(answer);
    assert Holds(slots, answer.seqNo);
  }

  // ----- Totals over a whole stage -----

  function ExpectedIn(order: seq<QueryHandle>, queries: map<QueryHandle, QueryCtx>,
                      proto: map<QueryHandle, ProtoQuery>): nat
    requires forall q :: q in order ==> q in queries && q in proto
  {
    if order == [] then 0
    else
      var front, q := order[..|order| - 1], order[|order| - 1];
      ExpectedIn(front, queries, proto) + Expected(queries[q], proto[q])
  }

  function MissedIn(order: seq<QueryHandle>, queries: map<QueryHandle, QueryCtx>,
                    proto: map<QueryHandle, ProtoQuery>): nat
    requires forall q :: q in order ==> q in queries && q in proto
  {
    if order == [] then 0
    else
      var front, q := order[..|order| - 1], order[|order| - 1];
      MissedIn(front, queries, proto) + Missed(queries[q], proto[q])
  }

  function TerminalsIn(order: seq<QueryHandle>, proto: map<QueryHandle, ProtoQuery>): seq<Event>
    requires forall q :: q in order ==> q in proto
  {
    if order == [] then []
    else
      var front, q := order[..|order| - 1], order[|order| - 1];
      TerminalsIn(front, proto) +
      (if proto[q].terminal.Some? then [QueryTerminal(q, proto[q].terminal.value)] else [])
  }

  function EndedOver(ended: set<QueryHandle>, order: seq<QueryHandle>, proto: map<QueryHandle, ProtoQuery>): set<QueryHandle>
    requires forall q :: q in order ==> q in proto
  {
    if order == [] then ended
    else EndedAfter(EndedOver(ended, order[..|order| - 1], proto), order[|order| - 1], proto[order[|order| - 1]])
  }

  lemma {:induction false} EndedAre(ended: set<QueryHandle>, order: seq<QueryHandle>, proto: map<QueryHandle, ProtoQuery>,
                                    q: QueryHandle)
    requires forall q :: q in order ==> q in proto
    ensures q in EndedOver(ended, order, proto) <==> q in ended || (q in order && proto[q].terminal.Some?)
  {
    if order != [] {
      var n := |order| - 1;
      EndedAre(ended, order[..n], proto, q);
      assert order == order[..n] + [order[n]];
    }
  }

  /**
   A whole stage, whatever the order: the books balance, the terminals are last, every answer accepted since the
   last scans is accounted for, and the terminals queued are exactly those of the queries that finished.
   */
  lemma {:induction false} ScansKeep(t: Tally, order: seq<QueryHandle>, queries: map<QueryHandle, QueryCtx>,
                                     proto: map<QueryHandle, ProtoQuery>, received: seq<Item>,
                                     ended: set<QueryHandle>, lookupLosses: nat)
    requires forall q :: q in order ==> q in queries && q in proto && q !in ended
    requires NoRepeats(order) && AllWindows(proto)
    requires Bounded(t.items) && Ordered(t, received, ended) && Balanced(t, received, lookupLosses)
    ensures var after := AllScannedOn(t, order, queries, proto);
      && Bounded(after.items) && Ordered(after, received, EndedOver(ended, order, proto))
      && Balanced(after, received, lookupLosses)
      && after.accepted == t.accepted + ExpectedIn(order, queries, proto)
      && after.dropped >= t.dropped + MissedIn(order, queries, proto)
      && Terminals(after.items) == Terminals(t.items) + TerminalsIn(order, proto)
  {
    if order != [] {
      var n := |order| - 1;
      var front, q := order[..n], order[n];
      assert q !in front && NoRepeats(front) by {
        assert order == front + [q];
        NoRepeatsParts(front, [q]);
      }
      ScansKeep(t, front, queries, proto, received, ended, lookupLosses);
      EndedAre(ended, front, proto, q);
      ScanKeeps(AllScannedOn(t, front, queries, proto), queries[q], q, proto[q], received,
                EndedOver(ended, front, proto), lookupLosses);
      Concat3(Terminals(t.items), TerminalsIn(front, proto),
              if proto[q].terminal.Some? then [QueryTerminal(q, proto[q].terminal.value)] else []);
    }
  }

  // ----- The driver -----

  predicate Finishes(ctx: QueryCtx, proto: map<QueryHandle, ProtoQuery>, q: QueryHandle) {
    ctx.owner == None && q in proto && proto[q].terminal.Some?
  }

  function AfterScan(ctx: QueryCtx, proto: map<QueryHandle, ProtoQuery>, q: QueryHandle): QueryCtx {
    if ctx.owner.Some? || q !in proto then ctx else Scanned(ctx, proto[q])
  }

  /** The queries a stage scans, once each, in some order: those of the caller's own the proto layer still knows. */
  ghost predicate ScanOrder(order: seq<QueryHandle>, queries: map<QueryHandle, QueryCtx>,
                            proto: map<QueryHandle, ProtoQuery>)
  {
    NoRepeats(order) && forall q :: q in order <==> q in queries && queries[q].owner == None && q in proto
  }

  /** The cursors once the queries of `order` have been scanned. */
  function CursorsAfter(queries: map<QueryHandle, QueryCtx>, order: seq<QueryHandle>,
                        proto: map<QueryHandle, ProtoQuery>): map<QueryHandle, QueryCtx>
    requires forall q :: q in order ==> q in queries && q in proto
  {
    if order == [] then queries
    else
      var front, q := order[..|order| - 1], order[|order| - 1];
      CursorsAfter(queries, front, proto)[q := Scanned(queries[q], proto[q])]
  }

  lemma {:induction false} CursorsAre(queries: map<QueryHandle, QueryCtx>, order: seq<QueryHandle>,
                                      proto: map<QueryHandle, ProtoQuery>, k: QueryHandle)
    requires forall q :: q in order ==> q in queries && q in proto
    ensures k in CursorsAfter(queries, order, proto) <==> k in queries
    ensures k in queries ==>
      CursorsAfter(queries, order, proto)[k] == if k in order then Scanned(queries[k], proto[k]) else queries[k]
  {
    if order != [] {
      var n := |order| - 1;
      CursorsAre(queries, order[..n], proto, k);
      assert order == order[..n] + [order[n]];
    }
  }

  class Pump {
    const events: EventQueue
    var queries: map<QueryHandle, QueryCtx>
    var nextHandle: QueryHandle
    /** Every item the caller has popped, in order. */
    ghost var received: seq<Item>
    /** Queries whose terminal has been queued. */
    ghost var ended: set<QueryHandle>
    /** Answers the scans accounted for, pushes a queued copy absorbed, lookups' losses, and losses no one counts. */
    ghost var accepted: nat
    ghost var coalesced: nat
    ghost var lookupLosses: nat
    ghost var uncounted: nat

    ghost function Books(): Tally
      reads this, events
    {
      Tally(events.Contents(), accepted, coalesced, events.dropped)
    }

    ghost predicate Valid()
      reads this, events
    {
      && events.Valid()
      && Balanced(Books(), received, lookupLosses) && Ordered(Books(), received, ended)
      && queries.Keys !! ended
      && (forall q :: q in queries || q in ended ==> q < nextHandle)
    }

    constructor ()
      ensures Valid() && fresh(events) && events.Contents() == [] && uncounted == 0
    {
      events := new EventQueue();
      queries, nextHandle := map[], 0;
      received, ended, accepted, coalesced, lookupLosses, uncounted := [], {}, 0, 0, 0, 0;
    }

    /** A query starts under a handle never used before, with nothing scanned. */
    method Register(owner: Option<LookupHandle>) returns (query: QueryHandle)
      requires Valid()
      modifies this`queries, this`nextHandle
      ensures Valid() && query == old(nextHandle)
      ensures query !in old(queries) && queries == old(queries)[query := QueryCtx(0, owner)]
    {
      query := nextHandle;
      queries := queries[query := QueryCtx(0, owner)];
      nextHandle := nextHandle + 1;
    }

    method PushOne(query: QueryHandle, answer: CollectedAnswer)
      requires events.Valid()
      modifies events, this`coalesced
      ensures events.Valid() && Books() == PushedOn(old(Books()), query, answer)
    {
      ghost var items, key := events.Contents(), KeyOf(query, answer);
      events.PushAnswer(query, answer);
      if Coalesces(items, key) { coalesced := coalesced + 1; }
    }

    /** Queues every retained answer from `last` on, in slab order. */
    method PushAnswers(query: QueryHandle, slots: Slab, last: nat) returns (delivered: nat)
      requires events.Valid()
      modifies events, this`coalesced
      ensures events.Valid() && Books() == AllPushedOn(old(Books()), query, FreshAnswers(slots, last))
      ensures delivered == |FreshAnswers(slots, last)|
    {
      delivered := 0;
      for i := 0 to |slots|
        invariant events.Valid()
        invariant Books() == AllPushedOn(old(Books()), query, FreshAnswers(slots[..i], last))
        invariant delivered == |FreshAnswers(slots[..i], last)|
      {
        assert slots[..i + 1] == slots[..i] + [slots[i]];
        FreshAppend(slots[..i], slots[i], last);
        ghost var sent := FreshAnswers(slots[..i], last);
        assert sent + [] == sent;
        if slots[i].Some? && slots[i].value.seqNo >= last {
          assert (sent + [slots[i].value])[..|sent|] == sent;
          PushOne(query, slots[i].value);
          delivered := delivered + 1;
        }
      }
      assert slots[..|slots|] == slots;
    }

    /** Queues what a scan finds and counts what it came too late for. */
    method ScanAnswers(query: QueryHandle, state: ProtoQuery)
      requires events.Valid() && query in queries && Window(state.slots, state.accepted)
      modifies events, this`queries, this`accepted, this`coalesced
      ensures events.Valid() && Books() == ReadOn(old(Books()), old(queries)[query], query, state)
      ensures queries == old(queries)[query := Scanned(old(queries)[query], state)]
    {
      var ctx := queries[query];
      NewsAndMissed(ctx, state);
      if state.accepted > ctx.lastSeq {
        var expected := state.accepted - ctx.lastSeq;
        var delivered := PushAnswers(query, state.slots, ctx.lastSeq);
        queries := queries[query := ctx.(lastSeq := state.accepted)];
        events.RecordDropped(expected - delivered);
        accepted := accepted + expected;
      }
    }

    /** One caller-owned query's share of stage 5: its answers first, then its terminal if it has one. */
    method Scan(query: QueryHandle, state: ProtoQuery) returns (done: bool)
      requires events.Valid() && query in queries && Window(state.slots, state.accepted)
      modifies events, this`queries, this`ended, this`accepted, this`coalesced
      ensures events.Valid() && Books() == ScannedOn(old(Books()), old(queries)[query], query, state)
      ensures queries == old(queries)[query := Scanned(old(queries)[query], state)]
      ensures done == state.terminal.Some? && ended == EndedAfter(old(ended), query, state)
    {
      ScanAnswers(query, state);
      done := state.terminal.Some?;
      if done {
        events.PushTerminal(QueryTerminal(query, state.terminal.value));
        ended := ended + {query};
      }
    }

    /** Stage 5 for queries: scan every one no lookup owns, in whatever order the map yields them. */
    method PushUpdates(proto: map<QueryHandle, ProtoQuery>) returns (ghost order: seq<QueryHandle>)
      requires Valid() && AllWindows(proto)
      modifies events, this`queries, this`ended, this`accepted, this`coalesced
      ensures Valid() && ScanOrder(order, old(queries), proto)
      ensures Books() == AllScannedOn(old(Books()), order, old(queries), proto)
      ensures accepted == old(accepted) + ExpectedIn(order, old(queries), proto)
      ensures events.dropped >= old(events.dropped) + MissedIn(order, old(queries), proto)
      ensures Terminals(events.Contents()) == old(Terminals(events.Contents())) + TerminalsIn(order, proto)
      ensures forall q :: q in queries <==>
        q in old(queries) && !(old(queries)[q].owner == None && q in proto && proto[q].terminal.Some?)
      ensures forall q :: q in queries ==>
        && queries[q].owner == old(queries)[q].owner
        && queries[q].lastSeq ==
             if queries[q].owner == None && q in proto then Max(old(queries)[q].lastSeq, proto[q].accepted)
             else old(queries)[q].lastSeq
      ensures forall q :: q in ended <==>
        q in old(ended) || (q in old(queries) && old(queries)[q].owner == None && q in proto && proto[q].terminal.Some?)
    {
      var retired;
      retired, order := ScanAll(proto);
      ScansKeep(old(Books()), order, old(queries), proto, received, old(ended), lookupLosses);
      forall q
        ensures q in ended <==> q in old(ended) || (q in old(queries) && Finishes(old(queries)[q], proto, q))
      {
        EndedAre(old(ended), order, proto, q);
      }
      forall q
        ensures q in queries <==> q in old(queries)
        ensures q in queries ==> queries[q] == AfterScan(old(queries)[q], proto, q)
      {
        CursorsAre(old(queries), order, proto, q);
      }
      queries := queries - retired;
    }

    /** The scans themselves. The queries that finish are removed only once the walk is over. */
    method ScanAll(proto: map<QueryHandle, ProtoQuery>)
        returns (retired: set<QueryHandle>, ghost order: seq<QueryHandle>)
      requires events.Valid() && AllWindows(proto)
      modifies events, this`queries, this`ended, this`accepted, this`coalesced
      ensures events.Valid() && ScanOrder(order, old(queries), proto)
      ensures Books() == AllScannedOn(old(Books()), order, old(queries), proto)
      ensures ended == EndedOver(old(ended), order, proto)
      ensures queries == CursorsAfter(old(queries), order, proto)
      ensures ended == old(ended) + retired
    {
      order, retired := [], {};
      var todo := queries.Keys;
      while todo != {}
        invariant events.Valid() && todo <= old(queries).Keys
        invariant NoRepeats(order)
        invariant forall q :: q in order <==>
          q in old(queries) && q !in todo && old(queries)[q].owner == None && q in proto
        invariant Books() == AllScannedOn(old(Books()), order, old(queries), proto)
        invariant ended == EndedOver(old(ended), order, proto)
        invariant ended == old(ended) + retired
        invariant queries == CursorsAfter(old(queries), order, proto)
        decreases todo
      {
        var q :| q in todo;
        todo := todo - {q};
        CursorsAre(old(queries), order, proto, q);
        if queries[q].owner == None && q in proto {
          assert (order + [q])[..|order|] == order;
          NoRepeatsSnoc(order, q);
          var done := Scan(q, proto[q]);
          if done { retired := retired + {q}; }
          order := order + [q];
        }
      }
    }

    /** A lookup's own sub-query lost answers to its pool; they are counted in the same place. */
    method RecordLookupLoss(n: nat)
      requires Valid()
      modifies events, this`lookupLosses
      ensures Valid() && events.Contents() == old(events.Contents())
      ensures events.dropped == old(events.dropped) + n
    {
      events.RecordDropped(n);
      lookupLosses := lookupLosses + n;
    }

    /** Any event of the other kinds: service updates and lookup results. */
    method PushOther(event: Event)
      requires Valid() && !event.QueryAnswer? && !event.QueryTerminal?
      modifies events
      ensures Valid()
      ensures events.Contents() == old(events.Contents()) + [Terminal(event)]
    {
      ghost var items := events.Contents();
      CloseAppend(received + items, Terminal(event), ended);
      KeysAppend(items, [Terminal(event)]);
      assert Keys([Terminal(event)]) == [];
      events.PushTerminal(event);
      Concat3(received, items, [Terminal(event)]);
    }

    method NextEvent() returns (event: Option<Event>)
      requires Valid()
      modifies events, this`received
      ensures Valid()
      ensures event == None <==> old(events.Contents()) == []
      ensures event == None ==> received == old(received) && events.Contents() == []
      ensures event.Some? ==>
        && event.value == old(events.Contents())[0].ToEvent()
        && received == old(received) + [old(events.Contents())[0]]
        && received + events.Contents() == old(received + events.Contents())
    {
      ghost var items := events.Contents();
      event := events.Pop();
      if event.Some? {
        PopMovesHead(received, items);
        received := received + [items[0]];
      }
    }

    /**
     A query that can never transmit: its terminal surfaces unless a lookup owns it, and it is gone. What its pool
     had accepted since the last scan goes with it: exactly then, and exactly that many answers, are lost with no
     counter moving.
     */
    method Retire(query: QueryHandle, state: ProtoQuery) returns (ghost lost: nat)
      requires Valid() && query in queries
      modifies events, this`queries, this`ended, this`uncounted
      ensures Valid() && queries == old(queries) - {query}
      ensures Terminals(events.Contents()) == old(Terminals(events.Contents())) +
        (if old(queries)[query].owner == None && state.terminal.Some?
         then [QueryTerminal(query, state.terminal.value)] else [])
      ensures Keys(events.Contents()) == old(Keys(events.Contents())) && events.dropped == old(events.dropped)
      ensures lost == Expected(old(queries)[query], state) && uncounted == old(uncounted) + lost
      ensures lost > 0 <==> state.accepted > old(queries)[query].lastSeq
    {
      lost := Expected(queries[query], state);
      uncounted := uncounted + lost;
      if queries[query].owner == None && state.terminal.Some? {
        TerminalKeeps(Books(), query, state.terminal.value, received, ended);
        events.PushTerminal(QueryTerminal(query, state.terminal.value));
        ended := ended + {query};
      }
      queries := queries - {query};
    }

    /** The end of stage 6: reclaim stale slots once there are enough of them to matter. */
    method CompactEvents()
      requires Valid()
      modifies events
      ensures Valid() && events.Contents() == old(events.Contents())
      ensures |events.queue| <= EVENT_QUEUE_COMPACT_THRESHOLD
        || |events.queue| <= ANSWER_CAPACITY + |Terminals(events.Contents())|
    {
      if |events.queue| > EVENT_QUEUE_COMPACT_THRESHOLD {
        events.Compact();
      }
    }
  }
}
