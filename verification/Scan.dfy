/** Reading a query's pool from the cursor on: what a scan finds, and what it comes too late for. */
module Scans {
  import opened Answers
  import opened AnswerPools

  /** What the proto layer reports of one query. */
  datatype ProtoQuery = ProtoQuery(slots: Slab, accepted: nat, terminal: Option<nat>)

  /** The pools as the proto layer leaves them: each holds the newest of what it accepted. */
  ghost predicate AllWindows(proto: map<QueryHandle, ProtoQuery>) {
    forall q :: q in proto ==> Window(proto[q].slots, proto[q].accepted)
  }

  /** The retained answers that carry a sequence number at or above `last`, in slab order. */
  function FreshAnswers(slots: Slab, last: nat): seq<CollectedAnswer> {
    if slots == [] then []
    else if slots[0].Some? && slots[0].value.seqNo >= last
    then [slots[0].value] + FreshAnswers(slots[1..], last)
    else FreshAnswers(slots[1..], last)
  }

  lemma {:induction false} FreshAppend(slots: Slab, x: Option<CollectedAnswer>, last: nat)
    ensures FreshAnswers(slots + [x], last) ==
      FreshAnswers(slots, last) + (if x.Some? && x.value.seqNo >= last then [x.value] else [])
  {
    if slots != [] {
      assert (slots + [x])[1..] == slots[1..] + [x];
      FreshAppend(slots[1..], x, last);
    }
  }

  /** What a reading finds: the retained answers at or above the cursor, and no others. */
  lemma {:induction false} FreshAre(slots: Slab, last: nat, answer: CollectedAnswer)
    ensures answer in FreshAnswers(slots, last) <==> Some(answer) in slots && answer.seqNo >= last
  {
    if slots != [] {
      FreshAre(slots[1..], last, answer);
      assert slots == [slots[0]] + slots[1..];
    }
  }

  lemma DistinctTail(slots: Slab)
    requires DistinctSeqs(slots) && slots != []
    ensures DistinctSeqs(slots[1..])
    ensures forall s: nat :: Holds(slots, s) <==>
      (slots[0].Some? && slots[0].value.seqNo == s) || Holds(slots[1..], s)
    ensures slots[0].Some? ==> !Holds(slots[1..], slots[0].value.seqNo)
  {
    var rest := slots[1..];
    assert forall i :: 0 <= i < |rest| ==> rest[i] == slots[i + 1];
    forall s: nat
      ensures Holds(slots, s) <==> (slots[0].Some? && slots[0].value.seqNo == s) || Holds(rest, s)
    {
      if Holds(slots, s) {
        var i :| 0 <= i < |slots| && slots[i].Some? && slots[i].value.seqNo == s;
        if i > 0 { assert rest[i - 1] == slots[i]; }
      }
    }
  }

  lemma {:induction false} FreshPeels(slots: Slab, last: nat)
    requires DistinctSeqs(slots)
    ensures |FreshAnswers(slots, last)| == |FreshAnswers(slots, last + 1)| + (if Holds(slots, last) then 1 else 0)
  {
    if slots != [] {
      DistinctTail(slots);
      FreshPeels(slots[1..], last);
    }
  }

  lemma {:induction false} FreshNone(slots: Slab, last: nat)
    requires forall i :: 0 <= i < |slots| && slots[i].Some? ==> slots[i].value.seqNo < last
    ensures |FreshAnswers(slots, last)| == 0
  {
    if slots != [] { FreshNone(slots[1..], last); }
  }

  /** A scan finds every accepted answer since `last` that the window still reaches back to. */
  lemma {:induction false} FreshCount(slots: Slab, accepted: nat, last: nat)
    requires Window(slots, accepted) && last <= accepted
    ensures |FreshAnswers(slots, last)| == if accepted - last <= Occupied(slots) then accepted - last else Occupied(slots)
    decreases accepted - last
  {
    if last == accepted {
      forall i | 0 <= i < |slots| && slots[i].Some?
        ensures slots[i].value.seqNo < last
      {
        assert Holds(slots, slots[i].value.seqNo);
      }
      FreshNone(slots, last);
    } else {
      FreshCount(slots, accepted, last + 1);
      FreshPeels(slots, last);
    }
  }

  /** The cursor after a scan: everything accepted so far has been dealt with. */
  function Scanned(ctx: QueryCtx, state: ProtoQuery): QueryCtx {
    if state.accepted > ctx.lastSeq then ctx.(lastSeq := state.accepted) else ctx
  }

  /** What a scan has to read. */
  function News(ctx: QueryCtx, state: ProtoQuery): seq<CollectedAnswer> {
    if state.accepted > ctx.lastSeq then FreshAnswers(state.slots, ctx.lastSeq) else []
  }

  /** How many answers were accepted since the last scan. */
  function Expected(ctx: QueryCtx, state: ProtoQuery): nat {
    if state.accepted > ctx.lastSeq then state.accepted - ctx.lastSeq else 0
  }

  /** How many of them the pool had evicted before the scan could see them. */
  function Missed(ctx: QueryCtx, state: ProtoQuery): nat {
    if Expected(ctx, state) > Occupied(state.slots) then Expected(ctx, state) - Occupied(state.slots) else 0
  }

  /** What the scan reads and what it counts as missed are together exactly what was accepted since the last one. */
  lemma NewsAndMissed(ctx: QueryCtx, state: ProtoQuery)
    requires Window(state.slots, state.accepted)
    ensures |News(ctx, state)| + Missed(ctx, state) == Expected(ctx, state)
  {
    if state.accepted > ctx.lastSeq { FreshCount(state.slots, state.accepted, ctx.lastSeq); }
  }

  // ----- The whole life of a query -----

  /** The cursor after a query's scans, given how its pool stood at each. */
  function CursorAfter(ctx: QueryCtx, states: seq<ProtoQuery>): QueryCtx {
    if states == [] then ctx else Scanned(CursorAfter(ctx, states[..|states| - 1]), states[|states| - 1])
  }

  function ReadOver(ctx: QueryCtx, states: seq<ProtoQuery>): nat {
    if states == [] then 0
    else
      var front := states[..|states| - 1];
      ReadOver(ctx, front) + |News(CursorAfter(ctx, front), states[|states| - 1])|
  }

  function MissedOver(ctx: QueryCtx, states: seq<ProtoQuery>): nat {
    if states == [] then 0
    else
      var front := states[..|states| - 1];
      MissedOver(ctx, front) + Missed(CursorAfter(ctx, front), states[|states| - 1])
  }

  lemma {:induction false} ScansReachCursor(ctx: QueryCtx, states: seq<ProtoQuery>)
    requires forall i :: 0 <= i < |states| ==> Window(states[i].slots, states[i].accepted)
    ensures ctx.lastSeq + ReadOver(ctx, states) + MissedOver(ctx, states) == CursorAfter(ctx, states).lastSeq
    ensures CursorAfter(ctx, states).owner == ctx.owner
    ensures CursorAfter(ctx, states).lastSeq > ctx.lastSeq ==>
      exists i :: 0 <= i < |states| && states[i].accepted == CursorAfter(ctx, states).lastSeq
  {
    if states != [] {
      var n := |states| - 1;
      ScansReachCursor(ctx, states[..n]);
      NewsAndMissed(CursorAfter(ctx, states[..n]), states[n]);
    }
  }

  /**
   However a query ends, and whoever ends it, the answers its pool had accepted by then are those the scans read, those
   they counted as missed, and those accepted since the last scan, which nothing counts. So each answer was read or
   counted exactly when nothing was accepted since.
   */
  lemma CountedIffScannedLast(ctx: QueryCtx, states: seq<ProtoQuery>, last: ProtoQuery)
    requires ctx.lastSeq == 0
    requires forall i :: 0 <= i < |states| ==>
      Window(states[i].slots, states[i].accepted) && states[i].accepted <= last.accepted
    ensures var end := CursorAfter(ctx, states);
      && ReadOver(ctx, states) + MissedOver(ctx, states) + Expected(end, last) == last.accepted
      && (ReadOver(ctx, states) + MissedOver(ctx, states) == last.accepted <==> last.accepted <= end.lastSeq)
  {
    ScansReachCursor(ctx, states);
  }

  /** One answer accepted, no scan before the query is ended: it is neither read nor counted. */
  lemma OneAnswerUncounted(answer: CollectedAnswer)
    requires answer.seqNo == 0
    ensures var last := ProtoQuery([Some(answer)], 1, None);
      && Window(last.slots, last.accepted)
      && ReadOver(QueryCtx(0, None), []) + MissedOver(QueryCtx(0, None), []) == 0
      && Expected(CursorAfter(QueryCtx(0, None), []), last) == 1
  {
    var slots := [Some(answer)];
    assert slots[0].Some?;
    assert Occupied(slots[1..]) == 0;
    assert Holds(slots, 0);
  }
}
