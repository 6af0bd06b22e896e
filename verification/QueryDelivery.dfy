/**
 In-order delivery from a reordering pool (hick-compio/src/query.rs).

 `Query.Next` hands out the retained answer with the least sequence number it has not handed out yet.
 `Reader` is the same discipline seen from outside: two counters describe the pool, one the reader, and
 the whole history is the list of sequence numbers delivered. The class is proved to follow it, and what
 the reader is promised over a whole run is proved about it.
 */
module QueryDelivery {
  import opened Answers
  import opened AnswerPools

  datatype QueryEvent = AnswerEvent(answer: CollectedAnswer) | TerminalEvent(outcome: nat)

  /** What one pass of the waiting loop ends in; `Parked` is the await, after which the loop tries again. */
  datatype Polled = Surfaced(event: QueryEvent) | EndOfStream | Parked

  // ----- The reader's discipline -----

  datatype Reader = Reader(accepted: nat, retained: nat, lastSeq: nat, delivered: seq<nat>)

  ghost predicate WellFormed(r: Reader) {
    && r.retained <= r.accepted
    && r.lastSeq <= r.accepted
    && (forall i, j :: 0 <= i < j < |r.delivered| ==> r.delivered[i] < r.delivered[j])
    && (forall i :: 0 <= i < |r.delivered| ==> r.delivered[i] < r.lastSeq)
  }

  function OldestRetained(r: Reader): int {
    r.accepted - r.retained
  }

  /** The sequence number the next answer carries, when there is one. */
  function Due(r: Reader): int {
    if r.lastSeq < OldestRetained(r) then OldestRetained(r) else r.lastSeq
  }

  function Deliver(r: Reader): Reader
    requires WellFormed(r)
  {
    if Due(r) < r.accepted
    then r.(lastSeq := Due(r) + 1, delivered := r.delivered + [Due(r)])
    else r
  }

  /** One more answer accepted; with `evict`, the oldest retained one gives way. */
  function Accept(r: Reader, evict: bool): Reader {
    r.(accepted := r.accepted + 1, retained := if evict then r.retained else r.retained + 1)
  }

  /** An accepted answer no longer in the pool that the reader was never given. */
  ghost predicate Lost(r: Reader, s: nat) {
    s < OldestRetained(r) && s !in r.delivered
  }

  ghost predicate Pending(r: Reader, s: nat) {
    OldestRetained(r) <= s < r.accepted && s >= r.lastSeq
  }

  /** Nothing still retained has been skipped. */
  ghost predicate GapFree(r: Reader) {
    forall s: nat :: OldestRetained(r) <= s < r.lastSeq ==> s in r.delivered
  }

  datatype Op = OpAccept(evict: bool) | OpDeliver

  ghost predicate Possible(r: Reader, op: Op) {
    op == OpAccept(true) ==> r.retained > 0
  }

  function Step(r: Reader, op: Op): Reader
    requires WellFormed(r)
  {
    match op
    case OpAccept(evict) => Accept(r, evict)
    case OpDeliver => Deliver(r)
  }

  ghost predicate IsRun(run: seq<Reader>, ops: seq<Op>) {
    && |run| == |ops| + 1
    && run[0] == Reader(0, 0, 0, [])
    && forall i :: 0 <= i < |ops| ==>
        WellFormed(run[i]) && Possible(run[i], ops[i]) && run[i + 1] == Step(run[i], ops[i])
  }

  lemma StepIsGapFree(r: Reader, op: Op)
    requires WellFormed(r) && GapFree(r) && Possible(r, op)
    ensures WellFormed(Step(r, op)) && GapFree(Step(r, op))
    ensures forall s: nat :: Lost(r, s) ==> Lost(Step(r, op), s)
  {
    var after := Step(r, op);
    if op.OpDeliver? && Due(r) < r.accepted {
      forall s: nat | OldestRetained(after) <= s < after.lastSeq
        ensures s in after.delivered
      {
        if s == Due(r) {
          assert after.delivered[|r.delivered|] == s;
        } else {
          assert s in r.delivered;
        }
      }
      forall s: nat | Lost(r, s)
        ensures Lost(after, s)
      {
        assert s != Due(r);
      }
    }
  }

  /**
   Over every run: deliveries are strictly increasing, and every accepted answer is in exactly one of three
   places: delivered, still retained ahead of the reader, or evicted before its turn. None is skipped while
   the pool still holds it.
   */
  lemma {:induction false} EveryAnswerAccountedFor(run: seq<Reader>, ops: seq<Op>, s: nat)
    requires IsRun(run, ops)
    requires s < run[|ops|].accepted
    ensures var r := run[|ops|];
      && WellFormed(r) && GapFree(r)
      && (s in r.delivered || Pending(r, s) || Lost(r, s))
      && !(s in r.delivered && Pending(r, s)) && !(Pending(r, s) && Lost(r, s))
  {
    RunIsGapFree(run, ops);
  }

  lemma {:induction false} RunIsGapFree(run: seq<Reader>, ops: seq<Op>)
    requires IsRun(run, ops)
    ensures WellFormed(run[|ops|]) && GapFree(run[|ops|])
    decreases |ops|
  {
    if ops != [] {
      var n := |ops| - 1;
      var front, frontOps := run[..n + 1], ops[..n];
      assert IsRun(front, frontOps);
      RunIsGapFree(front, frontOps);
      StepIsGapFree(run[n], ops[n]);
    }
  }

  function UpTo(n: nat): seq<nat> {
    if n == 0 then [] else UpTo(n - 1) + [n - 1]
  }

  /** Every answer so far was delivered, in order. */
  ghost predicate UpToDate(r: Reader) {
    WellFormed(r) && OldestRetained(r) <= r.lastSeq && r.delivered == UpTo(r.lastSeq)
  }

  /** A reader that is never a whole pool behind loses nothing: it is given 0, 1, 2, ... without a gap. */
  lemma {:induction false} KeepingUpLosesNothing(run: seq<Reader>, ops: seq<Op>)
    requires IsRun(run, ops)
    requires forall i :: 0 <= i < |ops| && ops[i] == OpAccept(true) ==> OldestRetained(run[i]) < run[i].lastSeq
    ensures UpToDate(run[|ops|])
    decreases |ops|
  {
    if ops != [] {
      var n := |ops| - 1;
      var front, frontOps := run[..n + 1], ops[..n];
      assert IsRun(front, frontOps);
      assert forall i :: 0 <= i < n ==> frontOps[i] == ops[i] && front[i] == run[i];
      KeepingUpLosesNothing(front, frontOps);
      StepKeepsUpToDate(run[n], ops[n]);
    }
  }

  lemma StepKeepsUpToDate(r: Reader, op: Op)
    requires UpToDate(r) && Possible(r, op)
    requires op == OpAccept(true) ==> OldestRetained(r) < r.lastSeq
    ensures UpToDate(Step(r, op))
  {
    if op.OpDeliver? { assert Due(r) == r.lastSeq; }
  }

  // ----- The handle -----

  /** The answer with the least sequence number at or above `last`. */
  function NextAnswerBySeq(slots: Slab, last: nat): (a: Option<CollectedAnswer>)
    ensures a == None <==> forall i :: 0 <= i < |slots| && slots[i].Some? ==> slots[i].value.seqNo < last
    ensures a.Some? ==> a in slots && a.value.seqNo >= last
    ensures a.Some? ==> forall i :: 0 <= i < |slots| && slots[i].Some? && slots[i].value.seqNo >= last ==>
      a.value.seqNo <= slots[i].value.seqNo
  {
    if slots == [] then None
    else
      var rest := NextAnswerBySeq(slots[1..], last);
      assert forall i :: 1 <= i < |slots| ==> slots[i] == slots[1..][i - 1];
      if slots[0].Some? && slots[0].value.seqNo >= last
         && (rest == None || slots[0].value.seqNo <= rest.value.seqNo)
      then slots[0] else rest
  }

  /** On a window, the least undelivered answer is the reader's due one, and there is none only when none is due. */
  lemma NextIsDue(slots: Slab, accepted: nat, last: nat)
    requires Window(slots, accepted) && last <= accepted
    ensures var r := Reader(accepted, Occupied(slots), last, []);
      && (NextAnswerBySeq(slots, last).Some? <==> Due(r) < accepted)
      && (NextAnswerBySeq(slots, last).Some? ==> NextAnswerBySeq(slots, last).value.seqNo == Due(r))
  {
    var r := Reader(accepted, Occupied(slots), last, []);
    var a := NextAnswerBySeq(slots, last);
    if Due(r) < accepted {
      assert Holds(slots, Due(r));
    }
    if a.Some? {
      var i :| 0 <= i < |slots| && slots[i] == a;
      assert Holds(slots, a.value.seqNo);
    }
  }

  lemma DeliverNext(slots: Slab, accepted: nat, last: nat, surfaced: seq<QueryEvent>)
    requires Window(slots, accepted)
    requires var r := Reader(accepted, Occupied(slots), last, Seqs(surfaced)); WellFormed(r) && GapFree(r)
    ensures var r := Reader(accepted, Occupied(slots), last, Seqs(surfaced));
      var a := NextAnswerBySeq(slots, last);
      && WellFormed(Deliver(r)) && GapFree(Deliver(r))
      && (a.Some? <==> Due(r) < accepted)
      && (a.None? ==> Deliver(r) == r)
      && (a.Some? ==> a in slots && a.value.seqNo == Due(r))
      && (a.Some? ==>
          var after := Seqs(surfaced + [AnswerEvent(a.value)]);
          Deliver(r) == Reader(accepted, Occupied(slots), a.value.seqNo + 1, after))
  {
    var r := Reader(accepted, Occupied(slots), last, Seqs(surfaced));
    var a := NextAnswerBySeq(slots, last);
    NextIsDue(slots, accepted, last);
    StepIsGapFree(r, OpDeliver);
    if a.Some? { SeqsAppend(surfaced, AnswerEvent(a.value)); }
  }

  class Query {
    const pool: AnswerPool
    /** The driver's entry for this query; the four fields below are its contents. */
    var registered: bool
    var lastSeq: nat
    var cancelled: bool
    var errored: bool
    var terminalDelivered: bool
    ghost var surfaced: seq<QueryEvent>

    ghost function View(): Reader
      reads this, pool
    {
      Reader(pool.nextSeq, Occupied(pool.slots), lastSeq, Seqs(surfaced))
    }

    ghost predicate Valid()
      reads this, pool
    {
      && pool.Valid()
      && WellFormed(View())
      && GapFree(View())
      && TerminalIsLast(surfaced, terminalDelivered)
    }

    /** Every later call reports end-of-stream. */
    predicate Shut()
      reads this
    {
      terminalDelivered || !registered
    }

    constructor (pool: AnswerPool)
      requires pool.Valid() && pool.nextSeq == 0
      ensures Valid() && this.pool == pool && View() == Reader(0, Occupied(pool.slots), 0, [])
    {
      this.pool := pool;
      registered, lastSeq, cancelled, errored, terminalDelivered := true, 0, false, false, false;
      surfaced := [];
    }

    /** The network side: one record offered to the pool between two reads. */
    method Receive(rtype: nat, rclass: nat, rdata: Bytes, rdataKey: Bytes) returns (collected: bool)
      requires Valid()
      modifies pool
      ensures Valid()
      ensures View() == if collected then Accept(old(View()), old(pool.AtCap())) else old(View())
    {
      ghost var before := View();
      collected := pool.Collect(rtype, rclass, rdata, rdataKey);
      if collected {
        StepIsGapFree(before, OpAccept(View().retained == before.retained));
      }
    }

    /** The answer that is due, handed over; the cursor moves just past it. */
    method YieldAnswer(answer: CollectedAnswer)
      requires Valid() && !Shut() && NextAnswerBySeq(pool.slots, lastSeq) == Some(answer)
      modifies this`lastSeq, this`surfaced
      ensures Valid() && View() == Deliver(old(View())) && !Shut() && lastSeq == answer.seqNo + 1
      ensures answer.seqNo == Due(old(View())) && Some(answer) in pool.slots
      ensures surfaced == old(surfaced) + [AnswerEvent(answer)]
    {
      DeliverNext(pool.slots, pool.nextSeq, lastSeq, surfaced);
      lastSeq := answer.seqNo + 1;
      surfaced := surfaced + [AnswerEvent(answer)];
    }

    lemma NothingDue()
      requires Valid() && NextAnswerBySeq(pool.slots, lastSeq) == None
      ensures Deliver(View()) == View()
    {
      NextIsDue(pool.slots, pool.nextSeq, lastSeq);
    }

    /** Nothing is due: the terminal if there is one, then the end, else wait. Either way out latches shut. */
    method Conclude(terminal: Option<nat>) returns (polled: Polled)
      requires Valid() && !Shut() && NextAnswerBySeq(pool.slots, lastSeq) == None
      modifies this`registered, this`terminalDelivered, this`surfaced
      ensures Valid() && View() == old(View())
      ensures terminal.Some? ==> polled == Surfaced(TerminalEvent(terminal.value))
      ensures terminal == None && (cancelled || errored) ==> polled == EndOfStream
      ensures terminal == None && !cancelled && !errored ==> polled == Parked
      ensures surfaced == old(surfaced) + (if terminal.Some? then [TerminalEvent(terminal.value)] else [])
      ensures Shut() <==> polled != Parked
    {
      if terminal.Some? {
        SeqsAppend(surfaced, TerminalEvent(terminal.value));
        assert Seqs(surfaced) + [] == Seqs(surfaced);
        terminalDelivered := true;
        registered := false;
        surfaced := surfaced + [TerminalEvent(terminal.value)];
        return Surfaced(TerminalEvent(terminal.value));
      }
      if cancelled || errored {
        terminalDelivered := true;
        registered := false;
        return EndOfStream;
      }
      return Parked;
    }

    /**
     One pass of `next`. `terminal` is what the proto layer's own poll answers, which it answers at most
     once. Retained answers come first, then the terminal, then the end of a cancelled or failed query.
     */
    method Next(terminal: Option<nat>) returns (polled: Polled)
      requires Valid()
      modifies this`lastSeq, this`registered, this`terminalDelivered, this`surfaced
      ensures Valid()
      ensures old(Shut()) ==> polled == EndOfStream && View() == old(View())
      ensures !old(Shut()) ==> View() == Deliver(old(View()))
      ensures !old(Shut()) ==>
        var a := NextAnswerBySeq(pool.slots, old(lastSeq));
        && (a.Some? ==> polled == Surfaced(AnswerEvent(a.value)) && lastSeq == a.value.seqNo + 1)
        && (a == None && terminal.Some? ==> polled == Surfaced(TerminalEvent(terminal.value)))
        && (a == None && terminal == None && (cancelled || errored) ==> polled == EndOfStream)
        && (a == None && terminal == None && !cancelled && !errored ==> polled == Parked)
      ensures polled.Surfaced? && polled.event.AnswerEvent? ==>
        polled.event.answer.seqNo == Due(old(View())) && Some(polled.event.answer) in pool.slots
      ensures surfaced == old(surfaced) + (if polled.Surfaced? then [polled.event] else [])
      ensures Shut() <==> polled == EndOfStream || (polled.Surfaced? && polled.event.TerminalEvent?)
    {
      if Shut() {
        return EndOfStream;
      }
      var a := NextAnswerBySeq(pool.slots, lastSeq);
      if a.Some? {
        YieldAnswer(a.value);
        return Surfaced(AnswerEvent(a.value));
      }
      NothingDue();
      polled := Conclude(terminal);
    }

    /** Dropping the handle flags the entry and removes nothing itself. */
    method Drop()
      requires Valid()
      modifies this`cancelled
      ensures Valid() && View() == old(View()) && surfaced == old(surfaced)
      ensures cancelled == (old(cancelled) || registered)
    {
      if registered { cancelled := true; }
    }
  }

  function Seqs(events: seq<QueryEvent>): seq<nat> {
    if events == [] then []
    else if events[0].AnswerEvent? then [events[0].answer.seqNo] + Seqs(events[1..])
    else Seqs(events[1..])
  }

  /** A terminal is the last event there is, and once there is one the stream is latched shut. */
  ghost predicate TerminalIsLast(events: seq<QueryEvent>, latched: bool) {
    forall i :: 0 <= i < |events| && events[i].TerminalEvent? ==> i == |events| - 1 && latched
  }

  lemma {:induction false} SeqsAppend(events: seq<QueryEvent>, event: QueryEvent)
    ensures Seqs(events + [event]) ==
      Seqs(events) + (if event.AnswerEvent? then [event.answer.seqNo] else [])
  {
    if events != [] {
      assert (events + [event])[1..] == events[1..] + [event];
      SeqsAppend(events[1..], event);
    }
  }
}
