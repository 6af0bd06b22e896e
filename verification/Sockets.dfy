/**
 Receive readiness and registration (hick-mio/src/socket.rs).

 Readiness is edge-triggered: the selector reports a socket once, and not again until something new arrives
 or the registration is renewed. `Wire` is the other side of that contract, the kernel's queue and the
 selector's state, with arrivals, failures and read outcomes left open. What the driver must never reach is
 a family with data queued, no flag set, and nothing on its way to say so.
 */
module Wires {
  datatype ReadOutcome = Datagram | WouldBlock | Interrupted | Unusable | Permanent | Transient

  class Wire {
    /** Whether an edge disarms the registration until it is renewed, as Windows' readiness does. */
    const oneShot: bool
    var pending: nat
    /** A readable event the selector has produced and the driver has not been handed yet. */
    var edge: bool
    var registered: bool
    var armed: bool
    /** What every read of this socket returned, in order. */
    ghost var answered: seq<ReadOutcome>
    /** Whether each call to arm it, and each call to remove it, succeeded, in order. */
    ghost var armings: seq<bool>
    ghost var removals: seq<bool>

    constructor (oneShot: bool)
      ensures this.oneShot == oneShot && !registered && !edge && pending == 0 && !armed && answered == []
    {
      this.oneShot := oneShot;
      pending, edge, registered, armed := 0, false, false, false;
      answered, armings, removals := [], [], [];
    }

    method Fire()
      modifies this`edge, this`armed
      ensures registered && old(armed) ==> edge && armed == !oneShot
      ensures !(registered && old(armed)) ==> edge == old(edge) && armed == old(armed)
    {
      if registered && armed {
        edge := true;
        armed := !oneShot;
      }
    }

    /** Any number of datagrams arrive, possibly none. */
    method Arrive()
      modifies this`pending, this`edge, this`armed
      ensures pending >= old(pending)
      ensures pending > old(pending) && registered && old(armed) ==> edge && armed == !oneShot
      ensures !(pending > old(pending) && registered && old(armed)) ==> edge == old(edge) && armed == old(armed)
    {
      var n: int := *;
      if n > 0 {
        pending := pending + n;
        Fire();
      }
    }

    /** Registers or renews; success arms the socket and reports data already queued. */
    method Arm() returns (ok: bool)
      modifies this`edge, this`armed, this`registered, this`armings
      ensures armings == old(armings) + [ok]
      ensures ok ==> registered && (armed || edge) && (pending > 0 ==> edge) && (!oneShot ==> armed)
      ensures old(edge) ==> edge
      ensures !ok ==> registered == old(registered) && edge == old(edge) && armed == old(armed)
    {
      ok := *;
      if ok {
        registered, armed := true, true;
        if pending > 0 { Fire(); }
      }
      armings := armings + [ok];
    }

    /** The re-arm after a drain. Only a one-shot registration needs one, so only there can it fail. */
    method Rearm() returns (ok: bool)
      requires registered
      modifies this`edge, this`armed, this`registered, this`armings
      ensures registered && armings == old(armings) + (if oneShot then [ok] else [])
      ensures oneShot && ok ==> (armed || edge) && (pending > 0 ==> edge)
      ensures !oneShot ==> ok && edge == old(edge) && armed == old(armed)
      ensures !ok ==> edge == old(edge) && armed == old(armed)
    {
      if !oneShot { return true; }
      ok := Arm();
    }

    method Remove() returns (ok: bool)
      modifies this`edge, this`registered, this`armed, this`removals
      ensures removals == old(removals) + [ok]
      ensures ok ==> !registered && !edge
      ensures !ok ==> registered == old(registered) && edge == old(edge) && armed == old(armed)
    {
      ok := *;
      if ok { registered, edge, armed := false, false, false; }
      removals := removals + [ok];
    }

    /** One raw read. `WouldBlock` is the one outcome that says the queue is empty. */
    method Read() returns (outcome: ReadOutcome)
      modifies this`pending, this`answered
      ensures answered == old(answered) + [outcome]
      ensures outcome == WouldBlock ==> pending == old(pending) && pending == 0
      ensures outcome == Datagram || outcome == Unusable ==> old(pending) > 0 && pending == old(pending) - 1
      ensures outcome == Interrupted || outcome == Permanent || outcome == Transient ==> pending == old(pending)
    {
      if {
        case pending == 0 => outcome := WouldBlock;
        case pending > 0 => outcome, pending := Datagram, pending - 1;
        case pending > 0 => outcome, pending := Unusable, pending - 1;
        case true => outcome := Interrupted;
        case true => outcome := Permanent;
        case true => outcome := Transient;
      }
      answered := answered + [outcome];
    }
  }
}

module Sockets {
  import opened Answers
  import opened Basics
  import opened Wires

  const MAX_RECV_ERRORS_PER_ROUND: nat := 4
  const MAX_DISCARDED_PER_RECV: nat := 64
  const RECV_BUDGET: nat := 64
  const RETRY_INTEREST_BACKOFF: nat := 50
  const MAX_RECV_BACKOFF_DOUBLINGS: nat := 4

  // ----- Which family is read -----

  datatype Family = IPv4 | IPv6 {
    function Other(): Family {
      if this == IPv4 then IPv6 else IPv4
    }
  }

  predicate Selectable(f: Family, v4: bool, v6: bool) {
    if f == IPv4 then v4 else v6
  }

  /** The preferred family if it can be read, else the other, else none. */
  function Picked(next: Family, v4: bool, v6: bool): Option<Family> {
    if Selectable(next, v4, v6) then Some(next)
    else if Selectable(next.Other(), v4, v6) then Some(next.Other())
    else None
  }

  class RecvRotor {
    var next: Family

    constructor ()
      ensures next == IPv4
    {
      next := IPv4;
    }

    /**
     A family is picked exactly when one can be read, and then one that can. The preferred family wins, and the
     preference passes to the other, so two families that stay readable take turns.
     */
    method Pick(v4: bool, v6: bool) returns (picked: Option<Family>)
      modifies this
      ensures picked == None <==> !v4 && !v6
      ensures picked.Some? ==> Selectable(picked.value, v4, v6) && next == picked.value.Other()
      ensures Selectable(old(next), v4, v6) ==> picked == Some(old(next))
      ensures picked == None ==> next == old(next)
    {
      picked := Picked(next, v4, v6);
      if picked.Some? { next := picked.value.Other(); }
    }
  }

  /** The families selected over a run of selections, given which could be read at each. */
  function Selections(next: Family, readable: seq<(bool, bool)>): seq<Option<Family>>
    decreases |readable|
  {
    if readable == [] then []
    else
      var picked := Picked(next, readable[0].0, readable[0].1);
      [picked] + Selections(if picked.Some? then picked.value.Other() else next, readable[1..])
  }

  /** A family that stays readable is never passed over twice running. */
  lemma {:induction false} NeverPassedOverTwice(next: Family, readable: seq<(bool, bool)>, i: nat, f: Family)
    requires i + 1 < |readable|
    requires Selectable(f, readable[i].0, readable[i].1) && Selectable(f, readable[i + 1].0, readable[i + 1].1)
    ensures var picks := Selections(next, readable);
      |picks| == |readable| && (picks[i] == Some(f) || picks[i + 1] == Some(f))
    decreases |readable|
  {
    SelectionsLength(next, readable);
    var picked := Picked(next, readable[0].0, readable[0].1);
    var onward := if picked.Some? then picked.value.Other() else next;
    if i > 0 {
      NeverPassedOverTwice(onward, readable[1..], i - 1, f);
    } else {
      assert Selections(onward, readable[1..])[0] == Picked(onward, readable[1].0, readable[1].1);
    }
  }

  lemma {:induction false} SelectionsLength(next: Family, readable: seq<(bool, bool)>)
    ensures |Selections(next, readable)| == |readable|
    decreases |readable|
  {
    if readable != [] {
      var picked := Picked(next, readable[0].0, readable[0].1);
      SelectionsLength(if picked.Some? then picked.value.Other() else next, readable[1..]);
    }
  }

  // ----- What the reads said -----

  /** One raw read: of which family, and what it returned. */
  datatype RawRead = RawRead(family: Family, outcome: ReadOutcome)

  /** An outcome that costs a discard: nothing usable was read, and the family may be read again. */
  predicate Discarding(outcome: ReadOutcome) {
    outcome == Interrupted || outcome == Unusable || outcome == Transient
  }

  function ReadsOf(log: seq<RawRead>, f: Family): seq<ReadOutcome> {
    if log == [] then []
    else
      var front, last := log[..|log| - 1], log[|log| - 1];
      if last.family == f then ReadsOf(front, f) + [last.outcome] else ReadsOf(front, f)
  }

  lemma {:induction false} EveryReadIsOneFamilys(log: seq<RawRead>)
    ensures |ReadsOf(log, IPv4)| + |ReadsOf(log, IPv6)| == |log|
  {
    if log != [] { EveryReadIsOneFamilys(log[..|log| - 1]); }
  }

  function Datagrams(log: seq<RawRead>): nat {
    if log == [] then 0 else Datagrams(log[..|log| - 1]) + (if log[|log| - 1].outcome == Datagram then 1 else 0)
  }

  /** The discards since the last datagram. */
  function Discards(log: seq<RawRead>): nat {
    if log == [] then 0
    else
      var last := log[|log| - 1].outcome;
      if last == Datagram then 0 else Discards(log[..|log| - 1]) + (if Discarding(last) then 1 else 0)
  }

  lemma LogSnoc(log: seq<RawRead>, read: RawRead)
    ensures ReadsOf(log + [read], read.family) == ReadsOf(log, read.family) + [read.outcome]
    ensures ReadsOf(log + [read], read.family.Other()) == ReadsOf(log, read.family.Other())
    ensures Datagrams(log + [read]) == Datagrams(log) + (if read.outcome == Datagram then 1 else 0)
    ensures Discards(log + [read]) ==
      if read.outcome == Datagram then 0 else Discards(log) + (if Discarding(read.outcome) then 1 else 0)
  {
    assert (log + [read])[..|log|] == log;
  }

  /** One datagram's reads after those of the datagrams before it. */
  lemma {:induction false} LogsJoin(a: seq<RawRead>, b: seq<RawRead>)
    requires a == [] || a[|a| - 1].outcome == Datagram
    ensures Datagrams(a + b) == Datagrams(a) + Datagrams(b)
    ensures Discards(a + b) == Discards(b)
  {
    if b == [] {
      assert a + b == a;
    } else {
      assert (a + b)[..|a + b| - 1] == a + b[..|b| - 1];
      LogsJoin(a, b[..|b| - 1]);
    }
  }

  // ----- One family -----

  class BoundSocket {
    const wire: Wire
    var token: Option<nat>
    var interestStale: bool
    var readable: bool
    var recvErrorStreak: nat
    var recvErrorRounds: nat
    var recvDead: bool

    /** Something will bring the driver back to this family: its flag, an edge, or a renewal it still owes. */
    predicate WillWake()
      reads this, wire
    {
      readable || wire.edge || interestStale
    }

    /** No lost wakeup: a registered, living family with data queued, or disarmed, will wake. */
    ghost predicate NeverDeaf()
      reads this, wire
    {
      wire.registered && !recvDead && (wire.pending > 0 || !wire.armed) ==> WillWake()
    }

    ghost predicate Valid()
      reads this, wire
    {
      && (token.Some? <==> wire.registered)
      && NeverDeaf()
      && (wire.registered && !wire.oneShot ==> wire.armed)
      && recvErrorStreak <= MAX_RECV_ERRORS_PER_ROUND
      && (readable || interestStale ==> wire.registered)
    }

    constructor (oneShot: bool)
      ensures Valid() && fresh(wire) && token == None && !readable && !recvDead && wire.answered == []
    {
      wire := new Wire(oneShot);
      token, interestStale, readable := None, false, false;
      recvErrorStreak, recvErrorRounds, recvDead := 0, 0, false;
    }

    predicate RecvSelectable()
      reads this
    {
      readable && !recvDead && recvErrorStreak < MAX_RECV_ERRORS_PER_ROUND
    }

    /** 1 while this family can still be drained this round or a later one. */
    function Live(): nat
      reads this
    {
      if readable && !recvDead then 1 else 0
    }

    /** One more than the number of earlier failing rounds, while this one has used up its errors. */
    function ErrorLevel(): nat
      reads this
    {
      if recvErrorStreak >= MAX_RECV_ERRORS_PER_ROUND then recvErrorRounds + 1 else 0
    }

    /** The network's move, at any moment between two of the driver's. */
    method Arrivals()
      requires Valid()
      modifies wire`pending, wire`edge, wire`armed
      ensures Valid()
    {
      wire.Arrive();
    }

    /** The selector's event reaches the driver, which does no more than set the flag. */
    method NoteReadable()
      requires Valid() && token.Some?
      modifies this`readable, wire`edge
      ensures Valid() && readable
    {
      wire.edge := false;
      readable := true;
    }

    method NoteRecvProgress()
      modifies this`recvErrorStreak, this`recvErrorRounds
      ensures recvErrorStreak == 0 && recvErrorRounds == 0
    {
      recvErrorStreak, recvErrorRounds := 0, 0;
    }

    /**
     The queue was found empty: clear the flag and renew the registration, recording a failed renewal. More
     may arrive before, between and after.
     */
    method StopReading()
      requires Valid() && (token.Some? ==> wire.pending == 0)
      modifies this`readable, this`interestStale, this`recvErrorStreak, this`recvErrorRounds,
               wire`pending, wire`edge, wire`armed, wire`registered, wire`armings
      ensures Valid() && !readable && recvErrorStreak == 0 && recvErrorRounds == 0
      ensures if token.Some? && wire.oneShot then
          && |wire.armings| == |old(wire.armings)| + 1 && wire.armings[..|old(wire.armings)|] == old(wire.armings)
          && interestStale == (old(interestStale) || !wire.armings[|old(wire.armings)|])
        else wire.armings == old(wire.armings) && interestStale == old(interestStale)
      ensures wire.registered == old(wire.registered)
    {
      wire.Arrive();
      readable := false;
      NoteRecvProgress();
      wire.Arrive();
      if token.Some? {
        var ok := wire.Rearm();
        if !ok { interestStale := true; }
      }
    }

    /** One raw read of this family, and everything the driver concludes from it. */
    method Attempt(discarded: nat) returns (step: RecvStep, after: nat, ghost outcome: ReadOutcome)
      requires Valid() && RecvSelectable() && discarded < MAX_DISCARDED_PER_RECV
      modifies this`readable, this`interestStale, this`recvErrorStreak, this`recvErrorRounds, this`recvDead,
               wire`pending, wire`edge, wire`armed, wire`registered, wire`answered, wire`armings
      ensures Valid() && wire.registered == old(wire.registered)
      ensures wire.answered == old(wire.answered) + [outcome]
      ensures step == GotDatagram ==> after == discarded && Live() == 1 && recvErrorStreak == 0 && recvErrorRounds == 0
      ensures step == Retry ==>
        (after == discarded && Live() == 0) || (after == discarded + 1 < MAX_DISCARDED_PER_RECV && Live() == 1)
      ensures step == Idle ==> after == discarded + 1 == MAX_DISCARDED_PER_RECV && Live() == 1
      ensures step == GotDatagram <==> outcome == Datagram
      ensures recvDead <==> outcome == Permanent
      ensures readable <==> outcome != Permanent && outcome != WouldBlock
      ensures outcome == Transient ==>
        recvErrorStreak == old(recvErrorStreak) + 1 && recvErrorRounds == old(recvErrorRounds)
      ensures outcome == Interrupted || outcome == Unusable ==>
        recvErrorStreak == old(recvErrorStreak) && recvErrorRounds == old(recvErrorRounds)
      ensures outcome == Datagram || outcome == WouldBlock || outcome == Permanent ==>
        recvErrorStreak == 0 && recvErrorRounds == 0
      ensures after == if Discarding(outcome) then discarded + 1 else discarded
    {
      wire.Arrive();
      var read := wire.Read();
      outcome, after := read, discarded;
      match read
      case Datagram =>
        NoteRecvProgress();
        step := GotDatagram;
      case WouldBlock =>
        StopReading();
        step := Retry;
      case Permanent =>
        recvDead, readable := true, false;
        recvErrorStreak, recvErrorRounds := 0, 0;
        step := Retry;
      case Interrupted =>
        after := discarded + 1;
        step := if after >= MAX_DISCARDED_PER_RECV then Idle else Retry;
      case Unusable =>
        after := discarded + 1;
        step := if after >= MAX_DISCARDED_PER_RECV then Idle else Retry;
      case Transient =>
        recvErrorStreak := recvErrorStreak + 1;
        after := discarded + 1;
        step := if after >= MAX_DISCARDED_PER_RECV then Idle else Retry;
    }

    /** A new tick: the error budget is handed back, and a round that used it up counts toward the backoff. */
    method BeginRound()
      requires Valid()
      modifies this`recvErrorStreak, this`recvErrorRounds
      ensures Valid()
      ensures !recvDead ==> recvErrorStreak == 0
      ensures Live() == old(Live()) && (Live() == 1 ==> RecvSelectable())
      ensures recvErrorRounds == old(recvErrorRounds) +
        (if !recvDead && old(recvErrorStreak) >= MAX_RECV_ERRORS_PER_ROUND then 1 else 0)
    {
      if recvDead { return; }
      if recvErrorStreak >= MAX_RECV_ERRORS_PER_ROUND {
        recvErrorRounds := recvErrorRounds + 1;
      }
      recvErrorStreak := 0;
    }

    /** Renews a registration whose re-arm failed. */
    method RetryStale() returns (ok: bool)
      requires Valid()
      modifies this`interestStale, wire`edge, wire`armed, wire`registered, wire`armings
      ensures Valid() && wire.registered == old(wire.registered)
      ensures wire.armings == old(wire.armings) + (if old(interestStale) then [ok] else [])
      ensures ok ==> !interestStale
      ensures !ok ==> interestStale
    {
      if token.None? || !interestStale { return true; }
      ok := wire.Arm();
      if ok { interestStale := false; }
    }

    method Register(t: nat) returns (ok: bool)
      requires Valid() && token == None
      modifies this`token, this`interestStale, wire`edge, wire`armed, wire`registered, wire`armings
      ensures wire.armings == old(wire.armings) + [ok]
      ensures Valid() && token == (if ok then Some(t) else None)
    {
      ok := wire.Arm();
      if ok { token, interestStale := Some(t), false; }
    }

    /** The state is reset only once the selector has confirmed the removal. */
    method Deregister() returns (ok: bool)
      requires Valid()
      modifies this`token, this`interestStale, this`readable, wire`edge, wire`armed, wire`registered, wire`removals
      ensures Valid() && wire.removals == old(wire.removals) + (if old(token).Some? then [ok] else [])
      ensures ok ==> token == None && !wire.registered && !readable && !interestStale
      ensures !ok ==> token == old(token) && token.Some? && wire.registered
    {
      if token.None? { return true; }
      ok := wire.Remove();
      if ok { token, interestStale, readable := None, false, false; }
    }
  }

  datatype RecvStep = GotDatagram | Retry | Idle

  /** What the driver makes of one read of family `f`, and what the read cost it. */
  predicate Concluded(read: RawRead, f: Family, step: RecvStep, discarded: nat, after: nat, live: nat, liveAfter: nat) {
    && read.family == f
    && (step == GotDatagram <==> read.outcome == Datagram)
    && after == (if Discarding(read.outcome) then discarded + 1 else discarded)
    && (step == Idle <==> Discarding(read.outcome) && after >= MAX_DISCARDED_PER_RECV)
    && liveAfter + (if read.outcome == WouldBlock || read.outcome == Permanent then 1 else 0) == live
  }

  /** Part-way through the attempts at one datagram: what the reads since `start` were, and what they cost. */
  ghost predicate Tried(start: seq<RawRead>, log: seq<RawRead>, liveBefore: nat, live: nat, step: RecvStep, discarded: nat) {
    && live <= liveBefore && |start| <= |log| && log[..|start|] == start
    && |log| - |start| == discarded + (liveBefore - live) + (if step == GotDatagram then 1 else 0)
    && Datagrams(log[|start|..]) == (if step == GotDatagram then 1 else 0)
    && (if step == GotDatagram then |log| > |start| && log[|log| - 1].outcome == Datagram
        else Discards(log[|start|..]) == discarded)
    && discarded <= MAX_DISCARDED_PER_RECV && (step != Idle ==> discarded < MAX_DISCARDED_PER_RECV)
  }

  lemma TriedOn(start: seq<RawRead>, before: seq<RawRead>, log: seq<RawRead>, liveBefore: nat, live: nat, liveAfter: nat,
                f: Family, step: RecvStep, discarded: nat, after: nat)
    requires Tried(start, before, liveBefore, live, Retry, discarded)
    requires |log| == |before| + 1 && log[..|before|] == before
    requires Concluded(log[|before|], f, step, discarded, after, live, liveAfter)
    ensures Tried(start, log, liveBefore, liveAfter, step, after)
  {
    assert log[|start|..] == before[|start|..] + [log[|before|]];
    LogSnoc(before[|start|..], log[|before|]);
  }

  /** Part-way through a drain: `served` datagrams since `start`, nothing else left open. */
  ghost predicate Served(start: seq<RawRead>, log: seq<RawRead>, lives: int, served: nat) {
    && |start| <= |log| <= |start| + served * MAX_DISCARDED_PER_RECV + lives && log[..|start|] == start
    && served == Datagrams(log[|start|..])
    && (log == start || log[|log| - 1].outcome == Datagram)
  }

  lemma SliceJoins(start: seq<RawRead>, before: seq<RawRead>, log: seq<RawRead>)
    requires |start| <= |before| <= |log| && before[..|start|] == start && log[..|before|] == before
    requires before == start || before[|before| - 1].outcome == Datagram
    ensures log[..|start|] == start
    ensures Datagrams(log[|start|..]) == Datagrams(before[|start|..]) + Datagrams(log[|before|..])
    ensures Discards(log[|start|..]) == Discards(log[|before|..])
  {
    assert log[|start|..] == before[|start|..] + log[|before|..];
    LogsJoin(before[|start|..], log[|before|..]);
  }

  // ----- The pair -----

  function Doubled(ms: nat, times: nat): nat
    decreases times
  {
    if times == 0 then ms else Doubled(2 * ms, times - 1)
  }

  function RecvErrorBackoff(level: nat): nat
    requires level > 0
  {
    Doubled(RETRY_INTEREST_BACKOFF, Min(level - 1, MAX_RECV_BACKOFF_DOUBLINGS))
  }

  lemma Doublings()
    ensures RecvErrorBackoff(1) == 50 && RecvErrorBackoff(2) == 100 && RecvErrorBackoff(3) == 200
    ensures RecvErrorBackoff(4) == 400 && forall level :: level >= 5 ==> RecvErrorBackoff(level) == 800
  {
    assert Doubled(50, 0) == 50 && Doubled(50, 1) == Doubled(100, 0) == 100;
    assert Doubled(50, 2) == Doubled(100, 1) == Doubled(200, 0) == 200;
    assert Doubled(50, 3) == Doubled(100, 2) == Doubled(200, 1) == Doubled(400, 0) == 400;
    assert Doubled(50, 4) == Doubled(100, 3) == Doubled(200, 2) == Doubled(400, 1) == Doubled(800, 0) == 800;
  }

  /** The wait doubles from 50 ms with each failing round and stops at 800 ms. */
  lemma BackoffIsBounded(level: nat)
    requires level > 0
    ensures RETRY_INTEREST_BACKOFF <= RecvErrorBackoff(level) <= 16 * RETRY_INTEREST_BACKOFF
    ensures level <= MAX_RECV_BACKOFF_DOUBLINGS ==> RecvErrorBackoff(level + 1) == 2 * RecvErrorBackoff(level)
  {
    Doublings();
  }

  function Soonest(a: Option<nat>, b: Option<nat>): Option<nat> {
    if a == None then b else if b == None then a else Some(Min(a.value, b.value))
  }

  datatype RegisterError = SameToken | AlreadyRegistered | CloneFailed | SelectorRefused

  class Sockets {
    const v4: BoundSocket?
    const v6: BoundSocket?
    const rotor: RecvRotor
    /** Whether the clone of the caller's registry is held. */
    var registry: bool
    var tokens: Option<(nat, nat)>
    /** Every raw read there has been, of either family. */
    ghost var log: seq<RawRead>

    ghost predicate Valid()
      reads this, rotor, v4, v6, if v4 == null then {} else {v4.wire}, if v6 == null then {} else {v6.wire}
    {
      && (v4 != null ==> v4.Valid())
      && (v6 != null ==> v6.Valid())
      && (v4 != null && v6 != null ==> v4 != v6 && v4.wire != v6.wire)
      && NoGhost() && Logged()
    }

    /** The log is what the two sockets answered. */
    ghost predicate Logged()
      reads this, v4, v6, if v4 == null then {} else {v4.wire}, if v6 == null then {} else {v6.wire}
    {
      && ReadsOf(log, IPv4) == (if v4 == null then [] else v4.wire.answered)
      && ReadsOf(log, IPv6) == (if v6 == null then [] else v6.wire.answered)
    }

    /** How many raw reads the two sockets have answered. */
    ghost function Reads(): nat
      reads this, v4, v6, if v4 == null then {} else {v4.wire}, if v6 == null then {} else {v6.wire}
    {
      (if v4 == null then 0 else |v4.wire.answered|) + (if v6 == null then 0 else |v6.wire.answered|)
    }

    lemma ReadsAreLogged()
      requires Valid()
      ensures Reads() == |log|
    {
      EveryReadIsOneFamilys(log);
    }

    /** Every token a family holds is one this pair claims, and one it still has the registry to give up. */
    ghost predicate NoGhost()
      reads this, v4, v6
    {
      && (registry <==> tokens.Some?)
      && (v4 != null && v4.token.Some? ==> registry && v4.token.value == tokens.value.0)
      && (v6 != null && v6.token.Some? ==> registry && v6.token.value == tokens.value.1)
    }

    constructor (bindV4: bool, bindV6: bool, oneShot: bool)
      ensures Valid() && !registry && log == []
    {
      var a: BoundSocket?, b: BoundSocket? := null, null;
      if bindV4 { a := new BoundSocket(oneShot); }
      if bindV6 { b := new BoundSocket(oneShot); }
      v4, v6 := a, b;
      rotor := new RecvRotor();
      registry, tokens, log := false, None, [];
    }

    predicate Owns(token: nat)
      reads this
    {
      tokens.Some? && (token == tokens.value.0 || token == tokens.value.1)
    }

    ghost function Repr(): set<object> {
      {this, rotor} + (if v4 == null then {} else {v4, v4.wire}) + (if v6 == null then {} else {v6, v6.wire})
    }

    function Live(): nat
      reads this, v4, v6
    {
      (if v4 == null then 0 else v4.Live()) + (if v6 == null then 0 else v6.Live())
    }

    static predicate CanRead(f: BoundSocket?)
      reads f
    {
      f != null && f.RecvSelectable()
    }

    predicate HasReadable()
      reads this, v4, v6
    {
      CanRead(v4) || CanRead(v6)
    }

    predicate NeedsInterestRetry()
      reads this, v4, v6
    {
      (v4 != null && v4.interestStale) || (v6 != null && v6.interestStale)
    }

    function RecvErrorBackoffLevel(): nat
      reads this, v4, v6
    {
      Max(if v4 == null then 0 else v4.ErrorLevel(), if v6 == null then 0 else v6.ErrorLevel())
    }

    /** How long the caller may block, given the earliest deadline of everything that is not a socket. */
    function NextTimeout(workPending: bool, folded: Option<nat>): Option<nat>
      reads this, v4, v6
    {
      if HasReadable() || workPending then Some(0)
      else
        var retry := if NeedsInterestRetry() then Some(RETRY_INTEREST_BACKOFF) else None;
        var level := RecvErrorBackoffLevel();
        var backoff := if level > 0 then Soonest(retry, Some(RecvErrorBackoff(level))) else retry;
        Soonest(backoff, folded)
    }

    /**
     What the caller is told. With work pending or a family to read, not to block. Else the soonest of what there is:
     50 ms for a stale registration; 50, 100, 200, 400 or 800 ms for a family that used up this round's errors, by how
     many rounds before this one failed, the longer of the two; and the earliest other deadline. With none, for ever.
     */
    lemma NextTimeoutIs(workPending: bool, folded: Option<nat>)
      ensures var timeout := NextTimeout(workPending, folded);
        var stale := (v4 != null && v4.interestStale) || (v6 != null && v6.interestStale);
        var failing := (v4 != null && v4.recvErrorStreak >= 4) || (v6 != null && v6.recvErrorStreak >= 4);
        var wait := Max(Backoff(v4), Backoff(v6));
        if workPending || (v4 != null && v4.RecvSelectable()) || (v6 != null && v6.RecvSelectable()) then
          timeout == Some(0)
        else
          && (timeout == None <==> !stale && !failing && folded == None)
          && (stale ==> timeout.value <= 50) && (failing ==> timeout.value <= wait)
          && (folded.Some? ==> timeout.value <= folded.value)
          && (timeout.Some? ==>
                (stale && timeout.value == 50) || (failing && timeout.value == wait) || timeout == folded)
    {
      Doublings();
    }

    /** The wait of one family that can take no more errors this round; 0 for any other. */
    static function Backoff(f: BoundSocket?): nat
      reads f
    {
      if f == null || f.recvErrorStreak < 4 then 0
      else match f.recvErrorRounds
        case 0 => 50
        case 1 => 100
        case 2 => 200
        case 3 => 400
        case _ => 800
    }

    /**
     A caller that blocks no longer than it was told always comes back for data: the selector has an edge to
     deliver, or the timeout is bounded. A failed renewal is retried within 50 ms, a readable family within 800.
     */
    lemma NoLostWakeup(workPending: bool, folded: Option<nat>, f: BoundSocket)
      requires Valid() && (f == v4 || f == v6)
      ensures var timeout := NextTimeout(workPending, folded);
        && (f.wire.registered && !f.recvDead && (f.wire.pending > 0 || !f.wire.armed) && !f.wire.edge
            ==> timeout.Some? && timeout.value <= 16 * RETRY_INTEREST_BACKOFF)
        && (f.readable && !f.recvDead ==> timeout.Some? && timeout.value <= 16 * RETRY_INTEREST_BACKOFF)
        && (f.interestStale ==> timeout.Some? && timeout.value <= RETRY_INTEREST_BACKOFF)
        && (folded.Some? ==> timeout.Some? && timeout.value <= folded.value)
    {
      var level := RecvErrorBackoffLevel();
      if level > 0 { BackoffIsBounded(level); }
    }

    /** No ghost: what the selector holds for a family is claimed by `Owns`, and the registry to remove it is kept. */
    lemma RegisteredIsClaimed(f: BoundSocket)
      requires Valid() && (f == v4 || f == v6)
      ensures f.wire.registered <==> f.token.Some?
      ensures f.wire.registered ==> Owns(f.token.value) && registry
      ensures !registry ==> !f.wire.registered && tokens == None
    {
    }

    /** The network's move. */
    method Arrivals()
      requires Valid()
      modifies Repr() - {this, rotor, v4, v6}
      ensures Valid()
    {
      if v4 != null { v4.Arrivals(); }
      if v6 != null { v6.Arrivals(); }
    }

    /** An event from the selector: it marks the family whose registration carries that token, and does no I/O. */
    method NoteReadiness(token: nat)
      requires Valid()
      modifies Repr() - {this, rotor}
      ensures Valid()
      ensures v4 != null ==> v4.readable == (old(v4.readable) || v4.token == Some(token)) && v4.token == old(v4.token)
      ensures v6 != null ==> v6.readable == (old(v6.readable) || v6.token == Some(token)) && v6.token == old(v6.token)
    {
      if v4 != null && v4.token == Some(token) { v4.NoteReadable(); }
      if v6 != null && v6.token == Some(token) { v6.NoteReadable(); }
    }

    /** Every readable living family may be read again. */
    method BeginRecvRound()
      requires Valid()
      modifies Repr() - {this, rotor}
      ensures Valid() && Live() == old(Live())
      ensures v4 != null && old(v4.Live()) == 1 ==> v4.RecvSelectable()
      ensures v6 != null && old(v6.Live()) == 1 ==> v6.RecvSelectable()
    {
      if v4 != null { v4.BeginRound(); }
      if v6 != null { v6.BeginRound(); }
    }

    /**
     One attempt at the next datagram: at most one raw read, of the family the rotation picks, and none exactly when
     neither can be read. Every read is paid for: a datagram, a discard, or a family done.
     */
    method RecvOnce(discarded: nat) returns (step: RecvStep, after: nat, ghost chosen: Option<Family>)
      requires Valid() && discarded < MAX_DISCARDED_PER_RECV
      modifies Repr()
      ensures Valid() && registry == old(registry) && tokens == old(tokens)
      ensures chosen == Picked(old(rotor.next), old(CanRead(v4)), old(CanRead(v6)))
      ensures rotor.next == if chosen.Some? then chosen.value.Other() else old(rotor.next)
      ensures chosen == None ==> log == old(log) && step == Idle && after == discarded && !HasReadable()
      ensures chosen == None ==> Live() == old(Live())
      ensures chosen.Some? ==> |log| == |old(log)| + 1 && log[..|old(log)|] == old(log)
      ensures chosen.Some? ==> Concluded(log[|old(log)|], chosen.value, step, discarded, after, old(Live()), Live())
      ensures v4 != null && chosen != Some(IPv4) ==> unchanged(v4)
      ensures v6 != null && chosen != Some(IPv6) ==> unchanged(v6)
    {
      var picked := rotor.Pick(CanRead(v4), CanRead(v6));
      chosen := picked;
      if picked == None { return Idle, discarded, None; }
      step, after := ReadFamily(picked.value, discarded);
    }

    /** One raw read of the family picked. */
    method ReadFamily(f: Family, discarded: nat) returns (step: RecvStep, after: nat)
      requires Valid() && discarded < MAX_DISCARDED_PER_RECV && Selectable(f, CanRead(v4), CanRead(v6))
      modifies Repr() - {rotor}
      ensures Valid() && registry == old(registry) && tokens == old(tokens)
      ensures |log| == |old(log)| + 1 && log[..|old(log)|] == old(log)
      ensures Concluded(log[|old(log)|], f, step, discarded, after, old(Live()), Live())
      ensures v4 != null && f != IPv4 ==> unchanged(v4)
      ensures v6 != null && f != IPv6 ==> unchanged(v6)
    {
      ghost var outcome;
      if f == IPv4 {
        step, after, outcome := v4.Attempt(discarded);
      } else {
        step, after, outcome := v6.Attempt(discarded);
      }
      LogSnoc(log, RawRead(f, outcome));
      log := log + [RawRead(f, outcome)];
    }

    /**
     One tick's receive stage. It ends whatever the reads return, within a fixed number of them, and only because 64
     datagrams were read, 64 reads since the last one gave nothing usable, or no family can be read any more.
     */
    method DrainRecv() returns (served: nat)
      requires Valid()
      modifies Repr()
      ensures Valid() && registry == old(registry) && tokens == old(tokens)
      ensures |old(log)| <= |log| <= |old(log)| + RECV_BUDGET * MAX_DISCARDED_PER_RECV + 2
      ensures log[..|old(log)|] == old(log)
      ensures served == Datagrams(log[|old(log)|..]) <= RECV_BUDGET
      ensures old(HasReadable()) ==> |log| > |old(log)|
      ensures served == RECV_BUDGET || Discards(log[|old(log)|..]) == MAX_DISCARDED_PER_RECV || !HasReadable()
    {
      served := 0;
      assert log[|log|..] == [];
      while served < RECV_BUDGET
        invariant Valid() && registry == old(registry) && tokens == old(tokens) && served <= RECV_BUDGET
        invariant Live() <= old(Live())
        invariant Served(old(log), log, old(Live()) - Live(), served)
        invariant old(HasReadable()) ==> |log| > |old(log)| || HasReadable()
      {
        ghost var before := log;
        var idle := NextDatagram();
        SliceJoins(old(log), before, log);
        if idle { return; }
        served := served + 1;
      }
    }

    /** More may arrive, then one attempt. */
    method TryOnce(discarded: nat, ghost start: seq<RawRead>, ghost live: nat) returns (step: RecvStep, after: nat)
      requires Valid() && Tried(start, log, live, Live(), Retry, discarded)
      modifies Repr()
      ensures Valid() && registry == old(registry) && tokens == old(tokens)
      ensures Tried(start, log, live, Live(), step, after)
      ensures |log| >= |old(log)| && (old(HasReadable()) ==> |log| > |old(log)|)
      ensures step == Retry ==> after > discarded || Live() < old(Live())
      ensures step == Retry ==> after >= discarded && Live() <= old(Live())
      ensures step == Idle ==> after == MAX_DISCARDED_PER_RECV || !HasReadable()
    {
      Arrivals();
      ghost var chosen;
      step, after, chosen := RecvOnce(discarded);
      if chosen.Some? {
        TriedOn(start, old(log), log, live, old(Live()), Live(), chosen.value, step, discarded, after);
      }
    }

    /** The retry loop around one datagram of the drain. */
    method NextDatagram() returns (idle: bool)
      requires Valid()
      modifies Repr()
      ensures Valid() && registry == old(registry) && tokens == old(tokens)
      ensures Live() <= old(Live())
      ensures |old(log)| <= |log| <= |old(log)| + MAX_DISCARDED_PER_RECV + (old(Live()) - Live())
      ensures log[..|old(log)|] == old(log)
      ensures old(HasReadable()) ==> |log| > |old(log)|
      ensures Datagrams(log[|old(log)|..]) == if idle then 0 else 1
      ensures !idle ==> |log| > |old(log)| && log[|log| - 1].outcome == Datagram
      ensures idle ==> Discards(log[|old(log)|..]) == MAX_DISCARDED_PER_RECV || !HasReadable()
    {
      var discarded, step := 0, Retry;
      assert log[|log|..] == [];
      while step == Retry
        invariant Valid() && registry == old(registry) && tokens == old(tokens)
        invariant Tried(old(log), log, old(Live()), Live(), step, discarded)
        invariant step == Idle ==> discarded == MAX_DISCARDED_PER_RECV || !HasReadable()
        invariant old(HasReadable()) ==> |log| > |old(log)| || (step == Retry && HasReadable())
        decreases step == Retry, MAX_DISCARDED_PER_RECV - discarded + Live()
      {
        step, discarded := TryOnce(discarded, old(log), old(Live()));
      }
      idle := step == Idle;
    }

    static ghost function Armings(f: BoundSocket?): seq<bool>
      reads f, if f == null then {} else {f.wire}
    {
      if f == null then [] else f.wire.armings
    }

    static ghost function Removals(f: BoundSocket?): seq<bool>
      reads f, if f == null then {} else {f.wire}
    {
      if f == null then [] else f.wire.removals
    }

    static predicate Stale(f: BoundSocket?)
      reads f
    {
      f != null && f.interestStale
    }

    /** The last step of a tick: every registration a failed re-arm left behind is renewed, or the error is told. */
    method RetryStaleRegistrations() returns (ok: bool)
      requires Valid()
      modifies Repr() - {this, rotor}
      ensures Valid() && HasReadable() == old(HasReadable())
      ensures ok <==> !NeedsInterestRetry()
      ensures Armings(v4) == old(Armings(v4)) + (if old(Stale(v4)) then [!Stale(v4)] else [])
      ensures Armings(v6) == old(Armings(v6)) + (if old(Stale(v6)) then [!Stale(v6)] else [])
    {
      if !registry { return true; }
      var ok4, ok6 := true, true;
      if v4 != null { ok4 := v4.RetryStale(); }
      if v6 != null { ok6 := v6.RetryStale(); }
      ok := ok4 && ok6;
    }

    /** The receive side of a tick: hand back the error budget, drain, renew what is stale. */
    method Tick() returns (ok: bool, ghost served: nat)
      requires Valid()
      modifies Repr()
      ensures Valid()
      ensures Reads() <= old(Reads()) + RECV_BUDGET * MAX_DISCARDED_PER_RECV + 2
      ensures |old(log)| <= |log| && log[..|old(log)|] == old(log)
      ensures served == Datagrams(log[|old(log)|..]) <= RECV_BUDGET
      ensures old(Live()) > 0 ==> |log| > |old(log)|
      ensures served == RECV_BUDGET || Discards(log[|old(log)|..]) == MAX_DISCARDED_PER_RECV || !HasReadable()
      ensures ok <==> !NeedsInterestRetry()
    {
      ReadsAreLogged();
      BeginRecvRound();
      var read := DrainRecv();
      served := read;
      ok := RetryStaleRegistrations();
      ReadsAreLogged();
    }

    /**
     A refused or failed call leaves nothing registered, or, when the rollback itself was refused, IPv4 alone
     with everything needed to claim its events and remove it later.
     */
    method Register(token4: nat, token6: nat, cloned: bool)
        returns (error: Option<RegisterError>, ghost ok4: Option<bool>, ghost ok6: Option<bool>, ghost undone: Option<bool>)
      requires Valid()
      modifies Repr() - {rotor}
      ensures Valid() && log == old(log)
      ensures error == Some(SameToken) <==> token4 == token6
      ensures error == Some(AlreadyRegistered) <==> token4 != token6 && old(registry)
      ensures error == Some(CloneFailed) <==> token4 != token6 && !old(registry) && !cloned
      ensures Armings(v4) == old(Armings(v4)) + Outcome(ok4) && Armings(v6) == old(Armings(v6)) + Outcome(ok6)
      ensures Removals(v4) == old(Removals(v4)) + Outcome(undone) && Removals(v6) == old(Removals(v6))
      ensures ok4.Some? <==> token4 != token6 && !old(registry) && cloned && v4 != null
      ensures ok6.Some? <==> token4 != token6 && !old(registry) && cloned && v6 != null && ok4 != Some(false)
      ensures undone.Some? <==> ok6 == Some(false) && v4 != null
      ensures error == Some(SelectorRefused) <==> ok4 == Some(false) || ok6 == Some(false)
      ensures error.Some? && !old(registry) ==> (registry <==> undone == Some(false))
      ensures old(registry) ==> registry && tokens == old(tokens)
      ensures old(registry) ==> Held4() == old(Held4()) && Held6() == old(Held6())
      ensures error == None ==> registry && tokens == Some((token4, token6))
      ensures error == None ==> (v4 != null ==> v4.token == Some(token4)) && (v6 != null ==> v6.token == Some(token6))
      ensures error == Some(CloneFailed) || error == Some(SameToken) ==> registry == old(registry)
      ensures error.Some? && !old(registry) ==> Held6() == None
      ensures error.Some? && !old(registry) && registry ==>
        error == Some(SelectorRefused) && tokens == Some((token4, token6)) && Held4() == Some(token4)
    {
      ok4, ok6, undone := None, None, None;
      if token4 == token6 { return Some(SameToken), ok4, ok6, undone; }
      if registry { return Some(AlreadyRegistered), ok4, ok6, undone; }
      if !cloned { return Some(CloneFailed), ok4, ok6, undone; }
      if v4 != null {
        var ok := v4.Register(token4);
        ok4 := Some(ok);
        if !ok { return Some(SelectorRefused), ok4, ok6, undone; }
      }
      if v6 != null {
        var ok := v6.Register(token6);
        ok6 := Some(ok);
        if !ok {
          if v4 != null {
            var rolledBack := v4.Deregister();
            undone := Some(rolledBack);
            if !rolledBack { registry, tokens := true, Some((token4, token6)); }
          }
          return Some(SelectorRefused), ok4, ok6, undone;
        }
      }
      registry, tokens, error := true, Some((token4, token6)), None;
    }

    /** What a call that was made, or not, adds to the log of such calls. */
    static ghost function Outcome(ok: Option<bool>): seq<bool> {
      if ok == None then [] else [ok.value]
    }

    ghost function Held4(): Option<nat>
      reads v4
    {
      if v4 == null then None else v4.token
    }

    ghost function Held6(): Option<nat>
      reads v6
    {
      if v6 == null then None else v6.token
    }

    /** Both families are always attempted; what the selector did not confirm is kept, so a second call retries it. */
    method Deregister() returns (ok: bool, ghost ok4: Option<bool>, ghost ok6: Option<bool>)
      requires Valid()
      modifies Repr() - {rotor}
      ensures Valid() && log == old(log)
      ensures Removals(v4) == old(Removals(v4)) + Outcome(ok4) && (ok4.Some? <==> old(Held4()).Some?)
      ensures Removals(v6) == old(Removals(v6)) + Outcome(ok6) && (ok6.Some? <==> old(Held6()).Some?)
      ensures ok <==> ok4 != Some(false) && ok6 != Some(false)
      ensures ok ==> !registry && tokens == None && Held4() == None && Held6() == None
      ensures ok ==> (v4 != null ==> !v4.wire.registered) && (v6 != null ==> !v6.wire.registered)
      ensures !ok ==> registry && tokens == old(tokens) && (Held4().Some? || Held6().Some?)
      ensures Held4() == None || Held4() == old(Held4())
      ensures Held6() == None || Held6() == old(Held6())
    {
      ok4, ok6 := None, None;
      if !registry { return true, ok4, ok6; }
      var gone4, gone6 := true, true;
      if v4 != null {
        ghost var held := v4.token.Some?;
        gone4 := v4.Deregister();
        ok4 := if held then Some(gone4) else None;
      }
      if v6 != null {
        ghost var held := v6.token.Some?;
        gone6 := v6.Deregister();
        ok6 := if held then Some(gone6) else None;
      }
      ok := gone4 && gone6;
      if ok { registry, tokens := false, None; }
    }
  }
}
