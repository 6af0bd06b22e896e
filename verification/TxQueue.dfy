/**
 The fair transmit scheduler (hick-mio/src/driver.rs, stage 4).

 `Budget` is the arithmetic of one walk over the queue; `Waiting` is the queue seen across ticks as a plain
 list of senders, with the waiting bound proved over every run; `TxDriver` holds the classes the driver
 runs, proved to follow both.
 */
module Budget {
  import opened Basics

  const MAX_SEND_CREDITS_PER_DRAIN: nat := 64

  /** One turn of a walk: the quantum offered, what the sender spent of it, and whether it was cut off. */
  datatype Turn = Turn(quantum: nat, spent: nat, capped: bool)

  /** How the sender at a queue index answers the quantum it is offered. */
  type Visitor = (nat, nat) -> (nat, bool)

  ghost predicate Obedient(visit: Visitor) {
    forall i: nat, quantum: nat :: visit(i, quantum).0 <= quantum
  }

  /** A fair share of what is left, at least one credit and never more than there are. */
  function Quantum(remaining: nat, credits: nat): nat
    requires remaining > 0
  {
    Min(Max(credits / remaining, 1), credits)
  }

  /** The turns of a walk from queue index `from` on. */
  function Walk(from: nat, len: nat, credits: nat, visit: Visitor): seq<Turn>
    requires from <= len
    decreases len - from
  {
    if credits == 0 || from == len then []
    else
      var quantum := Quantum(len - from, credits);
      var (spent, capped) := visit(from, quantum);
      [Turn(quantum, spent, capped)]
      + Walk(from + 1, len, if spent <= credits then credits - spent else 0, visit)
  }

  function Spent(turns: seq<Turn>): nat {
    if turns == [] then 0 else turns[0].spent + Spent(turns[1..])
  }

  predicate AnyCapped(turns: seq<Turn>) {
    exists i :: 0 <= i < |turns| && turns[i].capped
  }

  lemma Euclid(a: nat, d: nat)
    requires d > 0
    ensures a == d * (a / d) + a % d && a % d < d
  {
  }

  lemma MulMonotone(k: nat, x: nat, y: nat)
    requires x <= y
    ensures k * x <= k * y
  {
  }

  /** The quotient as the greatest `q` with `d * q <= a`. */
  lemma QuotientIsGreatest(a: nat, d: nat, q: nat)
    requires d > 0
    ensures q <= a / d <==> d * q <= a
  {
    Euclid(a, d);
    if q <= a / d {
      MulMonotone(d, q, a / d);
    } else {
      MulMonotone(d, a / d + 1, q);
    }
  }

  lemma QuotientBounds(a: nat, d: nat)
    requires d > 0
    ensures (a / d >= 1 <==> a >= d) && a / d <= a
  {
    QuotientIsGreatest(a, d, 1);
    QuotientIsGreatest(a, d, a / d);
    MulMonotone(a / d, 1, d);
  }

  /** The division at the heart of the walk: a sender that keeps to its share leaves the others theirs. */
  lemma ShareLeavesShares(remaining: nat, credits: nat, spent: nat)
    requires remaining > 0 && credits > 0 && spent <= Quantum(remaining, credits)
    ensures 1 <= Quantum(remaining, credits) <= credits
    ensures Min(remaining - 1, credits - spent) + 1 >= Min(remaining, credits)
    ensures remaining > 1 && credits > spent ==>
      Quantum(remaining - 1, credits - spent) >= Quantum(remaining, credits)
  {
    var share := credits / remaining;
    QuotientBounds(credits, remaining);
    if remaining > 1 && credits >= remaining {
      QuotientIsGreatest(credits, remaining, share);
      assert remaining * share == (remaining - 1) * share + share;
      MulMonotone(remaining - 1, 1, share);
      QuotientIsGreatest(credits - spent, remaining - 1, share);
      QuotientBounds(credits - spent, remaining - 1);
    }
  }

  /** A quantum is the whole of what is left only for the last in line, or when a single credit is left. */
  lemma QuantumIsAllIff(remaining: nat, credits: nat)
    requires remaining > 0 && credits > 0
    ensures Quantum(remaining, credits) == credits <==> remaining == 1 || credits == 1
  {
    QuotientBounds(credits, remaining);
    if remaining > 1 {
      QuotientIsGreatest(credits, remaining, credits / remaining);
      MulMonotone(credits / remaining, 2, remaining);
    }
  }

  /** A quantum is the largest even share of what is left, or a single credit when that would be nothing. */
  lemma QuantumIsShare(remaining: nat, credits: nat)
    requires remaining > 0 && credits > 0
    ensures var q := Quantum(remaining, credits);
      if credits < remaining then q == 1 else remaining * q <= credits < remaining * (q + 1)
  {
    QuotientBounds(credits, remaining);
    QuotientIsGreatest(credits, remaining, credits / remaining);
    QuotientIsGreatest(credits, remaining, credits / remaining + 1);
  }

  /** Every turn keeps to its quantum, and no quantum is below `floor` or below the one before it. */
  ghost predicate Rising(turns: seq<Turn>, floor: nat) {
    turns == [] ||
    (floor <= turns[0].quantum && turns[0].spent <= turns[0].quantum && Rising(turns[1..], turns[0].quantum))
  }

  lemma {:induction false} RisingAt(turns: seq<Turn>, floor: nat)
    requires Rising(turns, floor)
    ensures forall i :: 0 <= i < |turns| ==> floor <= turns[i].quantum && turns[i].spent <= turns[i].quantum
    ensures forall i, j :: 0 <= i < j < |turns| ==> turns[i].quantum <= turns[j].quantum
  {
    if turns != [] {
      var rest := turns[1..];
      RisingAt(rest, turns[0].quantum);
      assert forall i :: 1 <= i < |turns| ==> turns[i] == rest[i - 1];
    }
  }

  lemma {:induction false} WalkRises(from: nat, len: nat, credits: nat, visit: Visitor, floor: nat)
    requires from <= len && Obedient(visit)
    requires from < len && credits > 0 ==> floor <= Quantum(len - from, credits)
    ensures Rising(Walk(from, len, credits, visit), floor)
    decreases len - from
  {
    if credits > 0 && from < len {
      var quantum := Quantum(len - from, credits);
      var spent := visit(from, quantum).0;
      ShareLeavesShares(len - from, credits, spent);
      WalkRises(from + 1, len, credits - spent, visit, quantum);
    }
  }

  lemma {:induction false} WalkSpends(from: nat, len: nat, credits: nat, visit: Visitor)
    requires from <= len && Obedient(visit)
    ensures var turns := Walk(from, len, credits, visit);
      && Spent(turns) <= credits
      && Min(len - from, credits) <= |turns| <= len - from
      && (|turns| < len - from ==> Spent(turns) == credits)
    decreases len - from
  {
    if credits > 0 && from < len {
      var spent := visit(from, Quantum(len - from, credits)).0;
      ShareLeavesShares(len - from, credits, spent);
      WalkSpends(from + 1, len, credits - spent, visit);
    }
  }

  /** An even share of the budget, rounded down, but never nothing. */
  function FairShare(len: nat, credits: nat): nat {
    if len == 0 then 1 else Max(1, credits / len)
  }

  lemma FairShareIsFirstQuantum(len: nat, credits: nat)
    requires len > 0 && credits > 0
    ensures FairShare(len, credits) == Quantum(len, credits)
  {
    QuotientBounds(credits, len);
  }

  /**
   One walk, whatever the senders do with their turns: the budget is never overspent; at least
   `min(senders, credits)` senders are offered a turn; the quantum offered never shrinks, so each gets at
   least the larger of one credit and an even share; and a walk stopped early has no credit left.
   */
  lemma WalkIsFair(len: nat, credits: nat, visit: Visitor)
    requires Obedient(visit)
    ensures var turns := Walk(0, len, credits, visit);
      && Spent(turns) <= credits
      && Min(len, credits) <= |turns| <= len
      && (forall i :: 0 <= i < |turns| ==> turns[i].spent <= turns[i].quantum)
      && (forall i :: 0 <= i < |turns| ==> turns[i].quantum >= Max(1, if len == 0 then 0 else credits / len))
      && (forall i, j :: 0 <= i < j < |turns| ==> turns[i].quantum <= turns[j].quantum)
      && (|turns| < len ==> Spent(turns) == credits)
  {
    WalkSpends(0, len, credits, visit);
    WalkRisesFromShare(len, credits, visit);
    RisingAt(Walk(0, len, credits, visit), FairShare(len, credits));
  }

  lemma WalkRisesFromShare(len: nat, credits: nat, visit: Visitor)
    requires Obedient(visit)
    ensures Rising(Walk(0, len, credits, visit), FairShare(len, credits))
  {
    if len > 0 && credits > 0 {
      FairShareIsFirstQuantum(len, credits);
      WalkRises(0, len, credits, visit, FairShare(len, credits));
    }
  }

  /**
   Turn by turn: the sender at `i` is offered what is left, divided by those still to come, at least one credit and at
   most all of it; what it makes of that is its turn; and the walk goes on while there is credit left.
   */
  lemma {:induction false} WalkAt(from: nat, len: nat, credits: nat, visit: Visitor, i: nat)
    requires from <= len && Obedient(visit) && i <= |Walk(from, len, credits, visit)|
    ensures var turns := Walk(from, len, credits, visit);
      var left := credits - Spent(turns[..i]);
      if i == |turns| then left == 0 || i == len - from
      else
        && left > 0 && i < len - from && turns[i].quantum == Quantum(len - from - i, left)
        && (turns[i].spent, turns[i].capped) == visit(from + i, turns[i].quantum)
    decreases len - from
  {
    if i > 0 {
      var turns := Walk(from, len, credits, visit);
      ShareLeavesShares(len - from, credits, turns[0].spent);
      WalkAt(from + 1, len, credits - turns[0].spent, visit, i - 1);
      assert turns[..i] == [turns[0]] + turns[1..][..i - 1];
    }
  }

  /** Whether the walk must be followed by another at once. */
  predicate LeftWorkBehind(turns: seq<Turn>, credits: nat) {
    Spent(turns) >= credits || AnyCapped(turns)
  }

  /** When nothing was left behind, every sender had its turn and none was cut off. */
  lemma NothingLeftMeansAllServed(len: nat, credits: nat, visit: Visitor)
    requires Obedient(visit)
    ensures var turns := Walk(0, len, credits, visit);
      && (LeftWorkBehind(turns, credits) <==> Spent(turns) == credits || exists i :: 0 <= i < |turns| && turns[i].capped)
      && (!LeftWorkBehind(turns, credits) ==> |turns| == len && forall i :: 0 <= i < len ==> !turns[i].capped)
  {
    WalkIsFair(len, credits, visit);
  }

  // ----- Everyone busy -----

  /** Every sender has more to send than any quantum: it uses all of its turn and is cut off. */
  const GREEDY: Visitor := (i, quantum) => (quantum, true)

  lemma {:induction false} GreedyTurnsCost(from: nat, len: nat, credits: nat)
    requires from <= len
    ensures |Walk(from, len, credits, GREEDY)| <= credits
    decreases len - from
  {
    if credits > 0 && from < len {
      var quantum := Quantum(len - from, credits);
      QuotientBounds(credits, len - from);
      GreedyTurnsCost(from + 1, len, credits - quantum);
    }
  }

  /** When everyone is busy the walk serves as many senders as it has credits, and no more. */
  lemma GreedyWalk(len: nat, credits: nat)
    ensures Obedient(GREEDY) && |Walk(0, len, credits, GREEDY)| == Min(len, credits)
  {
    GreedyTurnsCost(0, len, credits);
    WalkSpends(0, len, credits, GREEDY);
  }

  // ----- One busy sender among idle ones -----

  /** Only the sender at `busy` has anything to send, and it always has more. */
  ghost predicate LoneBusy(visit: Visitor, busy: nat) {
    forall i: nat, quantum: nat :: visit(i, quantum).0 == if i == busy then quantum else 0
  }

  lemma {:induction false} LoneBusyQuantum(from: nat, len: nat, credits: nat, visit: Visitor, busy: nat)
    requires from <= busy < len && credits > 0 && LoneBusy(visit, busy)
    ensures var turns := Walk(from, len, credits, visit);
      |turns| > busy - from && turns[busy - from].quantum == turns[busy - from].spent == Quantum(len - busy, credits)
    decreases len - from
  {
    if from < busy {
      LoneBusyQuantum(from + 1, len, credits, visit, busy);
      var turns := Walk(from, len, credits, visit);
      assert turns[1..] == Walk(from + 1, len, credits, visit);
      assert turns[busy - from] == turns[1..][busy - from - 1];
    }
  }

  /**
   A single busy sender gets the whole budget exactly when no idle sender stands behind it (or the budget is
   a single credit); otherwise the shares of the idle senders behind it go unused this tick.
   */
  lemma LoneBusySenderGetsAllIffLast(len: nat, credits: nat, visit: Visitor, busy: nat)
    requires busy < len && credits > 0 && LoneBusy(visit, busy)
    ensures |Walk(0, len, credits, visit)| > busy
    ensures Walk(0, len, credits, visit)[busy].spent == credits <==> busy == len - 1 || credits == 1
  {
    LoneBusyQuantum(0, len, credits, visit, busy);
    QuantumIsAllIff(len - busy, credits);
  }

  /** The budget's own figure: with one idle sender behind it, a busy sender is held to 32 of 64 credits. */
  lemma LoneBusySenderHalved(visit: Visitor)
    requires LoneBusy(visit, 0)
    ensures Walk(0, 2, MAX_SEND_CREDITS_PER_DRAIN, visit)[0].spent == 32
  {
  }
}

/** The queue across ticks: senders in the order they are waiting. */
module Waiting {
  import opened Basics
  import opened Budget

  /** A participant: a registered service or a running query. Both kinds wait in one line. */
  datatype TxSlot = Service(service: nat) | Query(query: nat)

  function Remove(line: seq<TxSlot>, gone: set<TxSlot>): seq<TxSlot> {
    if line == [] then []
    else if line[0] in gone then Remove(line[1..], gone)
    else [line[0]] + Remove(line[1..], gone)
  }

  /** After a tick that offered `visited` turns: the unvisited first, then the visited, without the retired. */
  function AfterTick(line: seq<TxSlot>, visited: nat, retired: set<TxSlot>): seq<TxSlot>
    requires visited <= |line|
  {
    Remove(line[visited..] + line[..visited], retired)
  }

  datatype Act = Join(newcomer: TxSlot) | Cancel(leaver: TxSlot) | Tick(visited: nat, retired: set<TxSlot>)

  ghost predicate Allowed(line: seq<TxSlot>, act: Act) {
    match act
    case Join(s) => s !in line
    case Cancel(_) => true
    case Tick(visited, _) => Min(|line|, MAX_SEND_CREDITS_PER_DRAIN) <= visited <= |line|
  }

  function Apply(line: seq<TxSlot>, act: Act): seq<TxSlot>
    requires act.Tick? ==> act.visited <= |line|
  {
    match act
    case Join(s) => line + [s]
    case Cancel(s) => Remove(line, {s})
    case Tick(visited, retired) => AfterTick(line, visited, retired)
  }

  /** The number of senders ahead of `v`. */
  function Ahead(line: seq<TxSlot>, v: TxSlot): nat
    requires v in line
  {
    if line[0] == v then 0 else 1 + Ahead(line[1..], v)
  }

  /** `a` waits ahead of `b`. */
  ghost predicate Before(line: seq<TxSlot>, a: TxSlot, b: TxSlot) {
    line != [] && ((line[0] == a && b in line[1..]) || Before(line[1..], a, b))
  }

  lemma {:induction false} RemoveHas(line: seq<TxSlot>, gone: set<TxSlot>, s: TxSlot)
    ensures s in Remove(line, gone) <==> s in line && s !in gone
  {
    if line != [] {
      RemoveHas(line[1..], gone, s);
      assert line == [line[0]] + line[1..];
    }
  }

  /** Whoever is not removed keeps its place among the others. */
  lemma {:induction false} RemoveKeepsBefore(line: seq<TxSlot>, gone: set<TxSlot>, a: TxSlot, b: TxSlot)
    requires a !in gone && b !in gone
    ensures Before(Remove(line, gone), a, b) <==> Before(line, a, b)
  {
    if line != [] {
      RemoveKeepsBefore(line[1..], gone, a, b);
      RemoveHas(line[1..], gone, b);
    }
  }

  /** `v` neither leaves nor is offered a turn. */
  ghost predicate Passes(line: seq<TxSlot>, act: Act, v: TxSlot) {
    && v in line
    && match act
       case Join(_) => true
       case Cancel(s) => s != v
       case Tick(visited, retired) => visited <= Ahead(line, v) && v !in retired
  }

  ghost predicate IsRun(lines: seq<seq<TxSlot>>, acts: seq<Act>) {
    && |lines| == |acts| + 1
    && forall i :: 0 <= i < |acts| ==> Allowed(lines[i], acts[i]) && lines[i + 1] == Apply(lines[i], acts[i])
  }

  function Ticks(acts: seq<Act>): nat {
    if acts == [] then 0 else Ticks(acts[..|acts| - 1]) + (if acts[|acts| - 1].Tick? then 1 else 0)
  }

  lemma {:induction false} AheadAt(line: seq<TxSlot>, v: TxSlot)
    requires v in line
    ensures Ahead(line, v) < |line| && line[Ahead(line, v)] == v
  {
    if line[0] != v { AheadAt(line[1..], v); }
  }

  lemma {:induction false} AheadAppend(line: seq<TxSlot>, tail: seq<TxSlot>, v: TxSlot)
    requires v in line
    ensures v in line + tail && Ahead(line + tail, v) == Ahead(line, v)
  {
    assert (line + tail)[0] == line[0];
    if line[0] != v {
      assert (line + tail)[1..] == line[1..] + tail;
      AheadAppend(line[1..], tail, v);
    }
  }

  lemma {:induction false} AheadDrop(line: seq<TxSlot>, n: nat, v: TxSlot)
    requires v in line && n <= Ahead(line, v)
    ensures n <= |line| && v in line[n..] && Ahead(line[n..], v) == Ahead(line, v) - n
  {
    AheadAt(line, v);
    if n == 0 {
      assert line[0..] == line;
    } else {
      assert line[0] != v;
      AheadDrop(line[1..], n - 1, v);
      assert line[1..][n - 1..] == line[n..];
    }
  }

  lemma {:induction false} AheadRemove(line: seq<TxSlot>, gone: set<TxSlot>, v: TxSlot)
    requires v in line && v !in gone
    ensures v in Remove(line, gone) && Ahead(Remove(line, gone), v) <= Ahead(line, v)
  {
    if line[0] != v {
      AheadRemove(line[1..], gone, v);
      if line[0] !in gone {
        assert Remove(line, gone)[1..] == Remove(line[1..], gone);
      }
    }
  }

  /** Nothing a caller does puts a sender further back, and a tick that passes it over moves it up a whole budget. */
  lemma WaitNeverGrows(line: seq<TxSlot>, act: Act, v: TxSlot)
    requires Allowed(line, act) && Passes(line, act, v)
    ensures v in Apply(line, act)
    ensures Ahead(Apply(line, act), v) <= Ahead(line, v) - (if act.Tick? then MAX_SEND_CREDITS_PER_DRAIN else 0)
  {
    match act
    case Join(s) => AheadAppend(line, [s], v);
    case Cancel(s) => AheadRemove(line, {s}, v);
    case Tick(visited, retired) =>
      AheadAt(line, v);
      AheadDrop(line, visited, v);
      AheadAppend(line[visited..], line[..visited], v);
      AheadRemove(line[visited..] + line[..visited], retired, v);
  }

  /**
   Bounded waiting over every run. As long as a sender with `p` senders ahead of it has not been offered a
   turn, at most `p / 64` ticks have gone by, whatever registrations, cancellations and retirements came
   between: its turn comes within `p / 64 + 1` ticks.
   */
  lemma {:induction false} BoundedWaiting(lines: seq<seq<TxSlot>>, acts: seq<Act>, v: TxSlot)
    requires IsRun(lines, acts)
    requires v in lines[0]
    requires forall i :: 0 <= i < |acts| ==> Passes(lines[i], acts[i], v)
    ensures v in lines[|acts|]
    ensures Ahead(lines[|acts|], v) + Ticks(acts) * MAX_SEND_CREDITS_PER_DRAIN <= Ahead(lines[0], v)
    ensures Ticks(acts) <= Ahead(lines[0], v) / MAX_SEND_CREDITS_PER_DRAIN
    decreases |acts|
  {
    if acts != [] {
      var n := |acts| - 1;
      var frontLines, front := lines[..n + 1], acts[..n];
      assert IsRun(frontLines, front);
      assert forall i :: 0 <= i < n ==> Passes(frontLines[i], front[i], v);
      BoundedWaiting(frontLines, front, v);
      WaitNeverGrows(lines[n], acts[n], v);
    }
  }

  // ----- The bound is exact -----

  /** A tick in which every sender has more to send than its quantum, as the budget walk serves it. */
  ghost predicate Saturated(line: seq<TxSlot>, act: Act) {
    act == Tick(|Walk(0, |line|, MAX_SEND_CREDITS_PER_DRAIN, GREEDY)|, {})
  }

  lemma {:induction false} RemoveNothing(line: seq<TxSlot>)
    ensures Remove(line, {}) == line
  {
    if line != [] { RemoveNothing(line[1..]); }
  }

  lemma SaturatedTick(line: seq<TxSlot>, v: TxSlot)
    requires v in line && Ahead(line, v) >= MAX_SEND_CREDITS_PER_DRAIN
    ensures MAX_SEND_CREDITS_PER_DRAIN < |line|
    ensures var after := AfterTick(line, MAX_SEND_CREDITS_PER_DRAIN, {});
      |after| == |line| && v in after && Ahead(after, v) == Ahead(line, v) - MAX_SEND_CREDITS_PER_DRAIN
  {
    AheadAt(line, v);
    AheadDrop(line, MAX_SEND_CREDITS_PER_DRAIN, v);
    AheadAppend(line[MAX_SEND_CREDITS_PER_DRAIN..], line[..MAX_SEND_CREDITS_PER_DRAIN], v);
    RemoveNothing(line[MAX_SEND_CREDITS_PER_DRAIN..] + line[..MAX_SEND_CREDITS_PER_DRAIN]);
  }

  /** Under saturation a sender with `p` ahead is passed over in exactly the first `p / 64` ticks. */
  lemma {:induction false} SaturationMeetsTheBound(line: seq<TxSlot>, v: TxSlot)
      returns (lines: seq<seq<TxSlot>>, acts: seq<Act>)
    requires v in line
    ensures IsRun(lines, acts) && lines[0] == line
    ensures forall i :: 0 <= i < |acts| ==> Saturated(lines[i], acts[i]) && Passes(lines[i], acts[i], v)
    ensures |acts| == Ticks(acts) == Ahead(line, v) / MAX_SEND_CREDITS_PER_DRAIN
    ensures v in lines[|acts|] && Ahead(lines[|acts|], v) < MAX_SEND_CREDITS_PER_DRAIN
    decreases Ahead(line, v)
  {
    if Ahead(line, v) < MAX_SEND_CREDITS_PER_DRAIN {
      lines, acts := [line], [];
    } else {
      SaturatedTick(line, v);
      GreedyWalk(|line|, MAX_SEND_CREDITS_PER_DRAIN);
      var act := Tick(MAX_SEND_CREDITS_PER_DRAIN, {});
      var ls, rest := SaturationMeetsTheBound(Apply(line, act), v);
      lines, acts := [line] + ls, [act] + rest;
      TicksCons(act, rest);
      forall i | 0 <= i < |acts|
        ensures Saturated(lines[i], acts[i]) && Passes(lines[i], acts[i], v) && Allowed(lines[i], acts[i])
        ensures lines[i + 1] == Apply(lines[i], acts[i])
      {
        if i > 0 {
          assert lines[i] == ls[i - 1] && acts[i] == rest[i - 1] && lines[i + 1] == ls[i];
        }
      }
    }
  }

  lemma {:induction false} TicksCons(act: Act, acts: seq<Act>)
    ensures Ticks([act] + acts) == (if act.Tick? then 1 else 0) + Ticks(acts)
  {
    var all := [act] + acts;
    if acts != [] {
      assert all[..|all| - 1] == [act] + acts[..|acts| - 1];
      TicksCons(act, acts[..|acts| - 1]);
    } else {
      assert all[..0] == [];
    }
  }

  function CeilDiv(a: nat, d: nat): nat
    requires d > 0
  {
    (a + d - 1) / d
  }

  /** A run from `line` in which `v` is never offered a turn. */
  ghost predicate PassesOver(lines: seq<seq<TxSlot>>, acts: seq<Act>, line: seq<TxSlot>, v: TxSlot) {
    IsRun(lines, acts) && lines[0] == line && forall i :: 0 <= i < |acts| ==> Passes(lines[i], acts[i], v)
  }

  /** What the type's documentation promises a sender: its turn comes within `ceil(p / 64)` ticks. */
  ghost predicate ServedAsDocumented(line: seq<TxSlot>, v: TxSlot)
    requires v in line
  {
    forall lines, acts :: PassesOver(lines, acts, line, v) ==>
      Ticks(acts) < CeilDiv(Ahead(line, v), MAX_SEND_CREDITS_PER_DRAIN)
  }

  lemma DocumentedBoundIsOneShort(p: nat)
    ensures p / MAX_SEND_CREDITS_PER_DRAIN < CeilDiv(p, MAX_SEND_CREDITS_PER_DRAIN)
      <==> p % MAX_SEND_CREDITS_PER_DRAIN != 0
  {
  }

  /**
   The documented bound holds over every run exactly when 64 does not divide the number of senders ahead. When it
   does, a run of saturated ticks passes the sender over once more than the documentation allows.
   */
  lemma DocumentedBoundIffNotMultiple(line: seq<TxSlot>, v: TxSlot)
    requires v in line
    ensures ServedAsDocumented(line, v) <==> Ahead(line, v) % MAX_SEND_CREDITS_PER_DRAIN != 0
  {
    var p := Ahead(line, v);
    DocumentedBoundIsOneShort(p);
    forall lines, acts | PassesOver(lines, acts, line, v)
      ensures Ticks(acts) <= p / MAX_SEND_CREDITS_PER_DRAIN
    {
      BoundedWaiting(lines, acts, v);
    }
    var lines, acts := SaturationMeetsTheBound(line, v);
    assert PassesOver(lines, acts, line, v);
  }
}
