/** Stage 4 as the driver runs it: the walk, the sequences that are the queue, and each sender's turn. */
module TxDriver {
  import opened Answers
  import opened Basics
  import opened Budget
  import opened Waiting

  // ----- Sorting by sequence -----

  function Insert<T>(x: (nat, T), s: seq<(nat, T)>): seq<(nat, T)> {
    if s == [] || x.0 <= s[0].0 then [x] + s else [s[0]] + Insert(x, s[1..])
  }

  function SortBySeq<T>(s: seq<(nat, T)>): (r: seq<(nat, T)>) {
    if s == [] then [] else Insert(s[0], SortBySeq(s[1..]))
  }

  ghost predicate Ascending<T>(s: seq<(nat, T)>) {
    forall i, j :: 0 <= i < j < |s| ==> s[i].0 < s[j].0
  }

  ghost predicate DistinctKeys<T>(s: seq<(nat, T)>) {
    forall i, j :: 0 <= i < j < |s| ==> s[i].0 != s[j].0
  }

  ghost predicate Above<T>(s: seq<(nat, T)>, n: nat) {
    forall i :: 0 <= i < |s| ==> n < s[i].0
  }

  ghost predicate Lacks<T>(s: seq<(nat, T)>, n: nat) {
    forall i :: 0 <= i < |s| ==> s[i].0 != n
  }

  lemma {:induction false} InsertAscends<T>(x: (nat, T), s: seq<(nat, T)>)
    requires Ascending(s) && Lacks(s, x.0)
    ensures Ascending(Insert(x, s))
    ensures forall n: nat :: Above(s, n) && n < x.0 ==> Above(Insert(x, s), n)
    ensures forall n: nat :: Lacks(s, n) && n != x.0 ==> Lacks(Insert(x, s), n)
    ensures forall y :: y in Insert(x, s) <==> y == x || y in s
    ensures |Insert(x, s)| == |s| + 1
  {
    if s == [] || x.0 <= s[0].0 {
      assert Insert(x, s) == [x] + s;
    } else {
      var tail := s[1..];
      assert forall i :: 0 <= i < |tail| ==> tail[i] == s[i + 1];
      InsertAscends(x, tail);
      assert forall y :: y in s <==> y == s[0] || y in tail;
      assert Above(tail, s[0].0);
      assert forall n: nat :: Above(s, n) ==> Above(tail, n);
      assert forall n: nat :: Lacks(s, n) ==> Lacks(tail, n);
    }
  }

  lemma {:induction false} SortAscends<T>(s: seq<(nat, T)>)
    requires DistinctKeys(s)
    ensures Ascending(SortBySeq(s))
    ensures forall n: nat :: Lacks(s, n) ==> Lacks(SortBySeq(s), n)
    ensures forall y :: y in SortBySeq(s) <==> y in s
    ensures |SortBySeq(s)| == |s|
  {
    if s != [] {
      var tail := s[1..];
      assert forall i :: 0 <= i < |tail| ==> tail[i] == s[i + 1];
      SortAscends(tail);
      assert Lacks(tail, s[0].0);
      assert forall n: nat :: Lacks(s, n) ==> Lacks(tail, n);
      InsertAscends(s[0], SortBySeq(tail));
    }
  }

  lemma {:induction false} SortKeepsLength<T>(s: seq<(nat, T)>)
    ensures |SortBySeq(s)| == |s|
  {
    if s != [] {
      SortKeepsLength(s[1..]);
      InsertLength(s[0], SortBySeq(s[1..]));
    }
  }

  lemma {:induction false} InsertLength<T>(x: (nat, T), s: seq<(nat, T)>)
    ensures |Insert(x, s)| == |s| + 1
  {
    if s != [] && x.0 > s[0].0 { InsertLength(x, s[1..]); }
  }

  // ----- One walk -----

  /** The running state of one walk down the sorted line: how far it has come, and the budget still unspent. */
  class TxSchedule {
    const len: nat
    var visited: nat
    var credits: nat
    var capped: bool

    constructor (len: nat, credits: nat)
      ensures this.len == len && visited == 0 && this.credits == credits && !capped
    {
      this.len, this.credits := len, credits;
      visited, capped := 0, false;
    }

    method NextSlot() returns (slot: Option<(nat, nat)>)
      requires visited <= len
      ensures slot == None <==> credits == 0 || visited == len
      ensures slot.Some? ==> slot.value == (visited, Quantum(len - visited, credits))
    {
      if credits == 0 || visited >= len {
        return None;
      }
      return Some((visited, Quantum(len - visited, credits)));
    }

    method Charge(spent: nat, capped: bool)
      modifies this`visited, this`credits, this`capped
      ensures visited == old(visited) + 1
      ensures credits == if spent <= old(credits) then old(credits) - spent else 0
      ensures this.capped <==> old(this.capped) || capped
    {
      credits := if spent <= credits then credits - spent else 0;
      visited := visited + 1;
      this.capped := this.capped || capped;
    }

    predicate LeftWorkBehind()
      reads this
    {
      credits == 0 || capped
    }
  }

  lemma {:induction false} SpentAppend(turns: seq<Turn>, t: Turn)
    ensures Spent(turns + [t]) == Spent(turns) + t.spent
  {
    if turns != [] {
      assert (turns + [t])[1..] == turns[1..] + [t];
      SpentAppend(turns[1..], t);
    }
  }

  /** How far a walk has got: the turns so far, and the schedule's fields after them. */
  ghost predicate Underway(turns: seq<Turn>, len: nat, credits: nat, visit: Visitor, left: nat, capped: bool) {
    && |turns| <= len
    && turns + Walk(|turns|, len, left, visit) == Walk(0, len, credits, visit)
    && Spent(turns) + left == credits
    && (capped <==> AnyCapped(turns))
  }

  lemma StepUnderway(turns: seq<Turn>, len: nat, credits: nat, visit: Visitor, left: nat, capped: bool)
    requires Obedient(visit) && Underway(turns, len, credits, visit, left, capped)
    requires left > 0 && |turns| < len
    ensures var quantum := Quantum(len - |turns|, left);
      var (spent, cut) := visit(|turns|, quantum);
      && spent <= left
      && Underway(turns + [Turn(quantum, spent, cut)], len, credits, visit, left - spent, capped || cut)
  {
    var quantum := Quantum(len - |turns|, left);
    var (spent, cut) := visit(|turns|, quantum);
    var turn := Turn(quantum, spent, cut);
    SpentAppend(turns, turn);
    CappedAppend(turns, turn);
    Concat3(turns, [turn], Walk(|turns| + 1, len, left - spent, visit));
  }

  lemma CappedAppend(turns: seq<Turn>, turn: Turn)
    ensures AnyCapped(turns + [turn]) <==> AnyCapped(turns) || turn.capped
  {
    var after := turns + [turn];
    assert after[|turns|] == turn && forall i :: 0 <= i < |turns| ==> after[i] == turns[i];
  }

  lemma WalkBegins(len: nat, credits: nat, visit: Visitor)
    ensures Underway([], len, credits, visit, credits, false)
  {
    assert [] + Walk(0, len, credits, visit) == Walk(0, len, credits, visit);
  }

  lemma WalkEnds(turns: seq<Turn>, len: nat, credits: nat, visit: Visitor, left: nat, capped: bool)
    requires Underway(turns, len, credits, visit, left, capped) && (left == 0 || |turns| == len)
    ensures turns == Walk(0, len, credits, visit)
    ensures LeftWorkBehind(turns, credits) <==> left == 0 || capped
  {
    assert turns + [] == turns;
  }

  method SortInPlace<T>(queue: array<(nat, T)>)
    modifies queue
    ensures queue[..] == SortBySeq(old(queue[..]))
  {
    SortKeepsLength(queue[..]);
    var sorted := SortBySeq(queue[..]);
    forall i | 0 <= i < queue.Length {
      queue[i] := sorted[i];
    }
  }

  /** The only source of queue position: every sequence issued is larger than all before it. */
  class TxQueue {
    var nextSeq: nat

    constructor ()
      ensures nextSeq == 0
    {
      nextSeq := 0;
    }

    method Join() returns (seqNo: nat)
      modifies this`nextSeq
      ensures seqNo == old(nextSeq) && nextSeq == old(nextSeq) + 1
    {
      seqNo := nextSeq;
      nextSeq := nextSeq + 1;
    }

    /**
     Serves one tick's share of the queue. Turn `i` goes to the sender with the `i`-th lowest sequence, under
     the quantum of `Walk`, and puts it back at the tail with sequence `old(nextSeq) + i`.
     */
    method Serve<T>(queue: array<(nat, T)>, credits: nat, visit: Visitor) returns (turns: seq<Turn>, left: bool)
      requires Obedient(visit)
      modifies this, queue
      ensures queue[..] == SortBySeq(old(queue[..]))
      ensures turns == Walk(0, queue.Length, credits, visit)
      ensures nextSeq == old(nextSeq) + |turns|
      ensures left <==> LeftWorkBehind(turns, credits)
    {
      SortInPlace(queue);
      turns, left := OfferTurns(queue.Length, credits, visit);
    }

    /** One sender's turn: it takes a place at the tail, and what it sends is charged. */
    method OfferTurn(schedule: TxSchedule, idx: nat, quantum: nat, visit: Visitor) returns (turn: Turn)
      modifies this`nextSeq, schedule`visited, schedule`credits, schedule`capped
      ensures turn == Turn(quantum, visit(idx, quantum).0, visit(idx, quantum).1)
      ensures nextSeq == old(nextSeq) + 1 && schedule.visited == old(schedule.visited) + 1
      ensures schedule.credits == if turn.spent <= old(schedule.credits) then old(schedule.credits) - turn.spent else 0
      ensures schedule.capped <==> old(schedule.capped) || turn.capped
    {
      var _ := Join();
      var (spent, capped) := visit(idx, quantum);
      schedule.Charge(spent, capped);
      turn := Turn(quantum, spent, capped);
    }

    method OfferTurns(len: nat, credits: nat, visit: Visitor) returns (turns: seq<Turn>, left: bool)
      requires Obedient(visit)
      modifies this
      ensures turns == Walk(0, len, credits, visit)
      ensures nextSeq == old(nextSeq) + |turns|
      ensures left <==> LeftWorkBehind(turns, credits)
    {
      var schedule := new TxSchedule(len, credits);
      turns := [];
      WalkBegins(len, credits, visit);
      while true
        invariant schedule.visited == |turns| && schedule.len == len
        invariant Underway(turns, len, credits, visit, schedule.credits, schedule.capped)
        invariant nextSeq == old(nextSeq) + |turns|
        decreases len - |turns|
      {
        var slot := schedule.NextSlot();
        if slot == None { break; }
        StepUnderway(turns, len, credits, visit, schedule.credits, schedule.capped);
        var turn := OfferTurn(schedule, slot.value.0, slot.value.1, visit);
        turns := turns + [turn];
      }
      WalkEnds(turns, len, credits, visit, schedule.credits, schedule.capped);
      left := schedule.LeftWorkBehind();
    }
  }

  // ----- The queue is the sequences -----

  /** `line` lists the senders by ascending sequence. */
  ghost predicate IsLine(line: seq<TxSlot>, ctx: map<TxSlot, nat>) {
    && (forall s :: s in ctx <==> s in line)
    && (forall i, j :: 0 <= i < j < |line| ==> ctx[line[i]] < ctx[line[j]])
  }

  /** The sequences determine the line. */
  lemma {:induction false} LineIsUnique(a: seq<TxSlot>, b: seq<TxSlot>, ctx: map<TxSlot, nat>)
    requires IsLine(a, ctx) && IsLine(b, ctx)
    ensures a == b
    decreases |a|
  {
    if b != [] { LineHead(b, ctx); }
    if a != [] {
      LineHead(a, ctx);
      assert a[0] in b && b[0] in a;
      assert a[0] == b[0];
      LineTail(a, ctx);
      LineTail(b, ctx);
      LineIsUnique(a[1..], b[1..], ctx - {a[0]});
    }
  }

  lemma LineHead(line: seq<TxSlot>, ctx: map<TxSlot, nat>)
    requires IsLine(line, ctx) && line != []
    ensures line[0] in ctx
  {
    assert line[0] in line;
  }

  lemma LineTail(line: seq<TxSlot>, ctx: map<TxSlot, nat>)
    requires IsLine(line, ctx) && line != []
    ensures IsLine(line[1..], ctx - {line[0]})
  {
    assert forall i :: 0 <= i < |line[1..]| ==> line[1..][i] == line[i + 1];
    forall s
      ensures s in ctx - {line[0]} <==> s in line[1..]
    {
      if s in ctx - {line[0]} {
        var i :| 0 <= i < |line| && line[i] == s;
        assert line[1..][i - 1] == s;
      }
    }
  }

  /** The senders a walk visits and that retire during their turn, by queue index. */
  ghost function Retiring(line: seq<TxSlot>, visited: nat, retires: nat -> bool): set<TxSlot>
    requires visited <= |line|
  {
    if visited == 0 then {}
    else Retiring(line, visited - 1, retires)
         + (if line[visited - 1].Query? && retires(visited - 1) then {line[visited - 1]} else {})
  }

  lemma {:induction false} RetiringAre(line: seq<TxSlot>, visited: nat, retires: nat -> bool, s: TxSlot)
    requires visited <= |line|
    ensures s in Retiring(line, visited, retires) <==>
      s.Query? && exists i :: 0 <= i < visited && line[i] == s && retires(i)
  {
    if visited > 0 { RetiringAre(line, visited - 1, retires, s); }
  }

  /**
   A stage that offered the first `visited` senders a turn: it loses exactly the queries that retired in theirs, and
   the others stand with the unvisited first, then the visited, each as they stood.
   */
  ghost predicate StageTurned(before: seq<TxSlot>, after: seq<TxSlot>, visited: nat, retires: nat -> bool)
    requires visited <= |before|
  {
    && (forall s :: s in after <==>
          s in before && !(s.Query? && exists i :: 0 <= i < visited && before[i] == s && retires(i)))
    && (forall a, b :: a in after && b in after ==>
          (Before(after, a, b) <==> Before(before[visited..] + before[..visited], a, b)))
  }

  lemma TickTurnsStage(line: seq<TxSlot>, visited: nat, retires: nat -> bool)
    requires visited <= |line|
    ensures StageTurned(line, AfterTick(line, visited, Retiring(line, visited, retires)), visited, retires)
  {
    var gone, turned := Retiring(line, visited, retires), line[visited..] + line[..visited];
    forall s
      ensures s in Remove(turned, gone) <==> s in line && s !in gone
      ensures s in gone <==> s.Query? && exists i :: 0 <= i < visited && line[i] == s && retires(i)
    {
      RetiringAre(line, visited, retires, s);
      TurnedHasAll(line, visited, s);
      RemoveHas(turned, gone, s);
    }
    forall a, b | a !in gone && b !in gone
      ensures Before(Remove(turned, gone), a, b) <==> Before(turned, a, b)
    {
      RemoveKeepsBefore(turned, gone, a, b);
    }
  }

  lemma CancelKeepsOthers(line: seq<TxSlot>, slot: TxSlot)
    ensures forall s :: s in Remove(line, {slot}) <==> s in line && s != slot
    ensures forall a, b :: a != slot && b != slot ==> (Before(Remove(line, {slot}), a, b) <==> Before(line, a, b))
  {
    forall s
      ensures s in Remove(line, {slot}) <==> s in line && s != slot
    {
      RemoveHas(line, {slot}, s);
    }
    forall a, b | a != slot && b != slot
      ensures Before(Remove(line, {slot}), a, b) <==> Before(line, a, b)
    {
      RemoveKeepsBefore(line, {slot}, a, b);
    }
  }

  /** The sequences once the first `visited` of the line have drawn fresh ones from `start` on. */
  ghost function Requeued(line: seq<TxSlot>, ctx: map<TxSlot, nat>, visited: nat, start: nat): map<TxSlot, nat>
    requires visited <= |line|
  {
    if visited == 0 then ctx
    else Requeued(line, ctx, visited - 1, start)[line[visited - 1] := start + visited - 1]
  }

  lemma {:induction false} RequeuedAt(line: seq<TxSlot>, ctx: map<TxSlot, nat>, visited: nat, start: nat)
    requires IsLine(line, ctx) && visited <= |line|
    ensures var after := Requeued(line, ctx, visited, start);
      && after.Keys == ctx.Keys
      && forall i :: 0 <= i < |line| ==> after[line[i]] == if i < visited then start + i else ctx[line[i]]
  {
    if visited > 0 {
      RequeuedAt(line, ctx, visited - 1, start);
      assert line[visited - 1] in ctx;
    }
  }

  ghost predicate InTurn(line: seq<TxSlot>, ctx: map<TxSlot, nat>) {
    && (forall i :: 0 <= i < |line| ==> line[i] in ctx)
    && (forall i, j :: 0 <= i < j < |line| ==> ctx[line[i]] < ctx[line[j]])
  }

  lemma {:induction false} RemoveAscends(line: seq<TxSlot>, gone: set<TxSlot>, ctx: map<TxSlot, nat>)
    requires forall i :: 0 <= i < |line| && line[i] !in gone ==> line[i] in ctx
    requires forall i, j :: 0 <= i < j < |line| && line[i] !in gone && line[j] !in gone ==> ctx[line[i]] < ctx[line[j]]
    ensures InTurn(Remove(line, gone), ctx)
  {
    if line != [] {
      var rest := line[1..];
      assert forall i :: 0 <= i < |rest| ==> rest[i] == line[i + 1];
      RemoveAscends(rest, gone, ctx);
      if line[0] !in gone {
        var kept, all := Remove(rest, gone), Remove(line, gone);
        assert all == [line[0]] + kept;
        forall k | 0 <= k < |kept|
          ensures kept[k] in ctx && ctx[line[0]] < ctx[kept[k]]
        {
          RemoveHas(rest, gone, kept[k]);
          var i :| 0 <= i < |rest| && rest[i] == kept[k];
          assert line[i + 1] == kept[k];
        }
        assert forall i :: 1 <= i < |all| ==> all[i] == kept[i - 1];
      }
    }
  }

  lemma RemoveKeepsOrder(line: seq<TxSlot>, gone: set<TxSlot>, ctx: map<TxSlot, nat>)
    requires forall s :: s in ctx <==> s in line && s !in gone
    requires forall i, j :: 0 <= i < j < |line| && line[i] !in gone && line[j] !in gone ==> ctx[line[i]] < ctx[line[j]]
    ensures IsLine(Remove(line, gone), ctx)
  {
    forall s
      ensures s in ctx <==> s in Remove(line, gone)
    {
      RemoveHas(line, gone, s);
    }
    RemoveAscends(line, gone, ctx);
  }

  /** A tick's line as a rotation: who stands at `i` afterwards stood at `a` before. */
  lemma TurnedAt(line: seq<TxSlot>, visited: nat, i: nat) returns (a: nat)
    requires visited <= |line| && i < |line|
    ensures a < |line| && (line[visited..] + line[..visited])[i] == line[a]
    ensures a == if i < |line| - visited then i + visited else i - (|line| - visited)
  {
    a := if i < |line| - visited then i + visited else i - (|line| - visited);
  }

  lemma TurnedHasAll(line: seq<TxSlot>, visited: nat, s: TxSlot)
    requires visited <= |line|
    ensures s in line[visited..] + line[..visited] <==> s in line
  {
    assert line == line[..visited] + line[visited..];
  }

  /** Requeueing the visited and dropping the retired turns the line exactly as `AfterTick` says. */
  lemma RequeueIsAfterTick(line: seq<TxSlot>, ctx: map<TxSlot, nat>, after: map<TxSlot, nat>,
                           visited: nat, retired: set<TxSlot>, start: nat)
    requires IsLine(line, ctx) && visited <= |line|
    requires forall s :: s in ctx ==> ctx[s] < start
    requires forall s :: s in after <==> s in ctx && s !in retired
    requires forall i :: 0 <= i < |line| && line[i] !in retired ==>
      after[line[i]] == if i < visited then start + i else ctx[line[i]]
    ensures IsLine(AfterTick(line, visited, retired), after)
  {
    var turned := line[visited..] + line[..visited];
    forall s
      ensures s in after <==> s in turned && s !in retired
    {
      TurnedHasAll(line, visited, s);
    }
    forall i, j | 0 <= i < j < |turned| && turned[i] !in retired && turned[j] !in retired
      ensures after[turned[i]] < after[turned[j]]
    {
      var a := TurnedAt(line, visited, i);
      var b := TurnedAt(line, visited, j);
    }
    RemoveKeepsOrder(turned, retired, after);
  }

  lemma RequeueKeepsLine(line: seq<TxSlot>, ctx: map<TxSlot, nat>, visited: nat, retired: set<TxSlot>, start: nat)
    requires IsLine(line, ctx) && visited <= |line|
    requires forall s :: s in ctx ==> ctx[s] < start
    ensures var after := Requeued(line, ctx, visited, start) - retired;
      && IsLine(AfterTick(line, visited, retired), after)
      && forall s :: s in after ==> after[s] < start + visited
  {
    RequeuedAt(line, ctx, visited, start);
    var after := Requeued(line, ctx, visited, start) - retired;
    RequeueIsAfterTick(line, ctx, after, visited, retired, start);
    forall s | s in after
      ensures after[s] < start + visited
    {
      var k :| 0 <= k < |line| && line[k] == s;
    }
  }

  class Senders {
    const txQueue: TxQueue
    /** Each sender's service sequence: the whole representation of its place. */
    var ctx: map<TxSlot, nat>
    var workPending: bool
    ghost var line: seq<TxSlot>

    ghost predicate Valid()
      reads this, txQueue
    {
      IsLine(line, ctx) && forall s :: s in ctx ==> ctx[s] < txQueue.nextSeq
    }

    constructor ()
      ensures Valid() && fresh(txQueue) && line == [] && !workPending
    {
      txQueue := new TxQueue();
      ctx, workPending, line := map[], false, [];
    }

    /** A sender joins at the tail. */
    method Start(slot: TxSlot)
      requires Valid() && slot !in ctx
      modifies this, txQueue
      ensures Valid() && line == Apply(old(line), Join(slot)) == old(line) + [slot] && workPending
    {
      var seqNo := txQueue.Join();
      ctx := ctx[slot := seqNo];
      line := line + [slot];
      workPending := true;
    }

    method Stop(slot: TxSlot)
      requires Valid()
      modifies this`ctx, this`line
      ensures Valid() && line == Apply(old(line), Cancel(slot))
      ensures forall s :: s in line <==> s in old(line) && s != slot
      ensures forall a, b :: a in line && b in line ==> (Before(line, a, b) <==> Before(old(line), a, b))
    {
      CancelKeepsOthers(line, slot);
      RemoveKeepsOrder(line, {slot}, ctx - {slot});
      ctx := ctx - {slot};
      line := Remove(line, {slot});
    }

    /** The pairs of sequence and sender, in whatever order the maps yield them. */
    method Collect() returns (pairs: seq<(nat, TxSlot)>)
      requires Valid()
      ensures DistinctKeys(pairs)
      ensures forall p :: p in pairs <==> p.1 in ctx && p.0 == ctx[p.1]
    {
      pairs := [];
      var todo := ctx.Keys;
      while todo != {}
        invariant todo <= ctx.Keys
        invariant forall p :: p in pairs <==> p.1 in ctx && p.1 !in todo && p.0 == ctx[p.1]
        invariant DistinctKeys(pairs)
        decreases todo
      {
        var s :| s in todo;
        forall i | 0 <= i < |pairs|
          ensures pairs[i].0 != ctx[s]
        {
          assert pairs[i] in pairs;
          InLine(pairs[i].1, s);
        }
        pairs := pairs + [(ctx[s], s)];
        todo := todo - {s};
      }
    }

    lemma InLine(a: TxSlot, b: TxSlot)
      requires Valid() && a in ctx && b in ctx && a != b
      ensures ctx[a] != ctx[b]
    {
      var i :| 0 <= i < |line| && line[i] == a;
      var j :| 0 <= j < |line| && line[j] == b;
    }

    /**
     One transmit stage. The senders are served in line order, each turn being what `ServiceTurn` or `QueryTurn` makes
     of that sender's replies; each one offered a turn goes to the tail, and one that retired during its turn leaves.
     With no work pending at the end, whoever is left has nothing due.
     */
    method DrainTransmits(visit: Visitor, how: Replies) returns (turns: seq<Turn>)
      requires Valid() && Obedient(visit)
      requires TookTurns(line, Walk(0, |line|, MAX_SEND_CREDITS_PER_DRAIN, visit), how)
      modifies this, txQueue
      ensures Valid()
      ensures turns == Walk(0, |old(line)|, MAX_SEND_CREDITS_PER_DRAIN, visit)
      ensures Min(|old(line)|, MAX_SEND_CREDITS_PER_DRAIN) <= |turns| <= |old(line)|
      ensures line == Apply(old(line), Tick(|turns|, Retiring(old(line), |turns|, how.retires)))
      ensures StageTurned(old(line), line, |turns|, how.retires)
      ensures workPending <==> LeftWorkBehind(turns, MAX_SEND_CREDITS_PER_DRAIN)
      ensures !workPending ==> AllDry(turns, |old(line)|, how)
    {
      WalkIsFair(|line|, MAX_SEND_CREDITS_PER_DRAIN, visit);
      DryUnlessPending(line, visit, how);
      var queue := BuildQueue();
      if queue.Length == 0 {
        turns, workPending := [], false;
        return;
      }
      var start := txQueue.nextSeq;
      turns, workPending := txQueue.Serve(queue, MAX_SEND_CREDITS_PER_DRAIN, visit);
      assert forall i :: 0 <= i < |line| ==> queue[i] == queue[..][i];
      Requeue(queue, start, |turns|, how.retires);
    }

    /** The unsorted queue; sorting it puts the senders in line order. */
    method BuildQueue() returns (queue: array<(nat, TxSlot)>)
      requires Valid()
      ensures fresh(queue) && queue.Length == |line| == |SortBySeq(queue[..])|
      ensures forall i :: 0 <= i < |line| ==> SortBySeq(queue[..])[i].1 == line[i]
    {
      var pairs := Collect();
      SortedIsLine(pairs, line, ctx);
      queue := new (nat, TxSlot)[|pairs|](i requires 0 <= i < |pairs| => pairs[i]);
      assert queue[..] == pairs;
    }

    /** What the walk did to each sender it visited: a place of its own at the tail, or retirement. */
    method Visited(queue: array<(nat, TxSlot)>, start: nat, visited: nat, retires: nat -> bool)
      returns (requeued: map<TxSlot, nat>, retired: set<TxSlot>)
      requires visited <= |line| == queue.Length && forall i :: 0 <= i < |line| ==> queue[i].1 == line[i]
      ensures requeued == Requeued(line, ctx, visited, start) && retired == Retiring(line, visited, retires)
    {
      requeued, retired := ctx, {};
      for i := 0 to visited
        invariant requeued == Requeued(line, ctx, i, start)
        invariant retired == Retiring(line, i, retires)
      {
        var slot := queue[i].1;
        requeued := requeued[slot := start + i];
        if slot.Query? && retires(i) { retired := retired + {slot}; }
      }
    }

    /** Stores the sequences a walk handed out, and drops the queries it retired. */
    method Requeue(queue: array<(nat, TxSlot)>, start: nat, visited: nat, retires: nat -> bool)
      requires IsLine(line, ctx) && forall s :: s in ctx ==> ctx[s] < start
      requires visited <= |line| == queue.Length && start + visited <= txQueue.nextSeq
      requires forall i :: 0 <= i < |line| ==> queue[i].1 == line[i]
      modifies this`ctx, this`line
      ensures Valid()
      ensures line == AfterTick(old(line), visited, Retiring(old(line), visited, retires))
      ensures StageTurned(old(line), line, visited, retires)
    {
      TickTurnsStage(line, visited, retires);
      var requeued, retired := Visited(queue, start, visited, retires);
      RequeueKeepsLine(line, ctx, visited, retired, start);
      ctx := requeued - retired;
      line := AfterTick(line, visited, retired);
    }
  }

  function Slots(pairs: seq<(nat, TxSlot)>): (slots: seq<TxSlot>)
    ensures |slots| == |pairs| && forall i :: 0 <= i < |pairs| ==> slots[i] == pairs[i].1
  {
    seq(|pairs|, i requires 0 <= i < |pairs| => pairs[i].1)
  }

  /** Pairs of every sender with its sequence, in ascending order, list the senders as a line. */
  lemma AscendingIsLine(sorted: seq<(nat, TxSlot)>, ctx: map<TxSlot, nat>)
    requires Ascending(sorted) && forall p :: p in sorted <==> p.1 in ctx && p.0 == ctx[p.1]
    ensures IsLine(Slots(sorted), ctx)
  {
    var slots := Slots(sorted);
    forall i | 0 <= i < |sorted|
      ensures slots[i] in ctx && ctx[slots[i]] == sorted[i].0
    {
      assert sorted[i] in sorted;
    }
    forall s | s in ctx
      ensures s in slots
    {
      assert (ctx[s], s) in sorted;
      var i :| 0 <= i < |sorted| && sorted[i] == (ctx[s], s);
      assert slots[i] == s;
    }
  }

  /** Sorting the pairs of sequence and sender recovers the line. */
  lemma SortedIsLine(pairs: seq<(nat, TxSlot)>, line: seq<TxSlot>, ctx: map<TxSlot, nat>)
    requires IsLine(line, ctx) && DistinctKeys(pairs)
    requires forall p :: p in pairs <==> p.1 in ctx && p.0 == ctx[p.1]
    ensures var sorted := SortBySeq(pairs);
      |pairs| == |sorted| == |line| && forall i :: 0 <= i < |line| ==> sorted[i].1 == line[i]
  {
    SortAscends(pairs);
    AscendingIsLine(SortBySeq(pairs), ctx);
    LineIsUnique(Slots(SortBySeq(pairs)), line, ctx);
  }

  // ----- One sender's turn -----

  /** What one poll of a sender's state machine yields, and whether its send outcome retires the producer. */
  datatype Poll = Datagram(retire: bool) | NothingDue | EncodeError

  const MAX_CONSECUTIVE_ENCODE_ERRORS: nat := 3

  /** How many datagrams a sender puts out before it stops of itself: runs dry, fails to encode, or retires. */
  ghost predicate Sends(poll: nat -> Poll, n: nat) {
    forall k :: 0 <= k < n ==> poll(k).Datagram? && (poll(k).retire ==> k == n - 1)
  }

  /** Whether a turn that sent `spent` datagrams went on to a poll that yielded none. */
  predicate Stopped(quantum: nat, poll: nat -> Poll, spent: nat) {
    spent < quantum && !(spent > 0 && poll(spent - 1).Datagram? && poll(spent - 1).retire)
  }

  /** The run of encode failures a turn inherits: any datagram it sends ends the earlier run. */
  function Inherited(spent: nat, failures: nat): nat {
    if spent > 0 then 0 else failures
  }

  /** The turn went on to a poll, and the poll could not be encoded. */
  predicate Failed(quantum: nat, poll: nat -> Poll, spent: nat) {
    Stopped(quantum, poll, spent) && poll(spent) == EncodeError
  }

  /** The last datagram the turn sent told the driver to retire its producer. */
  predicate Released(poll: nat -> Poll, spent: nat) {
    spent > 0 && poll(spent - 1).Datagram? && poll(spent - 1).retire
  }

  /**
   A service's turn: it sends until its quantum is spent, it has nothing due, it cannot encode, or it must be
   retired. `active` is false for one that is gone or already withdrawing, which is offered the turn and takes
   none of it.
   */
  ghost predicate ServiceTook(turn: Turn, active: bool, poll: nat -> Poll, failures: nat, retired: bool,
                              failuresAfter: nat)
  {
    var spent, quantum := turn.spent, turn.quantum;
    && spent <= quantum
    && (!active ==> spent == 0 && !turn.capped && !retired && failuresAfter == failures)
    && (active ==>
        && Sends(poll, spent)
        && (Stopped(quantum, poll, spent) ==> !poll(spent).Datagram?)
        && failuresAfter == (if !Stopped(quantum, poll, spent) then Inherited(spent, failures)
                             else if poll(spent) == EncodeError then Inherited(spent, failures) + 1
                             else 0)
        && (retired <==> Released(poll, spent) ||
                         (Failed(quantum, poll, spent) && failuresAfter >= MAX_CONSECUTIVE_ENCODE_ERRORS))
        && (turn.capped <==> !retired && !(Stopped(quantum, poll, spent) && poll(spent) == NothingDue)))
  }

  /** A query's turn: as a service's, except that one encode failure retires it at once. */
  ghost predicate QueryTook(turn: Turn, active: bool, poll: nat -> Poll, retired: bool) {
    var spent, quantum := turn.spent, turn.quantum;
    && spent <= quantum
    && (!active ==> spent == 0 && !turn.capped && !retired)
    && (active ==>
        && Sends(poll, spent)
        && (Stopped(quantum, poll, spent) ==> !poll(spent).Datagram?)
        && (retired <==> Released(poll, spent) || Failed(quantum, poll, spent))
        && (turn.capped <==> !retired && spent == quantum))
  }

  /** The first `n` polls each yield a datagram that lets its producer live. */
  ghost predicate Flows(poll: nat -> Poll, n: nat) {
    forall k :: 0 <= k < n ==> poll(k) == Datagram(false)
  }

  /**
   What a service's turn comes to, by what its polls yield after the first `n` datagrams: it is cut off when they fill
   the quantum, dry, retired by its last datagram, or unencodable, and then retired the third time running.
   */
  lemma ServiceTurnIs(turn: Turn, poll: nat -> Poll, failures: nat, retired: bool, after: nat, n: nat)
    requires ServiceTook(turn, true, poll, failures, retired, after) && n <= turn.quantum && Flows(poll, n)
    ensures n == turn.quantum ==>
      turn.spent == n && turn.capped && !retired && after == (if n > 0 then 0 else failures)
    ensures n < turn.quantum && poll(n) == NothingDue ==> turn.spent == n && !turn.capped && !retired && after == 0
    ensures n < turn.quantum && poll(n) == Datagram(true) ==>
      turn.spent == n + 1 && !turn.capped && retired && after == 0
    ensures n < turn.quantum && poll(n) == EncodeError ==>
      && turn.spent == n && after == (if n > 0 then 1 else failures + 1)
      && (retired <==> after >= 3) && (turn.capped <==> !retired)
  {
    TurnSpends(turn, poll, n);
  }

  /** A query's turn likewise; one encode failure retires it. */
  lemma QueryTurnIs(turn: Turn, poll: nat -> Poll, retired: bool, n: nat)
    requires QueryTook(turn, true, poll, retired) && n <= turn.quantum && Flows(poll, n)
    ensures n == turn.quantum ==> turn.spent == n && turn.capped && !retired
    ensures n < turn.quantum && poll(n) == NothingDue ==> turn.spent == n && !turn.capped && !retired
    ensures n < turn.quantum && poll(n) == Datagram(true) ==> turn.spent == n + 1 && !turn.capped && retired
    ensures n < turn.quantum && poll(n) == EncodeError ==> turn.spent == n && !turn.capped && retired
  {
    TurnSpends(turn, poll, n);
  }

  lemma TurnSpends(turn: Turn, poll: nat -> Poll, n: nat)
    requires turn.spent <= turn.quantum && Sends(poll, turn.spent) && n <= turn.quantum && Flows(poll, n)
    requires Stopped(turn.quantum, poll, turn.spent) ==> !poll(turn.spent).Datagram?
    ensures turn.spent >= n
    ensures n < turn.quantum && !poll(n).Datagram? ==> turn.spent == n
    ensures n < turn.quantum && poll(n) == Datagram(true) ==> turn.spent == n + 1
  {
    assert turn.spent < n ==> poll(turn.spent) == Datagram(false);
    assert turn.spent > n ==> poll(n).Datagram?;
  }

  /** How each sender answers in one stage: whether it is active, what its polls yield, what it retires into. */
  datatype Replies = Replies(active: nat -> bool, polls: nat -> nat -> Poll, failures: nat -> nat,
                               failuresAfter: nat -> nat, retires: nat -> bool)

  ghost predicate Took(slot: TxSlot, turn: Turn, how: Replies, i: nat) {
    if slot.Service?
    then ServiceTook(turn, how.active(i), how.polls(i), how.failures(i), how.retires(i), how.failuresAfter(i))
    else QueryTook(turn, how.active(i), how.polls(i), how.retires(i))
  }

  ghost predicate TookTurns(line: seq<TxSlot>, turns: seq<Turn>, how: Replies) {
    |turns| <= |line| && forall i :: 0 <= i < |turns| ==> Took(line[i], turns[i], how, i)
  }

  /** Each of the `n` senders had its turn, and is gone, retired, or has nothing due. */
  predicate AllDry(turns: seq<Turn>, n: nat, how: Replies) {
    |turns| == n && forall i :: 0 <= i < n ==> Dry(turns[i], how, i)
  }

  predicate Dry(turn: Turn, how: Replies, i: nat) {
    !how.active(i) || how.retires(i) || how.polls(i)(turn.spent) == NothingDue
  }

  lemma UncappedIsDry(slot: TxSlot, turn: Turn, how: Replies, i: nat)
    requires Took(slot, turn, how, i) && !turn.capped
    ensures Dry(turn, how, i)
  {
  }

  /**
   When a stage leaves no work pending, every sender had its turn, and it is gone, retired, or has nothing due:
   nothing is left in memory that no deadline announces.
   */
  lemma NothingPendingMeansDry(line: seq<TxSlot>, visit: Visitor, how: Replies)
    requires Obedient(visit)
    requires TookTurns(line, Walk(0, |line|, MAX_SEND_CREDITS_PER_DRAIN, visit), how)
    requires !LeftWorkBehind(Walk(0, |line|, MAX_SEND_CREDITS_PER_DRAIN, visit), MAX_SEND_CREDITS_PER_DRAIN)
    ensures AllDry(Walk(0, |line|, MAX_SEND_CREDITS_PER_DRAIN, visit), |line|, how)
  {
    var turns := Walk(0, |line|, MAX_SEND_CREDITS_PER_DRAIN, visit);
    NothingLeftMeansAllServed(|line|, MAX_SEND_CREDITS_PER_DRAIN, visit);
    forall i | 0 <= i < |line|
      ensures Dry(turns[i], how, i)
    {
      UncappedIsDry(line[i], turns[i], how, i);
    }
  }

  lemma DryUnlessPending(line: seq<TxSlot>, visit: Visitor, how: Replies)
    requires Obedient(visit) && TookTurns(line, Walk(0, |line|, MAX_SEND_CREDITS_PER_DRAIN, visit), how)
    ensures var turns := Walk(0, |line|, MAX_SEND_CREDITS_PER_DRAIN, visit);
      LeftWorkBehind(turns, MAX_SEND_CREDITS_PER_DRAIN) || AllDry(turns, |line|, how)
  {
    var turns := Walk(0, |line|, MAX_SEND_CREDITS_PER_DRAIN, visit);
    if !LeftWorkBehind(turns, MAX_SEND_CREDITS_PER_DRAIN) { NothingPendingMeansDry(line, visit, how); }
  }

  method ServiceTurn(active: bool, quantum: nat, poll: nat -> Poll, failures: nat)
    returns (turn: Turn, retired: bool, failuresAfter: nat)
    ensures turn.quantum == quantum && ServiceTook(turn, active, poll, failures, retired, failuresAfter)
  {
    if !active {
      return Turn(quantum, 0, false), false, failures;
    }
    var spent := 0;
    retired, failuresAfter := false, failures;
    var capped, hitEncodeError := true, false;
    while true
      invariant spent <= quantum && Sends(poll, spent) && !retired && !hitEncodeError
      invariant forall k :: 0 <= k < spent ==> !poll(k).retire
      invariant failuresAfter == Inherited(spent, failures)
      decreases quantum - spent
    {
      if spent >= quantum {
        capped := true;
        break;
      }
      match poll(spent)
      case Datagram(retire) =>
        failuresAfter := 0;
        spent := spent + 1;
        if retire {
          retired, capped := true, false;
          break;
        }
      case NothingDue =>
        failuresAfter := 0;
        capped := false;
        break;
      case EncodeError =>
        failuresAfter := failuresAfter + 1;
        hitEncodeError, capped := true, true;
        break;
    }
    if hitEncodeError && failuresAfter >= MAX_CONSECUTIVE_ENCODE_ERRORS {
      retired, capped := true, false;
    }
    turn := Turn(quantum, spent, capped);
  }

  method QueryTurn(active: bool, quantum: nat, poll: nat -> Poll) returns (turn: Turn, retired: bool)
    ensures turn.quantum == quantum && QueryTook(turn, active, poll, retired)
  {
    if !active {
      return Turn(quantum, 0, false), false;
    }
    var spent, capped := 0, true;
    retired := false;
    while true
      invariant spent <= quantum && Sends(poll, spent) && !retired
      invariant forall k :: 0 <= k < spent ==> !poll(k).retire
      decreases quantum - spent
    {
      if spent >= quantum {
        capped := true;
        break;
      }
      match poll(spent)
      case Datagram(retire) =>
        spent := spent + 1;
        if retire {
          retired, capped := true, false;
          break;
        }
      case NothingDue =>
        capped := false;
        break;
      case EncodeError =>
        retired, capped := true, false;
        break;
    }
    turn := Turn(quantum, spent, capped);
  }
}
