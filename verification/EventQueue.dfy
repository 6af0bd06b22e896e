/**
 The single event queue every driver signal surfaces through (hick-mio/src/event.rs).

 The implementation keeps three containers in step: the physical `queue` of slots, in which an evicted
 answer leaves a stale slot behind; the `live` map, holding each queued answer's payload under a
 generation tag; and `order`, the live keys from oldest to newest. What the caller is meant to see is
 much simpler: one list of items. `Fifo` defines that list and its operations, and every method of
 `EventQueue` is proved to act on `Contents()` exactly as the list operation does.
 */
module Fifo {
  import opened Answers
  import opened Basics
  import opened ServiceDiscovery

  datatype AnswerKey = AnswerKey(handle: QueryHandle, rtype: nat, rclass: nat, rdataKey: Bytes)

  datatype Event =
    | Service(service: nat, update: nat)
    | QueryAnswer(handle: QueryHandle, answer: CollectedAnswer)
    | QueryTerminal(query: QueryHandle, outcome: nat)
    | Lookup(lookup: LookupHandle, entry: ServiceEntry)
    | LookupDone(finished: LookupHandle)

  /** One entry of the list the caller reads. */
  datatype Item = Answer(key: AnswerKey, answer: CollectedAnswer) | Terminal(event: Event) {
    function ToEvent(): Event {
      match this
      case Answer(key, answer) => QueryAnswer(key.handle, answer)
      case Terminal(event) => event
    }
  }

  const ANSWER_CAPACITY: nat := 1024

  function KeyOf(handle: QueryHandle, answer: CollectedAnswer): AnswerKey {
    AnswerKey(handle, answer.rtype, answer.rclass, answer.rdataKey)
  }

  /** The keys of the answers in `items`, oldest first. */
  function Keys(items: seq<Item>): seq<AnswerKey> {
    if items == [] then []
    else if items[0].Answer? then [items[0].key] + Keys(items[1..])
    else Keys(items[1..])
  }

  /** The events that are not answers, oldest first. */
  function Terminals(items: seq<Item>): seq<Event> {
    if items == [] then []
    else if items[0].Terminal? then [items[0].event] + Terminals(items[1..])
    else Terminals(items[1..])
  }

  /** Every answer under `key` takes the payload `answer`, where it stands. */
  function Refresh(items: seq<Item>, key: AnswerKey, answer: CollectedAnswer): seq<Item> {
    if items == [] then []
    else [if items[0].Answer? && items[0].key == key then Answer(key, answer) else items[0]]
         + Refresh(items[1..], key, answer)
  }

  /** The list without its answers under `key`. */
  function Without(items: seq<Item>, key: AnswerKey): seq<Item> {
    if items == [] then []
    else if items[0].Answer? && items[0].key == key then Without(items[1..], key)
    else [items[0]] + Without(items[1..], key)
  }

  /** The list with its oldest answer, if any, taken out; terminals are passed over. */
  function DropOldest(items: seq<Item>): seq<Item> {
    if items == [] then []
    else if items[0].Answer? then items[1..]
    else [items[0]] + DropOldest(items[1..])
  }

  predicate Coalesces(items: seq<Item>, key: AnswerKey) {
    key in Keys(items)
  }

  predicate Evicts(items: seq<Item>, key: AnswerKey) {
    !Coalesces(items, key) && |Keys(items)| >= ANSWER_CAPACITY
  }

  function PushAnswer(items: seq<Item>, key: AnswerKey, answer: CollectedAnswer): seq<Item> {
    if Coalesces(items, key) then Refresh(items, key, answer)
    else (if Evicts(items, key) then DropOldest(items) else items) + [Answer(key, answer)]
  }

  function PushTerminal(items: seq<Item>, event: Event): seq<Item> {
    items + [Terminal(event)]
  }

  /** What every list the operations build satisfies: one item per key, and no more answers than the cap. */
  ghost predicate Bounded(items: seq<Item>) {
    NoRepeats(Keys(items)) && |Keys(items)| <= ANSWER_CAPACITY
  }

  lemma {:induction false} KeysAppend(a: seq<Item>, b: seq<Item>)
    ensures Keys(a + b) == Keys(a) + Keys(b)
    ensures Terminals(a + b) == Terminals(a) + Terminals(b)
  {
    if a == [] {
      assert a + b == b;
    } else {
      assert (a + b)[1..] == a[1..] + b;
      KeysAppend(a[1..], b);
    }
  }

  lemma {:induction false} SizeSplits(items: seq<Item>)
    ensures |items| == |Keys(items)| + |Terminals(items)|
  {
    if items != [] { SizeSplits(items[1..]); }
  }

  /** A refresh moves nothing: the keys, the terminals and the length stay as they were. */
  lemma {:induction false} RefreshKeepsPlaces(items: seq<Item>, key: AnswerKey, answer: CollectedAnswer)
    ensures |Refresh(items, key, answer)| == |items|
    ensures forall i :: 0 <= i < |items| ==>
      Refresh(items, key, answer)[i] ==
        if items[i].Answer? && items[i].key == key then Answer(key, answer) else items[i]
    ensures Keys(Refresh(items, key, answer)) == Keys(items)
    ensures Terminals(Refresh(items, key, answer)) == Terminals(items)
  {
    if items != [] {
      RefreshKeepsPlaces(items[1..], key, answer);
      assert Refresh(items, key, answer)[1..] == Refresh(items[1..], key, answer);
    }
  }

  /** An eviction takes the oldest key and no terminal. */
  lemma {:induction false} DropOldestTakesFront(items: seq<Item>)
    requires Keys(items) != []
    ensures Keys(DropOldest(items)) == Keys(items)[1..]
    ensures Terminals(DropOldest(items)) == Terminals(items)
    ensures |DropOldest(items)| == |items| - 1
  {
    if items[0].Answer? {
    } else {
      DropOldestTakesFront(items[1..]);
      assert DropOldest(items)[1..] == DropOldest(items[1..]);
    }
  }

  lemma {:induction false} WithoutAbsent(items: seq<Item>, key: AnswerKey)
    requires key !in Keys(items)
    ensures Without(items, key) == items
  {
    if items != [] {
      WithoutAbsent(items[1..], key);
    }
  }

  /** With one item per key, evicting the oldest answer is removing its key. */
  lemma {:induction false} WithoutOldest(items: seq<Item>)
    requires NoRepeats(Keys(items)) && Keys(items) != []
    ensures Without(items, Keys(items)[0]) == DropOldest(items)
  {
    var rest := items[1..];
    if items[0].Answer? {
      assert Keys(items)[1..] == Keys(rest);
      WithoutAbsent(rest, items[0].key);
    } else {
      assert Keys(items) == Keys(rest);
      WithoutOldest(rest);
    }
  }

  /** What a push does to the keys. */
  lemma PushAnswerKeys(items: seq<Item>, key: AnswerKey, answer: CollectedAnswer)
    requires Bounded(items)
    ensures Bounded(PushAnswer(items, key, answer))
    ensures Terminals(PushAnswer(items, key, answer)) == Terminals(items)
    ensures Keys(PushAnswer(items, key, answer)) ==
      if Coalesces(items, key) then Keys(items)
      else (if Evicts(items, key) then Keys(items)[1..] else Keys(items)) + [key]
  {
    if Coalesces(items, key) {
      RefreshKeepsPlaces(items, key, answer);
    } else {
      if Evicts(items, key) { DropOldestTakesFront(items); }
      KeysAppend(if Evicts(items, key) then DropOldest(items) else items, [Answer(key, answer)]);
      NoRepeatsSnoc(if Evicts(items, key) then Keys(items)[1..] else Keys(items), key);
      assert Keys([Answer(key, answer)]) == [key];
      assert Terminals([Answer(key, answer)]) == [];
    }
  }

  lemma {:induction false} KeysAre(items: seq<Item>, key: AnswerKey)
    ensures key in Keys(items) <==> exists i :: 0 <= i < |items| && items[i].Answer? && items[i].key == key
  {
    if items != [] {
      var rest := items[1..];
      KeysAre(rest, key);
      assert forall i :: 1 <= i < |items| ==> items[i] == rest[i - 1];
      assert forall i :: 0 <= i < |rest| ==> rest[i] == items[i + 1];
    }
  }

  /** `k` is where the oldest answer stands. */
  ghost predicate OldestAt(items: seq<Item>, k: nat) {
    k < |items| && items[k].Answer? && forall i :: 0 <= i < k ==> items[i].Terminal?
  }

  lemma {:induction false} DropOldestAt(items: seq<Item>) returns (k: nat)
    requires Keys(items) != []
    ensures OldestAt(items, k) && DropOldest(items) == items[..k] + items[k + 1..]
  {
    if items[0].Answer? {
      k := 0;
    } else {
      var j := DropOldestAt(items[1..]);
      k := j + 1;
      assert items[..k] == [items[0]] + items[1..][..j];
      assert items[k + 1..] == items[1..][j + 1..];
      assert forall i :: 1 <= i < k ==> items[i] == items[1..][i - 1];
    }
  }

  /**
   An answer pushed for `query` is in the list afterwards, and is the only item under its identity. If that identity
   was queued, it takes the new payload where it stands; if not, it joins at the end, and the oldest answer makes room
   when 1024 are queued. Every other item keeps its payload and its place among the others.
   */
  lemma PushAnswerEffect(items: seq<Item>, query: QueryHandle, answer: CollectedAnswer)
    requires Bounded(items)
    ensures var key := AnswerKey(query, answer.rtype, answer.rclass, answer.rdataKey);
      var after := PushAnswer(items, KeyOf(query, answer), answer);
      && Bounded(after) && Terminals(after) == Terminals(items)
      && Answer(key, answer) in after
      && (forall i :: 0 <= i < |after| && after[i].Answer? && after[i].key == key ==> after[i].answer == answer)
      && (if exists i :: 0 <= i < |items| && items[i].Answer? && items[i].key == key then
            && |after| == |items|
            && forall i :: 0 <= i < |items| ==>
                 after[i] == if items[i].Answer? && items[i].key == key then Answer(key, answer) else items[i]
          else if |Keys(items)| < 1024 then after == items + [Answer(key, answer)]
          else exists k: nat :: OldestAt(items, k) && after == items[..k] + items[k + 1..] + [Answer(key, answer)])
  {
    var key := KeyOf(query, answer);
    var after := PushAnswer(items, key, answer);
    PushAnswerKeys(items, key, answer);
    KeysAre(items, key);
    if Coalesces(items, key) {
      RefreshKeepsPlaces(items, key, answer);
      var i :| 0 <= i < |items| && items[i].Answer? && items[i].key == key;
      assert after[i] == Answer(key, answer);
    } else {
      assert after[|after| - 1] == Answer(key, answer);
      if Evicts(items, key) { var k := DropOldestAt(items); }
    }
  }

  // ----- Who pays for an overflow -----

  /**
   An overflow takes the oldest answer queued, whatever query it belongs to: no queued answer shares the pushed one's
   identity by then. The other queries lose nothing exactly when the oldest answer is the pushing query's own.
   */
  lemma OverflowSparesOthersIff(items: seq<Item>, key: AnswerKey, answer: CollectedAnswer)
    requires Bounded(items) && Evicts(items, key)
    ensures var after := Keys(PushAnswer(items, key, answer));
      && key !in Keys(items)
      && (forall k :: k in Keys(items) ==> (k in after <==> k != Keys(items)[0]))
      && ((forall k :: k in Keys(items) && k.handle != key.handle ==> k in after)
            <==> Keys(items)[0].handle == key.handle)
  {
    PushAnswerKeys(items, key, answer);
    var keys := Keys(items);
    assert keys == [keys[0]] + keys[1..];
  }

  /** The first `n` answers of query 0, of `n` different types. */
  function Backlog(n: nat): seq<Item> {
    if n == 0 then []
    else Backlog(n - 1) + [Answer(AnswerKey(0, n - 1, 1, []), CollectedAnswer(n - 1, 1, [], [], n - 1))]
  }

  lemma {:induction false} BacklogKeys(n: nat)
    ensures |Keys(Backlog(n))| == n && NoRepeats(Keys(Backlog(n)))
    ensures forall k :: k in Keys(Backlog(n)) ==> k.handle == 0 && k.rtype < n
    ensures n > 0 ==> Keys(Backlog(n))[0] == AnswerKey(0, 0, 1, [])
  {
    if n > 0 {
      var last := Answer(AnswerKey(0, n - 1, 1, []), CollectedAnswer(n - 1, 1, [], [], n - 1));
      BacklogKeys(n - 1);
      KeysAppend(Backlog(n - 1), [last]);
      assert Keys([last]) == [last.key];
      NoRepeatsSnoc(Keys(Backlog(n - 1)), last.key);
    }
  }

  /** With query 0's answers filling the backlog, one answer of query 1 costs query 0 its oldest. */
  lemma AnotherQueryPays(answer: CollectedAnswer)
    ensures var items, key := Backlog(ANSWER_CAPACITY), KeyOf(1, answer);
      && Bounded(items) && Evicts(items, key)
      && AnswerKey(0, 0, 1, []) in Keys(items) && AnswerKey(0, 0, 1, []) !in Keys(PushAnswer(items, key, answer))
  {
    BacklogKeys(ANSWER_CAPACITY);
    OverflowSparesOthersIff(Backlog(ANSWER_CAPACITY), KeyOf(1, answer), answer);
  }

  // ----- Whole runs -----

  datatype Op = OpAnswer(key: AnswerKey, answer: CollectedAnswer) | OpTerminal(event: Event) | OpPop

  /** Where a run has got to: the list, what the caller has been given, and what each loss counter says. */
  datatype Run = Run(items: seq<Item>, popped: seq<Item>, pushed: nat, coalesced: nat, evicted: nat)

  const START := Run([], [], 0, 0, 0)

  function Step(r: Run, op: Op): Run {
    match op
    case OpAnswer(key, answer) =>
      Run(PushAnswer(r.items, key, answer), r.popped, r.pushed + 1,
          r.coalesced + (if Coalesces(r.items, key) then 1 else 0),
          r.evicted + (if Evicts(r.items, key) then 1 else 0))
    case OpTerminal(event) => r.(items := PushTerminal(r.items, event))
    case OpPop => if r.items == [] then r else r.(items := r.items[1..], popped := r.popped + [r.items[0]])
  }

  function Replay(ops: seq<Op>): Run {
    if ops == [] then START else Step(Replay(ops[..|ops| - 1]), ops[|ops| - 1])
  }

  /** The non-answer events a run pushed, in push order. */
  function PushedTerminals(ops: seq<Op>): seq<Event> {
    if ops == [] then []
    else PushedTerminals(ops[..|ops| - 1])
         + (if ops[|ops| - 1].OpTerminal? then [ops[|ops| - 1].event] else [])
  }

  /** Delivering the head moves its key or its event from what is queued to what was delivered. */
  lemma PopMovesHead(popped: seq<Item>, items: seq<Item>)
    requires items != []
    ensures |Keys(popped + [items[0]])| + |Keys(items[1..])| == |Keys(popped)| + |Keys(items)|
    ensures Terminals(popped + [items[0]]) + Terminals(items[1..]) == Terminals(popped) + Terminals(items)
    ensures Bounded(items) ==> Bounded(items[1..])
    ensures (popped + [items[0]]) + items[1..] == popped + items
  {
    var head, rest := [items[0]], items[1..];
    assert head + rest == items;
    KeysAppend(popped, head);
    KeysAppend(head, rest);
    Concat3(Terminals(popped), Terminals(head), Terminals(rest));
    Concat3(popped, head, rest);
    if Bounded(items) { NoRepeatsParts(Keys(head), Keys(rest)); }
  }

  lemma StepLosesNothing(r: Run, op: Op)
    requires Bounded(r.items)
    ensures var after := Step(r, op);
      && Bounded(after.items)
      && Terminals(after.popped) + Terminals(after.items) ==
           Terminals(r.popped) + Terminals(r.items) + (if op.OpTerminal? then [op.event] else [])
      && after.pushed - |Keys(after.popped)| - |Keys(after.items)| - after.coalesced - after.evicted ==
           r.pushed - |Keys(r.popped)| - |Keys(r.items)| - r.coalesced - r.evicted
  {
    match op
    case OpAnswer(key, answer) =>
      PushAnswerKeys(r.items, key, answer);
    case OpTerminal(event) =>
      KeysAppend(r.items, [Terminal(event)]);
      assert Keys([Terminal(event)]) == [] && Terminals([Terminal(event)]) == [event];
      assert Keys(r.items) + [] == Keys(r.items);
    case OpPop =>
      if r.items != [] { PopMovesHead(r.popped, r.items); }
  }

  /**
   Over every run: no terminal is lost, duplicated or reordered, whatever the answers do; every answer
   pushed is delivered, still queued, absorbed by a refresh or counted as evicted; and the number of
   queued answers stays within the cap.
   */
  lemma {:induction false} RunLosesNothingUncounted(ops: seq<Op>)
    ensures var r := Replay(ops);
      && Bounded(r.items)
      && Terminals(r.popped) + Terminals(r.items) == PushedTerminals(ops)
      && r.pushed == |Keys(r.popped)| + |Keys(r.items)| + r.coalesced + r.evicted
  {
    if ops != [] {
      var front, op := ops[..|ops| - 1], ops[|ops| - 1];
      RunLosesNothingUncounted(front);
      StepLosesNothing(Replay(front), op);
    }
  }

  /** The payload last pushed under `key`. */
  function LastPushed(ops: seq<Op>, key: AnswerKey): Option<CollectedAnswer> {
    if ops == [] then None
    else
      var op := ops[|ops| - 1];
      if op.OpAnswer? && op.key == key then Some(op.answer) else LastPushed(ops[..|ops| - 1], key)
  }

  lemma {:induction false} PushedItems(items: seq<Item>, key: AnswerKey, answer: CollectedAnswer, item: Item)
    requires Bounded(items) && item in PushAnswer(items, key, answer) && item.Answer?
    ensures if item.key == key then item.answer == answer else item in items
  {
    if Coalesces(items, key) {
      RefreshKeepsPlaces(items, key, answer);
    } else {
      KeysAre(items, key);
      if Evicts(items, key) { var k := DropOldestAt(items); }
    }
  }

  /** Over every run: whatever answer is queued, and so whatever is popped next, carries the payload last pushed for it. */
  lemma {:induction false} QueuedIsLatest(ops: seq<Op>, item: Item)
    requires item in Replay(ops).items && item.Answer?
    ensures LastPushed(ops, item.key) == Some(item.answer)
  {
    var front, op := ops[..|ops| - 1], ops[|ops| - 1];
    RunLosesNothingUncounted(front);
    match op
    case OpAnswer(key, answer) =>
      PushedItems(Replay(front).items, key, answer, item);
      if item.key != key { QueuedIsLatest(front, item); }
    case OpTerminal(_) => QueuedIsLatest(front, item);
    case OpPop => QueuedIsLatest(front, item);
  }
}

module EventQueues {
  import opened Answers
  import opened Basics
  import opened Fifo

  datatype Slot = SlotAnswer(key: AnswerKey, generation: nat) | SlotTerminal(event: Event)

  datatype LiveAnswer = LiveAnswer(generation: nat, answer: CollectedAnswer)

  /** A slot `Pop` will deliver: a terminal, or the current occurrence of its key. */
  predicate IsCurrent(slot: Slot, live: map<AnswerKey, LiveAnswer>) {
    slot.SlotAnswer? ==> slot.key in live && live[slot.key].generation == slot.generation
  }

  function ItemOf(slot: Slot, live: map<AnswerKey, LiveAnswer>): Item
    requires IsCurrent(slot, live)
  {
    match slot
    case SlotAnswer(key, _) => Answer(key, live[key].answer)
    case SlotTerminal(event) => Terminal(event)
  }

  /** The list a physical queue stands for: its current slots, with the payloads the map holds. */
  function Visible(queue: seq<Slot>, live: map<AnswerKey, LiveAnswer>): seq<Item> {
    if queue == [] then []
    else if IsCurrent(queue[0], live) then [ItemOf(queue[0], live)] + Visible(queue[1..], live)
    else Visible(queue[1..], live)
  }

  lemma {:induction false} VisibleAppend(a: seq<Slot>, b: seq<Slot>, live: map<AnswerKey, LiveAnswer>)
    ensures Visible(a + b, live) == Visible(a, live) + Visible(b, live)
  {
    if a == [] {
      assert a + b == b;
    } else {
      assert (a + b)[1..] == a[1..] + b;
      VisibleAppend(a[1..], b, live);
    }
  }

  lemma {:induction false} VisibleRefresh(queue: seq<Slot>, live: map<AnswerKey, LiveAnswer>,
                                          key: AnswerKey, answer: CollectedAnswer)
    requires key in live
    ensures Visible(queue, live[key := LiveAnswer(live[key].generation, answer)]) ==
            Refresh(Visible(queue, live), key, answer)
  {
    if queue != [] {
      VisibleRefresh(queue[1..], live, key, answer);
      if IsCurrent(queue[0], live) {
        var items := Visible(queue, live);
        assert items[1..] == Visible(queue[1..], live);
      }
    }
  }

  lemma {:induction false} VisibleWithout(queue: seq<Slot>, live: map<AnswerKey, LiveAnswer>, key: AnswerKey)
    ensures Visible(queue, live - {key}) == Without(Visible(queue, live), key)
  {
    if queue != [] {
      VisibleWithout(queue[1..], live, key);
      if IsCurrent(queue[0], live) {
        var items := Visible(queue, live);
        assert items[1..] == Visible(queue[1..], live);
      }
    }
  }

  /** Every answer slot's generation has already been issued. */
  ghost predicate IssuedBefore(queue: seq<Slot>, bound: nat) {
    queue == [] || ((queue[0].SlotAnswer? ==> queue[0].generation < bound) && IssuedBefore(queue[1..], bound))
  }

  lemma {:induction false} IssueNext(queue: seq<Slot>, bound: nat, slot: Slot)
    requires IssuedBefore(queue, bound)
    requires slot.SlotAnswer? ==> slot.generation <= bound
    ensures IssuedBefore(queue + [slot], if slot.SlotAnswer? then bound + 1 else bound)
  {
    if queue != [] {
      IssueNext(queue[1..], bound, slot);
      assert (queue + [slot])[1..] == queue[1..] + [slot];
    }
  }

  /** A generation no queued slot carries makes no stale slot current again. */
  lemma {:induction false} VisibleFresh(queue: seq<Slot>, live: map<AnswerKey, LiveAnswer>,
                                        key: AnswerKey, newest: LiveAnswer)
    requires key !in live
    requires IssuedBefore(queue, newest.generation)
    ensures Visible(queue, live[key := newest]) == Visible(queue, live)
  {
    if queue != [] {
      VisibleFresh(queue[1..], live, key, newest);
    }
  }

  /**
   The queue's invariant: the current slots, read in order, are exactly `order`, which lists the keys of
   `live` once each; no queued slot carries a generation still to be issued; `len` counts what is visible.
   */
  ghost predicate Consistent(queue: seq<Slot>, live: map<AnswerKey, LiveAnswer>, order: seq<AnswerKey>,
                             len: nat, nextGeneration: nat)
  {
    && Keys(Visible(queue, live)) == order
    && NoRepeats(order)
    && (forall k :: k in order <==> k in live)
    && |live| == |order| <= ANSWER_CAPACITY
    && IssuedBefore(queue, nextGeneration)
    && len == |Visible(queue, live)|
  }

  lemma RefreshAnswer(queue: seq<Slot>, live: map<AnswerKey, LiveAnswer>, order: seq<AnswerKey>, len: nat,
                      nextGeneration: nat, key: AnswerKey, answer: CollectedAnswer)
    requires Consistent(queue, live, order, len, nextGeneration) && key in live
    ensures var after := live[key := LiveAnswer(live[key].generation, answer)];
      && Visible(queue, after) == Refresh(Visible(queue, live), key, answer)
      && Consistent(queue, after, order, len, nextGeneration)
  {
    VisibleRefresh(queue, live, key, answer);
    RefreshKeepsPlaces(Visible(queue, live), key, answer);
    assert live[key := LiveAnswer(live[key].generation, answer)].Keys == live.Keys;
  }

  lemma EvictAnswer(queue: seq<Slot>, live: map<AnswerKey, LiveAnswer>, order: seq<AnswerKey>, len: nat,
                    nextGeneration: nat)
    requires Consistent(queue, live, order, len, nextGeneration) && order != []
    ensures len > 0
    ensures Visible(queue, live - {order[0]}) == DropOldest(Visible(queue, live))
    ensures Consistent(queue, live - {order[0]}, order[1..], len - 1, nextGeneration)
  {
    var items := Visible(queue, live);
    VisibleWithout(queue, live, order[0]);
    WithoutOldest(items);
    DropOldestTakesFront(items);
    assert order == [order[0]] + order[1..];
  }

  lemma AppendAnswer(queue: seq<Slot>, live: map<AnswerKey, LiveAnswer>, order: seq<AnswerKey>, len: nat,
                     nextGeneration: nat, key: AnswerKey, answer: CollectedAnswer)
    requires Consistent(queue, live, order, len, nextGeneration)
    requires key !in live && |order| < ANSWER_CAPACITY
    ensures var slot, after := SlotAnswer(key, nextGeneration), live[key := LiveAnswer(nextGeneration, answer)];
      && Visible(queue + [slot], after) == Visible(queue, live) + [Answer(key, answer)]
      && Consistent(queue + [slot], after, order + [key], len + 1, nextGeneration + 1)
  {
    var slot, after := SlotAnswer(key, nextGeneration), live[key := LiveAnswer(nextGeneration, answer)];
    VisibleFresh(queue, live, key, LiveAnswer(nextGeneration, answer));
    VisibleAppend(queue, [slot], after);
    assert Visible([slot], after) == [Answer(key, answer)];
    KeysAppend(Visible(queue, live), [Answer(key, answer)]);
    NoRepeatsSnoc(order, key);
    assert Keys([Answer(key, answer)]) == [key];
    IssueNext(queue, nextGeneration, slot);
  }

  /** Delivering the current answer at the front, and forgetting its key, leaves the rest of the list. */
  lemma DeliverAnswer(queue: seq<Slot>, live: map<AnswerKey, LiveAnswer>, order: seq<AnswerKey>,
                      len: nat, nextGeneration: nat)
    requires Consistent(queue, live, order, len, nextGeneration)
    requires queue != [] && queue[0].SlotAnswer? && IsCurrent(queue[0], live)
    ensures var items, key := Visible(queue, live), queue[0].key;
      && items != [] && order != [] && len > 0
      && items[0] == Answer(key, live[key].answer)
      && Visible(queue[1..], live - {key}) == items[1..]
      && Consistent(queue[1..], live - {key}, order[1..], len - 1, nextGeneration)
  {
    var items, key := Visible(queue, live), queue[0].key;
    assert items[1..] == Visible(queue[1..], live);
    assert order[1..] == Keys(items[1..]);
    VisibleWithout(queue[1..], live, key);
    WithoutAbsent(items[1..], key);
    assert order == [key] + order[1..];
  }

  /** Passing over a stale slot, or delivering a terminal, touches no answer. */
  lemma DeliverOther(queue: seq<Slot>, live: map<AnswerKey, LiveAnswer>, order: seq<AnswerKey>,
                     len: nat, nextGeneration: nat)
    requires Consistent(queue, live, order, len, nextGeneration)
    requires queue != [] && (queue[0].SlotTerminal? || !IsCurrent(queue[0], live))
    ensures var items := Visible(queue, live);
      if queue[0].SlotTerminal? then
        && items != [] && len > 0
        && items[0] == Terminal(queue[0].event)
        && Visible(queue[1..], live) == items[1..]
        && Consistent(queue[1..], live, order, len - 1, nextGeneration)
      else
        && Visible(queue[1..], live) == items
        && Consistent(queue[1..], live, order, len, nextGeneration)
  {
    if queue[0].SlotTerminal? {
      assert Visible(queue, live)[1..] == Visible(queue[1..], live);
    }
  }

  /** Keeping the current slots only changes nothing the caller sees. */
  function CurrentOnly(queue: seq<Slot>, live: map<AnswerKey, LiveAnswer>): seq<Slot> {
    if queue == [] then []
    else if IsCurrent(queue[0], live) then [queue[0]] + CurrentOnly(queue[1..], live)
    else CurrentOnly(queue[1..], live)
  }

  lemma {:induction false} CompactionIsInvisible(queue: seq<Slot>, live: map<AnswerKey, LiveAnswer>)
    ensures Visible(CurrentOnly(queue, live), live) == Visible(queue, live)
    ensures |CurrentOnly(queue, live)| == |Visible(queue, live)|
    ensures forall bound :: IssuedBefore(queue, bound) ==> IssuedBefore(CurrentOnly(queue, live), bound)
  {
    if queue != [] {
      CompactionIsInvisible(queue[1..], live);
      if IsCurrent(queue[0], live) {
        assert CurrentOnly(queue, live)[1..] == CurrentOnly(queue[1..], live);
      }
    }
  }

  class EventQueue {
    var queue: seq<Slot>
    var live: map<AnswerKey, LiveAnswer>
    var order: seq<AnswerKey>
    var dropped: nat
    var len: nat
    var nextGeneration: nat

    ghost function Contents(): seq<Item>
      reads this
    {
      Visible(queue, live)
    }

    ghost predicate Valid()
      reads this
    {
      Consistent(queue, live, order, len, nextGeneration)
    }

    constructor ()
      ensures Valid() && Contents() == [] && dropped == 0
    {
      queue, live, order, dropped, len, nextGeneration := [], map[], [], 0, 0, 0;
    }

    method PushAnswer(handle: QueryHandle, answer: CollectedAnswer)
      requires Valid()
      modifies this`queue, this`live, this`order, this`dropped, this`len, this`nextGeneration
      ensures Valid()
      ensures Contents() == Fifo.PushAnswer(old(Contents()), KeyOf(handle, answer), answer)
      ensures Answer(AnswerKey(handle, answer.rtype, answer.rclass, answer.rdataKey), answer) in Contents()
      ensures dropped == old(dropped) + (if Evicts(old(Contents()), KeyOf(handle, answer)) then 1 else 0)
    {
      var key := KeyOf(handle, answer);
      PushAnswerEffect(Contents(), handle, answer);
      if key in live {
        RefreshAnswer(queue, live, order, len, nextGeneration, key, answer);
        live := live[key := LiveAnswer(live[key].generation, answer)];
        return;
      }
      if |live| >= ANSWER_CAPACITY && order != [] { EvictOldest(); }
      Append(key, answer);
    }

    method EvictOldest()
      requires Valid() && order != []
      modifies this`live, this`order, this`dropped, this`len
      ensures Valid() && Contents() == DropOldest(old(Contents()))
      ensures order == old(order)[1..] && live == old(live) - {old(order)[0]} && dropped == old(dropped) + 1
    {
      EvictAnswer(queue, live, order, len, nextGeneration);
      live, order := live - {order[0]}, order[1..];
      dropped, len := dropped + 1, len - 1;
    }

    method Append(key: AnswerKey, answer: CollectedAnswer)
      requires Valid() && key !in live && |order| < ANSWER_CAPACITY
      modifies this`queue, this`live, this`order, this`len, this`nextGeneration
      ensures Valid() && Contents() == old(Contents()) + [Answer(key, answer)]
    {
      AppendAnswer(queue, live, order, len, nextGeneration, key, answer);
      var generation := nextGeneration;
      nextGeneration, order := nextGeneration + 1, order + [key];
      queue, live := queue + [SlotAnswer(key, generation)], live[key := LiveAnswer(generation, answer)];
      len := len + 1;
    }

    method PushTerminal(event: Event)
      requires Valid()
      requires !event.QueryAnswer?
      modifies this`queue, this`len
      ensures Valid()
      ensures Contents() == old(Contents()) + [Terminal(event)]
    {
      VisibleAppend(queue, [SlotTerminal(event)], live);
      KeysAppend(Contents(), [Terminal(event)]);
      assert Visible([SlotTerminal(event)], live) == [Terminal(event)];
      assert Keys([Terminal(event)]) == [];
      IssueNext(queue, nextGeneration, SlotTerminal(event));
      queue := queue + [SlotTerminal(event)];
      len := len + 1;
    }

    method Pop() returns (event: Option<Event>)
      requires Valid()
      modifies this`queue, this`live, this`order, this`len
      ensures Valid()
      ensures old(Contents()) == [] ==> event == None && Contents() == []
      ensures old(Contents()) != [] ==>
        && Contents() == old(Contents())[1..]
        && match old(Contents())[0]
           case Answer(key, answer) => event == Some(QueryAnswer(key.handle, answer))
           case Terminal(e) => event == Some(e)
    {
      while queue != []
        invariant Valid()
        invariant Contents() == old(Contents())
      {
        match queue[0]
        case SlotAnswer(key, generation) =>
          if key in live && live[key].generation == generation {
            DeliverAnswer(queue, live, order, len, nextGeneration);
            event := Some(QueryAnswer(key.handle, live[key].answer));
            queue, live, order, len := queue[1..], live - {key}, order[1..], len - 1;
            return;
          }
          // Stale: evicted, or superseded by a newer generation of the same key.
          DeliverOther(queue, live, order, len, nextGeneration);
          queue := queue[1..];
        case SlotTerminal(e) =>
          DeliverOther(queue, live, order, len, nextGeneration);
          queue, len := queue[1..], len - 1;
          return Some(e);
      }
      return None;
    }

    method RecordDropped(n: nat)
      requires Valid()
      modifies this`dropped
      ensures Valid() && Contents() == old(Contents())
      ensures dropped == old(dropped) + n
    {
      dropped := dropped + n;
    }

    /** Rebuilds the store from its current slots, as `retain` does. */
    method Compact()
      requires Valid()
      modifies this`queue
      ensures Valid() && Contents() == old(Contents())
      ensures |queue| == len == |order| + |Terminals(Contents())|
    {
      var kept := [];
      assert queue[0..] == queue;
      for i := 0 to |queue|
        invariant kept + CurrentOnly(queue[i..], live) == CurrentOnly(queue, live)
      {
        assert queue[i..][1..] == queue[i + 1..];
        if IsCurrent(queue[i], live) {
          kept := kept + [queue[i]];
        }
      }
      assert queue[|queue|..] == [];
      assert kept == CurrentOnly(queue, live);
      CompactionIsInvisible(queue, live);
      SizeSplits(Contents());
      queue := kept;
    }
  }
}
