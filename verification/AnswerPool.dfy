/**
 The bounded pool a query collects its answers in (mdns-proto/src/query/mod.rs).

 The pool is a slab: an eviction frees a slot in the middle and a later insert may take it, so slot order
 says nothing about sequence order. What holds instead is `Window`: the retained sequence numbers are
 exactly the newest `count` of those ever accepted. Both consumers of the pool rest on it.
 */
module AnswerPools {
  import opened Answers

  type Slab = seq<Option<CollectedAnswer>>

  function Occupied(slots: Slab): nat {
    if slots == [] then 0 else (if slots[0].Some? then 1 else 0) + Occupied(slots[1..])
  }

  ghost predicate Holds(slots: Slab, seqNo: nat) {
    exists i :: 0 <= i < |slots| && slots[i].Some? && slots[i].value.seqNo == seqNo
  }

  ghost predicate DistinctSeqs(slots: Slab) {
    forall i, j :: 0 <= i < j < |slots| && slots[i].Some? && slots[j].Some? ==>
      slots[i].value.seqNo != slots[j].value.seqNo
  }

  /** The retained answers are the newest `Occupied(slots)` of the `accepted` ones, once each. */
  ghost predicate Window(slots: Slab, accepted: nat) {
    && DistinctSeqs(slots)
    && Occupied(slots) <= accepted
    && forall s: nat :: Holds(slots, s) <==> accepted - Occupied(slots) <= s < accepted
  }

  lemma {:induction false} OccupiedUpdate(slots: Slab, i: nat, x: Option<CollectedAnswer>)
    requires i < |slots|
    ensures Occupied(slots[i := x]) ==
      Occupied(slots) - (if slots[i].Some? then 1 else 0) + (if x.Some? then 1 else 0)
  {
    if i == 0 {
      assert slots[0 := x][1..] == slots[1..];
    } else {
      assert slots[i := x][1..] == slots[1..][i - 1 := x];
      OccupiedUpdate(slots[1..], i - 1, x);
    }
  }

  lemma {:induction false} OccupiedAppend(slots: Slab, x: Option<CollectedAnswer>)
    ensures Occupied(slots + [x]) == Occupied(slots) + (if x.Some? then 1 else 0)
  {
    if slots != [] {
      assert (slots + [x])[1..] == slots[1..] + [x];
      OccupiedAppend(slots[1..], x);
    }
  }

  lemma {:induction false} OccupiedPositive(slots: Slab, i: nat)
    requires i < |slots| && slots[i].Some?
    ensures Occupied(slots) > 0
  {
    if i > 0 { OccupiedPositive(slots[1..], i - 1); }
  }

  /** Evicting the lowest sequence number keeps a window a window. */
  lemma EvictKeepsWindow(slots: Slab, accepted: nat, victim: nat)
    requires Window(slots, accepted)
    requires victim < |slots| && slots[victim].Some?
    requires forall i :: 0 <= i < |slots| && slots[i].Some? ==> slots[victim].value.seqNo <= slots[i].value.seqNo
    ensures Window(slots[victim := None], accepted)
    ensures Occupied(slots[victim := None]) == Occupied(slots) - 1
    ensures slots[victim].value.seqNo == accepted - Occupied(slots)
  {
    OccupiedPositive(slots, victim);
    OccupiedUpdate(slots, victim, None);
    var low: nat := accepted - Occupied(slots);
    assert Holds(slots, low);
    assert Holds(slots, slots[victim].value.seqNo);
    var after := slots[victim := None];
    forall s: nat
      ensures Holds(after, s) <==> accepted - Occupied(after) <= s < accepted
    {
      if Holds(slots, s) && s != low {
        var i :| 0 <= i < |slots| && slots[i].Some? && slots[i].value.seqNo == s;
        assert after[i].Some? && after[i].value.seqNo == s;
      }
      if Holds(after, s) {
        var i :| 0 <= i < |after| && after[i].Some? && after[i].value.seqNo == s;
        assert slots[i].Some? && slots[i].value.seqNo == s && i != victim;
        assert Holds(slots, s);
      }
    }
  }

  /** Storing the next answer in any vacant slot keeps a window a window. */
  lemma StoreKeepsWindow(slots: Slab, accepted: nat, i: nat, answer: CollectedAnswer)
    requires Window(slots, accepted)
    requires i <= |slots| && (i < |slots| ==> slots[i].None?)
    requires answer.seqNo == accepted
    ensures var after := if i < |slots| then slots[i := Some(answer)] else slots + [Some(answer)];
      Window(after, accepted + 1) && Occupied(after) == Occupied(slots) + 1
  {
    var after := if i < |slots| then slots[i := Some(answer)] else slots + [Some(answer)];
    if i < |slots| {
      OccupiedUpdate(slots, i, Some(answer));
    } else {
      OccupiedAppend(slots, Some(answer));
    }
    forall j | 0 <= j < |after| && j != i && after[j].Some?
      ensures j < |slots| && after[j] == slots[j] && after[j].value.seqNo < accepted
    {
      assert after[j] == slots[j];
      assert Holds(slots, slots[j].value.seqNo);
    }
    assert after[i] == Some(answer);
    forall s: nat
      ensures Holds(after, s) <==> Holds(slots, s) || s == accepted
    {
      if Holds(slots, s) {
        var j :| 0 <= j < |slots| && slots[j].Some? && slots[j].value.seqNo == s;
        assert after[j] == slots[j];
      }
    }
  }

  /** Between two windows one answer apart, the oldest leaves if the pool was full, and nothing else does. */
  lemma OldestLeaves(before: Slab, after: Slab, accepted: nat, full: bool, a: CollectedAnswer)
    requires Window(before, accepted) && Window(after, accepted + 1) && Some(a) in before
    requires Occupied(after) == Occupied(before) + (if full then 0 else 1)
    requires forall x :: x in after && x.Some? && x.value.seqNo != accepted ==> x in before
    ensures Some(a) !in after <==>
      full && forall b :: b in before && b.Some? ==> a.seqNo <= b.value.seqNo
  {
    var low: nat := accepted - Occupied(before);
    var i :| 0 <= i < |before| && before[i] == Some(a);
    assert Holds(before, a.seqNo);
    if Holds(after, a.seqNo) {
      var j :| 0 <= j < |after| && after[j].Some? && after[j].value.seqNo == a.seqNo;
      assert after[j] in before;
      var k :| 0 <= k < |before| && before[k] == after[j];
      assert k == i;
    } else {
      assert Some(a) in after ==> Holds(after, a.seqNo);
      assert a.seqNo == low;
    }
    if a.seqNo != low {
      assert Holds(before, low);
      var k :| 0 <= k < |before| && before[k].Some? && before[k].value.seqNo == low;
      assert before[k] in before;
    }
    forall b | b in before && b.Some?
      ensures low <= b.value.seqNo
    {
      var k :| 0 <= k < |before| && before[k] == b;
      assert Holds(before, b.value.seqNo);
    }
  }

  /** Of the answers there were, the one with the lowest sequence number left, if the pool was full, and no other. */
  ghost predicate OnlyOldestLeft(before: Slab, after: Slab, full: bool) {
    forall a :: Some(a) in before ==>
      (Some(a) !in after <==> full && forall b :: b in before && b.Some? ==> a.seqNo <= b.value.seqNo)
  }

  lemma WindowMoves(before: Slab, after: Slab, accepted: nat, full: bool)
    requires Window(before, accepted) && Window(after, accepted + 1)
    requires Occupied(after) == Occupied(before) + (if full then 0 else 1)
    requires forall x :: x in after && x.Some? && x.value.seqNo != accepted ==> x in before
    ensures OnlyOldestLeft(before, after, full)
  {
    forall a | Some(a) in before
      ensures Some(a) !in after <==> full && forall b :: b in before && b.Some? ==> a.seqNo <= b.value.seqNo
    {
      OldestLeaves(before, after, accepted, full, a);
    }
  }

  class AnswerPool {
    var slots: Slab
    var nextSeq: nat
    const maxAnswers: nat
    /** How many slots a fixed-size pool has; a heap-backed one has no limit. */
    const capacity: Option<nat>

    ghost predicate Valid()
      reads this
    {
      Window(slots, nextSeq) && Occupied(slots) <= maxAnswers
      && (capacity.Some? ==> Occupied(slots) <= capacity.value)
    }

    ghost predicate AtCap()
      reads this
    {
      Occupied(slots) == maxAnswers || capacity == Some(Occupied(slots))
    }

    constructor (maxAnswers: nat, capacity: Option<nat>)
      ensures Valid() && nextSeq == 0 && slots == []
      ensures this.maxAnswers == maxAnswers && this.capacity == capacity
    {
      this.maxAnswers, this.capacity := maxAnswers, capacity;
      slots, nextSeq := [], 0;
    }

    /** Whether a record with the same identity is already collected. */
    predicate Duplicate(rtype: nat, rclass: nat, rdataKey: Bytes)
      reads this
    {
      exists i :: 0 <= i < |slots| && slots[i].Some? && slots[i].value.rtype == rtype
                  && slots[i].value.rclass == rclass && slots[i].value.rdataKey == rdataKey
    }

    /** The slot of the lowest retained sequence number. */
    method Oldest() returns (victim: Option<nat>)
      ensures victim == None ==> forall i :: 0 <= i < |slots| ==> slots[i].None?
      ensures victim.Some? ==> victim.value < |slots| && slots[victim.value].Some?
      ensures victim.Some? ==> forall i :: 0 <= i < |slots| && slots[i].Some? ==>
        slots[victim.value].value.seqNo <= slots[i].value.seqNo
    {
      victim := None;
      for i := 0 to |slots|
        invariant victim == None ==> forall j :: 0 <= j < i ==> slots[j].None?
        invariant victim.Some? ==> victim.value < i && slots[victim.value].Some?
        invariant victim.Some? ==> forall j :: 0 <= j < i && slots[j].Some? ==>
          slots[victim.value].value.seqNo <= slots[j].value.seqNo
      {
        if slots[i].Some? {
          if victim == None || slots[i].value.seqNo < slots[victim.value].value.seqNo {
            victim := Some(i);
          }
        }
      }
    }

    /** Some vacant slot, or one past the end when there is none; which one is the slab's own business. */
    method Vacant() returns (i: nat)
      ensures i <= |slots| && (i < |slots| ==> slots[i].None?)
    {
      if j: nat :| j < |slots| && slots[j].None? {
        i := j;
      } else {
        i := |slots|;
      }
    }

    method Len() returns (n: nat)
      ensures n == Occupied(slots)
    {
      n := 0;
      assert slots[0..] == slots;
      for i := 0 to |slots|
        invariant n + Occupied(slots[i..]) == Occupied(slots)
      {
        assert slots[i..][1..] == slots[i + 1..];
        if slots[i].Some? { n := n + 1; }
      }
    }

    /**
     Collects one record that passed the type, class and TTL filters: duplicates are skipped, a full pool
     evicts its oldest answer, and the new one takes the next sequence number.
     */
    method Collect(rtype: nat, rclass: nat, rdata: Bytes, rdataKey: Bytes) returns (collected: bool)
      requires Valid()
      modifies this`slots, this`nextSeq
      ensures Valid()
      ensures collected <==>
        && maxAnswers > 0 && capacity != Some(0)
        && forall i :: 0 <= i < |old(slots)| && old(slots)[i].Some? ==>
             old(slots)[i].value.rtype != rtype || old(slots)[i].value.rclass != rclass ||
             old(slots)[i].value.rdataKey != rdataKey
      ensures nextSeq == old(nextSeq) + (if collected then 1 else 0)
      ensures collected ==>
        Some(CollectedAnswer(rtype, rclass, rdata, rdataKey, old(nextSeq))) in slots
      ensures !collected ==> slots == old(slots)
      ensures forall a :: a in slots && a.Some? && a.value.seqNo != old(nextSeq) ==> a in old(slots)
      ensures collected ==>
        var full := old(Occupied(slots)) == maxAnswers || capacity == Some(old(Occupied(slots)));
        && Occupied(slots) == (if full then old(Occupied(slots)) else old(Occupied(slots)) + 1)
        && OnlyOldestLeft(old(slots), slots, full)
    {
      if Duplicate(rtype, rclass, rdataKey) || maxAnswers == 0 {
        return false;
      }
      var n := Len();
      if n >= maxAnswers || capacity == Some(n) {
        var victim := Oldest();
        if victim.Some? {
          EvictKeepsWindow(slots, nextSeq, victim.value);
          slots := slots[victim.value := None];
          n := n - 1;
        } else {
          AllVacant(slots);
        }
      }
      if capacity == Some(n) {
        return false;
      }
      var i := Vacant();
      var answer := CollectedAnswer(rtype, rclass, rdata, rdataKey, nextSeq);
      StoreKeepsWindow(slots, nextSeq, i, answer);
      slots := if i < |slots| then slots[i := Some(answer)] else slots + [Some(answer)];
      nextSeq := nextSeq + 1;
      assert slots[i] == Some(answer);
      WindowMoves(old(slots), slots, old(nextSeq), old(AtCap()));
      return true;
    }
  }

  lemma {:induction false} AllVacant(slots: Slab)
    requires forall i :: 0 <= i < |slots| ==> slots[i].None?
    ensures Occupied(slots) == 0
  {
    if slots != [] { AllVacant(slots[1..]); }
  }
}
