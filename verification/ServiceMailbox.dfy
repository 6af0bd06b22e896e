/**
 The per-service delivery buffer (hick-compio/src/service.rs).

 The buffer coalesces: of the updates a slow reader has not drained it keeps only the newest of each kind.
 What must survive is not the list but what it means: the name the service now has, and whether it is
 established under that name. `Fold` computes that meaning, and the class keeps it equal for the updates
 pushed and for the updates delivered followed by those pending.
 */
module ServiceMailboxes {
  import opened Answers

  /** `Other` stands for a non-terminal kind the open enum may gain; the code has a branch for it. */
  datatype ServiceUpdate = Established | Renamed(name: string) | Conflict | HostConflict | Other(kind: nat) {
    predicate IsTerminal() {
      Conflict? || HostConflict?
    }
  }

  const SERVICE_UPDATE_CAPACITY: nat := 16

  // ----- Meaning -----

  datatype Known = Known(name: Option<string>, established: bool)

  const NOTHING_KNOWN := Known(None, false)

  function Learn(k: Known, u: ServiceUpdate): Known {
    match u
    case Established => k.(established := true)
    case Renamed(name) => Known(Some(name), false)
    case _ => k
  }

  function Fold(k: Known, updates: seq<ServiceUpdate>): Known {
    if updates == [] then k else Learn(Fold(k, updates[..|updates| - 1]), updates[|updates| - 1])
  }

  lemma {:induction false} FoldAppend(k: Known, a: seq<ServiceUpdate>, b: seq<ServiceUpdate>)
    ensures Fold(k, a + b) == Fold(Fold(k, a), b)
  {
    if b == [] {
      assert a + b == a;
    } else {
      assert (a + b)[..|a + b| - 1] == a + b[..|b| - 1];
      FoldAppend(k, a, b[..|b| - 1]);
    }
  }

  /** The name known is the last one told; the service is known established if that was told after it. */
  lemma {:induction false} KnownIs(updates: seq<ServiceUpdate>)
    ensures var known := Fold(NOTHING_KNOWN, updates);
      && (known.name == None <==> forall i :: 0 <= i < |updates| ==> !updates[i].Renamed?)
      && (forall i :: 0 <= i < |updates| && updates[i].Renamed? && (forall j :: i < j < |updates| ==> !updates[j].Renamed?)
            ==> known.name == Some(updates[i].name))
      && (known.established <==>
            exists i :: 0 <= i < |updates| && updates[i].Established? && forall j :: i < j < |updates| ==> !updates[j].Renamed?)
  {
    if updates != [] {
      var n := |updates| - 1;
      KnownIs(updates[..n]);
      var before := Fold(NOTHING_KNOWN, updates[..n]);
      if before.established && !updates[n].Renamed? {
        var i :| 0 <= i < n && updates[..n][i].Established? && forall j :: i < j < n ==> !updates[..n][j].Renamed?;
        assert updates[i].Established? && forall j :: i < j < n ==> !updates[j].Renamed? by {
          assert forall j :: 0 <= j < n ==> updates[..n][j] == updates[j];
        }
      }
      assert forall j :: 0 <= j < n ==> updates[..n][j] == updates[j];
    }
  }

  // ----- Coalescing -----

  predicate Supersedes(newer: ServiceUpdate, older: ServiceUpdate) {
    (newer.Renamed? && older.Renamed?) || (newer.Established? && older.Established?)
  }

  /** The pending updates a push of `u` leaves in place. */
  function Retained(updates: seq<ServiceUpdate>, u: ServiceUpdate): seq<ServiceUpdate> {
    if updates == [] then []
    else
      var front, last := updates[..|updates| - 1], updates[|updates| - 1];
      if Supersedes(u, last) then Retained(front, u) else Retained(front, u) + [last]
  }

  /** One by one, in order: an update of the kind of `u` goes if that kind coalesces, and any other stays. */
  lemma RetainedOne(u: ServiceUpdate, x: ServiceUpdate)
    ensures Retained([x], u) == if (u.Renamed? && x.Renamed?) || (u.Established? && x.Established?) then [] else [x]
  {
    assert [x][..0] == [] && Retained([x][..0], u) == [];
  }

  lemma {:induction false} RetainedJoins(a: seq<ServiceUpdate>, b: seq<ServiceUpdate>, u: ServiceUpdate)
    ensures Retained(a + b, u) == Retained(a, u) + Retained(b, u)
  {
    if b == [] {
      assert a + b == a;
    } else {
      assert (a + b)[..|a + b| - 1] == a + b[..|b| - 1];
      RetainedJoins(a, b[..|b| - 1], u);
    }
  }

  predicate Overflows(updates: seq<ServiceUpdate>, u: ServiceUpdate) {
    |Retained(updates, u)| >= SERVICE_UPDATE_CAPACITY
  }

  /** The pending updates after a non-terminal push. */
  function Pushed(updates: seq<ServiceUpdate>, u: ServiceUpdate): seq<ServiceUpdate> {
    var kept := Retained(updates, u);
    (if |kept| >= SERVICE_UPDATE_CAPACITY then kept[1..] else kept) + [u]
  }

  /** Dropping what a push supersedes does not change what the reader will know after it. */
  lemma {:induction false} CoalescingKeepsMeaning(k: Known, updates: seq<ServiceUpdate>, u: ServiceUpdate)
    requires !Overflows(updates, u)
    ensures Fold(k, Pushed(updates, u)) == Learn(Fold(k, updates), u)
  {
    RetainedMeaning(k, updates, u);
    var kept := Retained(updates, u);
    assert (kept + [u])[..|kept|] == kept;
  }

  /** Two readers an update would leave alike are left alike by it after any other. */
  lemma LearnAfter(a: Known, b: Known, last: ServiceUpdate, u: ServiceUpdate)
    requires Learn(a, u) == Learn(b, u) && (!u.Renamed? ==> a.name == b.name)
    ensures Learn(Learn(a, last), u) == Learn(Learn(b, last), u)
    ensures !u.Renamed? ==> Learn(a, last).name == Learn(b, last).name
  {
  }

  lemma FoldSnoc(k: Known, updates: seq<ServiceUpdate>, last: ServiceUpdate)
    ensures Fold(k, updates + [last]) == Learn(Fold(k, updates), last)
  {
    assert (updates + [last])[..|updates|] == updates;
  }

  lemma {:induction false} RetainedMeaning(k: Known, updates: seq<ServiceUpdate>, u: ServiceUpdate)
    ensures Learn(Fold(k, Retained(updates, u)), u) == Learn(Fold(k, updates), u)
    ensures !u.Renamed? ==> Fold(k, Retained(updates, u)).name == Fold(k, updates).name
    ensures !u.Renamed? && !u.Established? ==> Retained(updates, u) == updates
  {
    if updates != [] {
      var front, last := updates[..|updates| - 1], updates[|updates| - 1];
      RetainedMeaning(k, front, u);
      assert front + [last] == updates;
      assert Fold(k, updates) == Learn(Fold(k, front), last);
      if !Supersedes(u, last) {
        FoldSnoc(k, Retained(front, u), last);
        LearnAfter(Fold(k, Retained(front, u)), Fold(k, front), last, u);
      }
    }
  }

  // ----- Bounds -----

  function Count(updates: seq<ServiceUpdate>, u: ServiceUpdate): nat {
    if updates == [] then 0
    else Count(updates[..|updates| - 1], u) + (if Supersedes(u, updates[|updates| - 1]) then 1 else 0)
  }

  function Others(updates: seq<ServiceUpdate>): nat {
    if updates == [] then 0
    else Others(updates[..|updates| - 1]) + (if updates[|updates| - 1].Other? then 1 else 0)
  }

  lemma {:induction false} NoOthers(updates: seq<ServiceUpdate>)
    requires forall u :: u in updates ==> !u.Other?
    ensures Others(updates) == 0
  {
    if updates != [] { NoOthers(updates[..|updates| - 1]); }
  }

  ghost predicate NoTerminals(updates: seq<ServiceUpdate>) {
    forall i :: 0 <= i < |updates| ==> !updates[i].IsTerminal()
  }

  /** At most one update of each coalescing kind is pending. */
  ghost predicate Coalesced(updates: seq<ServiceUpdate>) {
    NoTerminals(updates) && Count(updates, Renamed("")) <= 1 && Count(updates, Established) <= 1
  }

  lemma {:induction false} CountsSplit(updates: seq<ServiceUpdate>)
    requires NoTerminals(updates)
    ensures |updates| == Count(updates, Renamed("")) + Count(updates, Established) + Others(updates)
  {
    if updates != [] {
      CountsSplit(updates[..|updates| - 1]);
      assert !updates[|updates| - 1].IsTerminal();
    }
  }

  lemma {:induction false} CountAppend(a: seq<ServiceUpdate>, b: seq<ServiceUpdate>, u: ServiceUpdate)
    ensures Count(a + b, u) == Count(a, u) + Count(b, u)
    ensures Others(a + b) == Others(a) + Others(b)
  {
    if b == [] {
      assert a + b == a;
    } else {
      assert (a + b)[..|a + b| - 1] == a + b[..|b| - 1];
      CountAppend(a, b[..|b| - 1], u);
    }
  }

  lemma {:induction false} RetainedCounts(updates: seq<ServiceUpdate>, u: ServiceUpdate, kind: ServiceUpdate)
    requires NoTerminals(updates)
    ensures NoTerminals(Retained(updates, u))
    ensures Count(Retained(updates, u), kind) == if Supersedes(u, kind) then 0 else Count(updates, kind)
    ensures Others(Retained(updates, u)) == Others(updates)
    ensures |Retained(updates, u)| <= |updates|
  {
    if updates != [] {
      var front, last := updates[..|updates| - 1], updates[|updates| - 1];
      RetainedCounts(front, u, kind);
      var kept := Retained(front, u);
      assert (kept + [last])[..|kept|] == kept;
    }
  }

  lemma CountSnoc(updates: seq<ServiceUpdate>, u: ServiceUpdate, kind: ServiceUpdate)
    ensures Count(updates + [u], kind) == Count(updates, kind) + (if Supersedes(kind, u) then 1 else 0)
    ensures Others(updates + [u]) == Others(updates) + (if u.Other? then 1 else 0)
  {
    assert (updates + [u])[..|updates|] == updates;
  }

  lemma RetainedCoalesced(updates: seq<ServiceUpdate>, u: ServiceUpdate)
    requires Coalesced(updates) && !u.IsTerminal()
    ensures Coalesced(Retained(updates, u)) && Coalesced(Retained(updates, u) + [u])
  {
    var kept := Retained(updates, u);
    RetainedCounts(updates, u, Renamed(""));
    RetainedCounts(updates, u, Established);
    CountSnoc(kept, u, Renamed(""));
    CountSnoc(kept, u, Established);
  }

  lemma PushCounts(updates: seq<ServiceUpdate>, u: ServiceUpdate)
    requires Coalesced(updates) && !u.IsTerminal()
    ensures Coalesced(Retained(updates, u))
    ensures !Overflows(updates, u) ==> Coalesced(Pushed(updates, u))
    ensures !Overflows(updates, u) ==> Others(Pushed(updates, u)) == Others(updates) + (if u.Other? then 1 else 0)
    ensures Overflows(updates, u) ==> Others(updates) >= SERVICE_UPDATE_CAPACITY - 2
  {
    var kept := Retained(updates, u);
    RetainedCoalesced(updates, u);
    RetainedCounts(updates, u, u);
    CountsSplit(kept);
    CountSnoc(kept, u, u);
  }

  lemma DropFirstCounts(updates: seq<ServiceUpdate>, kind: ServiceUpdate)
    requires updates != []
    ensures Count(updates[1..], kind) <= Count(updates, kind) && Others(updates[1..]) <= Others(updates)
  {
    assert [updates[0]] + updates[1..] == updates;
    CountAppend([updates[0]], updates[1..], kind);
  }

  lemma EvictingPushCounts(updates: seq<ServiceUpdate>, u: ServiceUpdate)
    requires Coalesced(updates) && !u.IsTerminal() && Overflows(updates, u)
    ensures Coalesced(Pushed(updates, u))
  {
    var all := Retained(updates, u) + [u];
    RetainedCoalesced(updates, u);
    DropFirstCounts(all, Renamed(""));
    DropFirstCounts(all, Established);
    assert Pushed(updates, u) == all[1..];
  }

  /** With the kinds there are today, at most two updates are ever pending and the cap never evicts. */
  lemma CapNeverBitesToday(updates: seq<ServiceUpdate>, u: ServiceUpdate)
    requires Coalesced(updates) && Others(updates) == 0 && !u.IsTerminal()
    ensures |updates| <= 2 && !Overflows(updates, u)
  {
    CountsSplit(updates);
    PushCounts(updates, u);
  }

  lemma OthersOfPushed(updates: seq<ServiceUpdate>, u: ServiceUpdate)
    requires Coalesced(updates)
    ensures Others(Pushed(updates, u)) <= Others(updates) + (if u.Other? then 1 else 0)
  {
    var kept := Retained(updates, u);
    RetainedCounts(updates, u, u);
    var base := if |kept| >= SERVICE_UPDATE_CAPACITY then kept[1..] else kept;
    CountSnoc(base, u, u);
    if |kept| >= SERVICE_UPDATE_CAPACITY { DropFirstCounts(kept, u); }
  }

  lemma Snoc(updates: seq<ServiceUpdate>, u: ServiceUpdate)
    ensures Others(updates + [u]) == Others(updates) + (if u.Other? then 1 else 0)
    ensures forall k :: Fold(k, updates + [u]) == Learn(Fold(k, updates), u)
  {
    assert (updates + [u])[..|updates|] == updates;
  }

  /** What the pending updates owe to those pushed and those delivered. */
  ghost predicate Meant(updates: seq<ServiceUpdate>, pushed: seq<ServiceUpdate>, delivered: seq<ServiceUpdate>,
                        evicted: bool)
  {
    && Coalesced(updates) && |updates| <= SERVICE_UPDATE_CAPACITY
    && Others(updates) <= Others(pushed)
    && (evicted ==> Others(pushed) >= SERVICE_UPDATE_CAPACITY - 2)
    && (!evicted ==> Fold(Fold(NOTHING_KNOWN, delivered), updates) == Fold(NOTHING_KNOWN, pushed))
  }

  /** Everything a non-terminal push keeps. */
  lemma PushKeeps(updates: seq<ServiceUpdate>, pushed: seq<ServiceUpdate>, delivered: seq<ServiceUpdate>, evicted: bool,
                  u: ServiceUpdate, after: seq<ServiceUpdate>, lost: bool)
    requires Meant(updates, pushed, delivered, evicted) && !u.IsTerminal()
    requires after == Pushed(updates, u) && lost == (evicted || Overflows(updates, u))
    ensures Meant(after, pushed + [u], delivered, lost)
  {
    Snoc(pushed, u);
    RetainedCounts(updates, u, u);
    PushCounts(updates, u);
    OthersOfPushed(updates, u);
    if Overflows(updates, u) {
      EvictingPushCounts(updates, u);
    } else {
      CoalescingKeepsMeaning(Fold(NOTHING_KNOWN, delivered), updates, u);
    }
  }

  /** Everything a read keeps. */
  lemma DrainKeeps(updates: seq<ServiceUpdate>, pushed: seq<ServiceUpdate>, delivered: seq<ServiceUpdate>, evicted: bool)
    requires Meant(updates, pushed, delivered, evicted) && updates != []
    ensures Meant(updates[1..], pushed, delivered + [updates[0]], evicted)
  {
    DropFirstCounts(updates, Renamed(""));
    DropFirstCounts(updates, Established);
    assert [updates[0]] + updates[1..] == updates;
    FoldAppend(Fold(NOTHING_KNOWN, delivered), [updates[0]], updates[1..]);
    FoldAppend(NOTHING_KNOWN, delivered, [updates[0]]);
  }

  // ----- The buffer -----

  datatype Drained = Update(update: ServiceUpdate) | Ended | Empty

  class ServiceMailbox {
    var updates: seq<ServiceUpdate>
    var terminal: Option<ServiceUpdate>
    var terminalDelivered: bool
    /** Every non-terminal update pushed, and delivered, in order; and whether the cap has evicted one. */
    ghost var pushed: seq<ServiceUpdate>
    ghost var delivered: seq<ServiceUpdate>
    ghost var evicted: bool
    /** The first terminal offered, and the terminals delivered. */
    ghost var firstTerminal: Option<ServiceUpdate>
    ghost var deliveredTerminals: seq<ServiceUpdate>

    ghost predicate Valid()
      reads this
    {
      Meant(updates, pushed, delivered, evicted) && TerminalOnce()
    }

    /** The first terminal is pending, delivered once, or has not come. */
    ghost predicate TerminalOnce()
      reads this
    {
      && (terminal.Some? ==> terminal == firstTerminal && !terminalDelivered)
      && (firstTerminal.Some? ==> terminal.Some? || terminalDelivered)
      && deliveredTerminals == (if terminalDelivered && firstTerminal.Some? then [firstTerminal.value] else [])
      && (terminalDelivered ==> firstTerminal.Some?)
    }

    constructor ()
      ensures Valid() && updates == [] && pushed == [] && delivered == [] && !evicted && firstTerminal == None
    {
      updates, terminal, terminalDelivered := [], None, false;
      pushed, delivered, evicted, firstTerminal, deliveredTerminals := [], [], false, None, [];
    }

    /** A terminal goes to its own slot; any other update joins the pending ones. */
    method PushUpdate(u: ServiceUpdate)
      requires Valid()
      modifies this`updates, this`pushed, this`evicted, this`terminal, this`firstTerminal
      ensures Valid()
      ensures u.IsTerminal() ==> updates == old(updates) && pushed == old(pushed) && evicted == old(evicted)
      ensures u.IsTerminal() ==> firstTerminal == if old(firstTerminal).None? then Some(u) else old(firstTerminal)
      ensures u.IsTerminal() ==> terminal == if old(terminal).None? && !terminalDelivered then Some(u) else old(terminal)
      ensures !u.IsTerminal() ==>
        var kept := Retained(old(updates), u);
        updates == (if |kept| >= 16 then kept[1..] else kept) + [u]
      ensures !u.IsTerminal() ==> pushed == old(pushed) + [u] && terminal == old(terminal)
      ensures !u.IsTerminal() ==> evicted == (old(evicted) || Overflows(old(updates), u))
      ensures !u.IsTerminal() ==> firstTerminal == old(firstTerminal)
    {
      if u.IsTerminal() {
        SetTerminal(u);
        return;
      }
      PushNonTerminal(u);
    }

    method PushNonTerminal(u: ServiceUpdate)
      requires Meant(updates, pushed, delivered, evicted) && !u.IsTerminal()
      modifies this`updates, this`pushed, this`evicted
      ensures Meant(updates, pushed, delivered, evicted)
      ensures updates == Pushed(old(updates), u)
      ensures pushed == old(pushed) + [u]
      ensures evicted == (old(evicted) || Overflows(old(updates), u))
    {
      ghost var overflowed := Coalesce(u);
      PushKeeps(old(updates), pushed, delivered, evicted, u, updates, evicted || overflowed);
      evicted, pushed := evicted || overflowed, pushed + [u];
    }

    /** Drops what `u` supersedes and appends it, within the cap. */
    method Coalesce(u: ServiceUpdate) returns (ghost overflowed: bool)
      modifies this`updates
      ensures updates == Pushed(old(updates), u) && overflowed == Overflows(old(updates), u)
    {
      updates := Retain(u);
      overflowed := |updates| >= SERVICE_UPDATE_CAPACITY;
      BoundedPushBack(u);
    }

    /** Keeps every pending update `u` does not supersede, in order. */
    method Retain(u: ServiceUpdate) returns (kept: seq<ServiceUpdate>)
      ensures kept == Retained(updates, u)
    {
      kept := [];
      for i := 0 to |updates|
        invariant kept == Retained(updates[..i], u)
      {
        assert updates[..i + 1][..i] == updates[..i];
        if !Supersedes(u, updates[i]) { kept := kept + [updates[i]]; }
      }
      assert updates[..|updates|] == updates;
    }

    method BoundedPushBack(u: ServiceUpdate)
      modifies this`updates
      ensures updates == (if |old(updates)| >= SERVICE_UPDATE_CAPACITY then old(updates)[1..] else old(updates)) + [u]
    {
      if |updates| >= SERVICE_UPDATE_CAPACITY {
        updates := updates[1..];
      }
      updates := updates + [u];
    }

    /** The first terminal wins, and none is recorded after one was delivered. */
    method SetTerminal(t: ServiceUpdate)
      requires TerminalOnce() && t.IsTerminal()
      modifies this`terminal, this`firstTerminal
      ensures TerminalOnce()
      ensures terminal == if old(terminal).None? && !terminalDelivered then Some(t) else old(terminal)
      ensures firstTerminal == if old(firstTerminal).Some? then old(firstTerminal) else Some(t)
    {
      if terminal.None? && !terminalDelivered {
        terminal := Some(t);
        firstTerminal := Some(t);
      }
    }

    /** The next update for the reader: pending ones first, then the terminal, then the end. */
    method Drain() returns (drained: Drained)
      requires Valid()
      modifies this
      ensures Valid()
      ensures pushed == old(pushed) && evicted == old(evicted) && firstTerminal == old(firstTerminal)
      ensures updates == if old(updates) == [] then [] else old(updates)[1..]
      ensures delivered == if old(updates) == [] then old(delivered) else old(delivered) + [old(updates)[0]]
      ensures deliveredTerminals ==
        if old(updates) == [] && old(terminal).Some? then [old(terminal).value] else old(deliveredTerminals)
      ensures drained ==
        if old(updates) != [] then Update(old(updates)[0])
        else if old(terminal).Some? then Update(old(terminal).value)
        else if old(terminalDelivered) then Ended
        else Empty
      ensures terminalDelivered == (old(terminalDelivered) || (old(updates) == [] && old(terminal).Some?))
    {
      if updates != [] {
        var u := updates[0];
        DrainKeeps(updates, pushed, delivered, evicted);
        updates := updates[1..];
        delivered := delivered + [u];
        return Update(u);
      }
      if terminal.Some? {
        drained := Update(terminal.value);
        deliveredTerminals := deliveredTerminals + [terminal.value];
        terminal, terminalDelivered := None, true;
        return;
      }
      return if terminalDelivered then Ended else Empty;
    }

    /**
     What a reader can rely on at any moment, with the kinds there are today: what it has read followed by
     what is pending means the same as everything pushed; the backlog is at most two; and at most one
     terminal, the first offered, is ever delivered.
     */
    lemma ReaderLearnsEverything()
      requires Valid() && forall u :: u in pushed ==> !u.Other?
      ensures Fold(NOTHING_KNOWN, delivered + updates) == Fold(NOTHING_KNOWN, pushed)
      ensures |updates| <= 2
      ensures |deliveredTerminals| <= 1 && forall t :: t in deliveredTerminals ==> Some(t) == firstTerminal
    {
      NoOthers(pushed);
      FoldAppend(NOTHING_KNOWN, delivered, updates);
      CapNeverBitesToday(updates, Established);
    }
  }

  /** A future kind that did not coalesce could push a rename out: sixteen of them do. */
  lemma FutureKindsCanEvict(updates: seq<ServiceUpdate>, u: ServiceUpdate, name: string)
    requires |updates| == SERVICE_UPDATE_CAPACITY && updates[0] == Renamed(name) && u.Other?
    requires forall i :: 1 <= i < |updates| ==> updates[i].Other?
    ensures Fold(NOTHING_KNOWN, Pushed(updates, u)) != Learn(Fold(NOTHING_KNOWN, updates), u)
  {
    RetainedMeaning(NOTHING_KNOWN, updates, u);
    OthersMeanNothing(NOTHING_KNOWN, updates[1..] + [u]);
    FoldAppend(NOTHING_KNOWN, [updates[0]], updates[1..]);
    assert [updates[0]] + updates[1..] == updates;
    OthersMeanNothing(Fold(NOTHING_KNOWN, [updates[0]]), updates[1..]);
    assert [updates[0]][..0] == [];
  }

  lemma {:induction false} OthersMeanNothing(k: Known, updates: seq<ServiceUpdate>)
    requires forall i :: 0 <= i < |updates| ==> updates[i].Other?
    ensures Fold(k, updates) == k
  {
    if updates != [] { OthersMeanNothing(k, updates[..|updates| - 1]); }
  }
}
