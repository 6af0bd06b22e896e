/** Address lists as both DNS-SD resolvers keep them: in arrival order, without repeats, capped per family. */
module HostAddresses {
  const MAX_ADDRS_PER_HOST: nat := 16

  /** Names are stored canonical-lowercase, so a name is its own case-folded key. */
  type Name = string

  datatype IpAddr = V4(ipv4: nat) | V6(ipv6: nat)

  function PushCapped<T(==)>(v: seq<T>, item: T): seq<T> {
    if |v| >= MAX_ADDRS_PER_HOST || item in v then v else v + [item]
  }

  function PushAll<T(==)>(v: seq<T>, items: seq<T>): seq<T> {
    if items == [] then v else PushCapped(PushAll(v, items[..|items| - 1]), items[|items| - 1])
  }

  ghost predicate Listed<T>(v: seq<T>) {
    |v| <= MAX_ADDRS_PER_HOST && forall i, j :: 0 <= i < j < |v| ==> v[i] != v[j]
  }

  lemma PushCappedListed<T>(v: seq<T>, item: T)
    requires Listed(v)
    ensures Listed(PushCapped(v, item))
  {
  }

  /** Adopting a well-formed list into an empty one copies it, and into itself changes nothing. */
  lemma {:induction false} AdoptCopies<T>(items: seq<T>)
    requires Listed(items)
    ensures PushAll([], items) == items
    ensures PushAll(items, items) == items
  {
    AdoptFromEmpty(items);
    AdoptKnown(items, items);
  }

  lemma {:induction false} AdoptFromEmpty<T>(items: seq<T>)
    requires Listed(items)
    ensures PushAll([], items) == items
  {
    if items != [] {
      var front := items[..|items| - 1];
      AdoptFromEmpty(front);
      assert front + [items[|items| - 1]] == items;
    }
  }

  lemma {:induction false} AdoptKnown<T>(v: seq<T>, items: seq<T>)
    requires forall x :: x in items ==> x in v
    ensures PushAll(v, items) == v
  {
    if items != [] {
      AdoptKnown(v, items[..|items| - 1]);
      assert items[|items| - 1] in items;
    }
  }

  datatype Addrs = Addrs(ipv4: seq<nat>, ipv6: seq<nat>) {
    function Add(ip: IpAddr): Addrs {
      match ip
      case V4(a) => this.(ipv4 := PushCapped(ipv4, a))
      case V6(a) => this.(ipv6 := PushCapped(ipv6, a))
    }

    function Adopt(other: Addrs): Addrs {
      Addrs(PushAll(ipv4, other.ipv4), PushAll(ipv6, other.ipv6))
    }

    predicate Empty() {
      ipv4 == [] && ipv6 == []
    }

    ghost predicate WellFormed() {
      Listed(ipv4) && Listed(ipv6)
    }
  }

  const NO_ADDRS := Addrs([], [])

  /** An address joined its own family's list, unless it was there or 16 others were; the other list is as it was. */
  predicate Gains(before: Addrs, after: Addrs, ip: IpAddr) {
    match ip
    case V4(a) =>
      && after.ipv6 == before.ipv6
      && after.ipv4 == if a in before.ipv4 || |before.ipv4| >= 16 then before.ipv4 else before.ipv4 + [a]
    case V6(a) =>
      && after.ipv4 == before.ipv4
      && after.ipv6 == if a in before.ipv6 || |before.ipv6| >= 16 then before.ipv6 else before.ipv6 + [a]
  }

  lemma AddGains(addrs: Addrs, ip: IpAddr)
    ensures Gains(addrs, addrs.Add(ip), ip)
  {
  }

  function AddrsOf(hostAddrs: map<Name, Addrs>, host: Name): Addrs {
    if host in hostAddrs then hostAddrs[host] else NO_ADDRS
  }

  lemma AdoptIsCopy(a: Addrs)
    requires a.WellFormed()
    ensures NO_ADDRS.Adopt(a) == a && a.Adopt(a) == a && a.Adopt(NO_ADDRS) == a
  {
    AdoptCopies(a.ipv4);
    AdoptCopies(a.ipv6);
  }

  /** Adopting a list one address at a time, as both resolvers' loops do. */
  method AdoptList<T(==)>(v: seq<T>, items: seq<T>) returns (r: seq<T>)
    ensures r == PushAll(v, items)
  {
    r := v;
    for i := 0 to |items|
      invariant r == PushAll(v, items[..i])
    {
      assert items[..i + 1][..i] == items[..i];
      r := PushCapped(r, items[i]);
    }
    assert items[..|items|] == items;
  }
}
