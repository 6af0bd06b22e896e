/**
 The ingress trust boundary (hick-onlink/src/lib.rs): the link a datagram arrived on, then the local-link
 test of section 11 of RFC 6762.

 The rule weighs partial evidence: the receive interface and the destination may each be witnessed, lost,
 declined or never reported. Beside the rule stand the claims it has to keep over all of its arms at once:
 which absences are the same, that more evidence never costs an admission, and what an admission proves.
 */
module OnLink {
  import opened Answers
  import opened Prefix

  type Octets4 = b: Bytes | |b| == 4 witness [0, 0, 0, 0]
  type Octets16 = b: Bytes | |b| == 16 witness [0, 0, 0, 0, 0, 0, 0, 0, 0, 0, 0, 0, 0, 0, 0, 0]

  datatype Ip = V4(v4: Octets4) | V6(v6: Octets16)

  /** A peer address; only an IPv6 one carries a scope id. */
  datatype SocketAddr = SocketV4(v4: Octets4) | SocketV6(v6: Octets16, scopeId: nat) {
    function IpOf(): Ip {
      match this
      case SocketV4(a) => V4(a)
      case SocketV6(a, _) => V6(a)
    }
  }

  type NonZero = n: nat | n > 0 witness 1

  datatype LinkDelivery = Unicast | Multicast | Broadcast

  datatype DestinationWitness = Destination(dst: Ip) | DestinationLost | DestinationDeclined | DestinationBlind

  datatype IfaceWitness = Iface(index: NonZero) | IfaceLost | IfaceDeclined | IfaceBlind

  datatype BoundLink = BoundLink(iface: nat, isLoopback: bool, localAddrs: seq<(Ip, nat)>, onlinkPrefixes: seq<(Ip, nat)>)

  datatype Admission = MdnsGroup | UnscopedMdnsGroup | HeldDestination | UnenumeratedDestination
                     | BlindMulticastDelivery | BlindSourceOnLink

  datatype Refusal = ForeignLink | LinkWitnessLost | DestinationWitnessLost | ForeignGroup | BroadcastAddressed
                   | BroadcastDelivery | UnspecifiedDestination | LoopbackDestinationOffLoopbackBinding
                   | Ipv4MappedDestination | DestinationNotHeld | SourceOffLink | UnscopedGroupSourceOffLink

  datatype Verdict = Admit(admission: Admission) | Refuse(refusal: Refusal)

  datatype LinkProvenance = Established | Unbound | Unproven

  datatype Arrival = Arrived(provenance: LinkProvenance) | Foreign(refusal: Refusal)

  // ----- Address classes -----

  const ZEROS_10: Bytes := [0, 0, 0, 0, 0, 0, 0, 0, 0, 0]
  const MDNS_IPV4_GROUP: Octets4 := [224, 0, 0, 251]
  const MDNS_IPV6_GROUP: Octets16 := [0xff, 0x02, 0, 0, 0, 0, 0, 0, 0, 0, 0, 0, 0, 0, 0, 0xfb]
  const LINK_LOCAL_V6_NET: Octets16 := [0xfe, 0x80, 0, 0, 0, 0, 0, 0, 0, 0, 0, 0, 0, 0, 0, 0]
  const LINK_LOCAL_V6_PREFIX_LEN: nat := 64

  predicate IsLoopback(ip: Ip) {
    match ip
    case V4(a) => a[0] == 127
    case V6(a) => a[..10] == ZEROS_10 && a[10..] == [0, 0, 0, 0, 0, 1]
  }

  predicate IsUnspecified(ip: Ip) {
    match ip
    case V4(a) => a == [0, 0, 0, 0]
    case V6(a) => a[..10] == ZEROS_10 && a[10..] == [0, 0, 0, 0, 0, 0]
  }

  predicate IsMulticast(ip: Ip) {
    match ip
    case V4(a) => 224 <= a[0] <= 239
    case V6(a) => a[0] == 0xff
  }

  predicate IsLimitedBroadcast(ip: Ip) {
    ip == V4([255, 255, 255, 255])
  }

  predicate IsIpv4Mapped(ip: Ip) {
    ip.V6? && ip.v6[..10] == ZEROS_10 && ip.v6[10..12] == [0xff, 0xff]
  }

  predicate IsMdnsGroup(ip: Ip) {
    match ip
    case V4(a) => a == MDNS_IPV4_GROUP
    case V6(a) => a == MDNS_IPV6_GROUP
  }

  // ----- The rule -----

  function ScopeOf(src: SocketAddr): nat {
    match src
    case SocketV6(_, scopeId) => scopeId
    case SocketV4(_) => 0
  }

  /** The witnesses that name a link: the receive interface, and an IPv6 source's scope id. */
  function Witnesses(src: SocketAddr, iface: IfaceWitness): seq<nat> {
    (if iface.Iface? then [iface.index] else []) + (if ScopeOf(src) != 0 then [ScopeOf(src)] else [])
  }

  function ArrivedOnBoundInterface(src: SocketAddr, link: BoundLink, iface: IfaceWitness): Arrival {
    if link.iface == 0 then Arrived(Unbound)
    else if exists w :: w in Witnesses(src, iface) && w != link.iface then Foreign(ForeignLink)
    else if Witnesses(src, iface) != [] then Arrived(Established)
    else if link.isLoopback && IsLoopback(src.IpOf()) then Arrived(Established)
    else
      match iface
      case IfaceLost => Foreign(LinkWitnessLost)
      case IfaceDeclined => Arrived(Unproven)
      case IfaceBlind => Arrived(Unproven)
      case Iface(_) => Arrived(Established)
  }

  predicate AddrInSubnet(net: Ip, prefix: nat, addr: Ip) {
    match (net, addr)
    case (V4(n), V4(a)) => PrefixMatch(n, a, prefix, 32)
    case (V6(n), V6(a)) => PrefixMatch(n, a, prefix, 128)
    case _ => false
  }

  predicate IsBoundAddress(dst: Ip, link: BoundLink) {
    if IsLoopback(dst) then link.isLoopback
    else exists i :: 0 <= i < |link.localAddrs| && link.localAddrs[i].0 == dst
  }

  predicate InCollectedPrefix(ip: Ip, link: BoundLink) {
    exists i :: 0 <= i < |link.onlinkPrefixes| && AddrInSubnet(link.onlinkPrefixes[i].0, link.onlinkPrefixes[i].1, ip)
  }

  predicate SrcOnLocalLink(src: SocketAddr, link: BoundLink, iface: IfaceWitness, provenance: LinkProvenance) {
    var ip := src.IpOf();
    if IsLoopback(ip) then link.isLoopback && ArrivedOnBoundInterface(src, link, iface).Arrived?
    else if provenance == Established && AddrInSubnet(V6(LINK_LOCAL_V6_NET), LINK_LOCAL_V6_PREFIX_LEN, ip) then true
    else InCollectedPrefix(ip, link)
  }

  function SourceArm(src: SocketAddr, link: BoundLink, iface: IfaceWitness, provenance: LinkProvenance,
                     admission: Admission, refusal: Refusal): Verdict
  {
    if SrcOnLocalLink(src, link, iface, provenance) then Admit(admission) else Refuse(refusal)
  }

  function UnscopedGroupArm(src: SocketAddr, delivery: Option<LinkDelivery>, link: BoundLink,
                            iface: IfaceWitness, provenance: LinkProvenance): Verdict
  {
    match delivery
    case Some(Broadcast) => Refuse(BroadcastDelivery)
    case Some(Multicast) => Admit(UnscopedMdnsGroup)
    case _ => SourceArm(src, link, iface, provenance, UnscopedMdnsGroup, UnscopedGroupSourceOffLink)
  }

  /** Names the class of a destination this endpoint does not hold; it reads the address and the binding only. */
  function ClassifyUnheld(dst: Ip, link: BoundLink): Refusal {
    if IsLoopback(dst) && !link.isLoopback then LoopbackDestinationOffLoopbackBinding
    else if IsUnspecified(dst) then UnspecifiedDestination
    else if IsLimitedBroadcast(dst) then BroadcastAddressed
    else if IsIpv4Mapped(dst) then Ipv4MappedDestination
    else if IsMulticast(dst) then ForeignGroup
    else DestinationNotHeld
  }

  function AdmitsIngress(src: SocketAddr, destination: DestinationWitness, delivery: Option<LinkDelivery>,
                         link: BoundLink, iface: IfaceWitness): Verdict
  {
    match ArrivedOnBoundInterface(src, link, iface)
    case Foreign(refusal) => Refuse(refusal)
    case Arrived(provenance) =>
      match destination
      case Destination(dst) =>
        if IsMdnsGroup(dst) then
          if provenance == Unproven then UnscopedGroupArm(src, delivery, link, iface, provenance)
          else Admit(MdnsGroup)
        else if IsBoundAddress(dst, link) then
          SourceArm(src, link, iface, provenance, HeldDestination, SourceOffLink)
        else if link.localAddrs == [] && ClassifyUnheld(dst, link) == DestinationNotHeld then
          SourceArm(src, link, iface, provenance, UnenumeratedDestination, SourceOffLink)
        else Refuse(ClassifyUnheld(dst, link))
      case DestinationLost => Refuse(DestinationWitnessLost)
      case _ =>
        match delivery
        case Some(Broadcast) => Refuse(BroadcastDelivery)
        case Some(Multicast) => Admit(BlindMulticastDelivery)
        case _ => SourceArm(src, link, iface, provenance, BlindSourceOnLink, SourceOffLink)
  }

  // ----- Evidence ordering -----

  /** A declined witness decides exactly as a blind one, in both positions. */
  lemma DeclinedIsBlind(src: SocketAddr, destination: DestinationWitness, delivery: Option<LinkDelivery>,
                        link: BoundLink, iface: IfaceWitness)
    ensures AdmitsIngress(src, DestinationDeclined, delivery, link, iface) ==
            AdmitsIngress(src, DestinationBlind, delivery, link, iface)
    ensures AdmitsIngress(src, destination, delivery, link, IfaceDeclined) ==
            AdmitsIngress(src, destination, delivery, link, IfaceBlind)
  {
    assert Witnesses(src, IfaceDeclined) == Witnesses(src, IfaceBlind);
  }

  /** What the interface evidence may be replaced by without losing an admission. */
  predicate NoWeaker(before: IfaceWitness, after: IfaceWitness, link: BoundLink) {
    || before == after
    || (before == IfaceLost && (after == IfaceDeclined || after == IfaceBlind))
    || (after.Iface? && after.index == link.iface && !before.Iface?)
  }

  lemma ArrivalImproves(src: SocketAddr, link: BoundLink, before: IfaceWitness, after: IfaceWitness)
    requires NoWeaker(before, after, link) && ArrivedOnBoundInterface(src, link, before).Arrived?
    ensures var a, b := ArrivedOnBoundInterface(src, link, before), ArrivedOnBoundInterface(src, link, after);
      b.Arrived? && (b.provenance == a.provenance || (a.provenance == Unproven && b.provenance == Established))
  {
    forall w | w in Witnesses(src, after)
      ensures link.iface == 0 || w == link.iface
    {
      if w == ScopeOf(src) && ScopeOf(src) != 0 { assert w in Witnesses(src, before); }
    }
    assert Witnesses(src, before) != [] ==> Witnesses(src, after) != [];
  }

  lemma SourceImproves(src: SocketAddr, link: BoundLink, before: IfaceWitness, after: IfaceWitness)
    requires NoWeaker(before, after, link) && ArrivedOnBoundInterface(src, link, before).Arrived?
    ensures var p, q := ArrivedOnBoundInterface(src, link, before).provenance, ArrivedOnBoundInterface(src, link, after);
      q.Arrived? && (SrcOnLocalLink(src, link, before, p) ==> SrcOnLocalLink(src, link, after, q.provenance))
  {
    ArrivalImproves(src, link, before, after);
  }

  /** Better interface evidence never turns an admission into a refusal. */
  lemma MoreLinkEvidenceNeverCosts(src: SocketAddr, destination: DestinationWitness, delivery: Option<LinkDelivery>,
                                   link: BoundLink, before: IfaceWitness, after: IfaceWitness)
    requires NoWeaker(before, after, link)
    ensures AdmitsIngress(src, destination, delivery, link, before).Admit? ==>
            AdmitsIngress(src, destination, delivery, link, after).Admit?
  {
    if ArrivedOnBoundInterface(src, link, before).Arrived? {
      ArrivalImproves(src, link, before, after);
      SourceImproves(src, link, before, after);
    }
  }

  /** Knowing that the destination is an mDNS group never costs an admission that not knowing it would get. */
  lemma GroupNeverWorseThanBlind(src: SocketAddr, group: Ip, delivery: Option<LinkDelivery>, link: BoundLink,
                                 iface: IfaceWitness, unknown: DestinationWitness)
    requires IsMdnsGroup(group) && !unknown.Destination?
    ensures AdmitsIngress(src, unknown, delivery, link, iface).Admit? ==>
            AdmitsIngress(src, Destination(group), delivery, link, iface).Admit?
  {
  }

  // ----- The configuration lists -----

  /** Every entry of one list is in the other. */
  ghost predicate Within(a: seq<(Ip, nat)>, b: seq<(Ip, nat)>) {
    forall i :: 0 <= i < |a| ==> a[i] in b
  }

  lemma PrefixesGrow(ip: Ip, link: BoundLink, more: BoundLink)
    requires Within(link.onlinkPrefixes, more.onlinkPrefixes)
    ensures InCollectedPrefix(ip, link) ==> InCollectedPrefix(ip, more)
  {
    if InCollectedPrefix(ip, link) {
      var i :| 0 <= i < |link.onlinkPrefixes| && AddrInSubnet(link.onlinkPrefixes[i].0, link.onlinkPrefixes[i].1, ip);
      assert link.onlinkPrefixes[i] in more.onlinkPrefixes;
    }
  }

  lemma AddressesGrow(dst: Ip, link: BoundLink, more: BoundLink)
    requires Within(link.localAddrs, more.localAddrs) && link.isLoopback == more.isLoopback
    ensures IsBoundAddress(dst, link) ==> IsBoundAddress(dst, more)
  {
    if IsBoundAddress(dst, link) && !IsLoopback(dst) {
      var i :| 0 <= i < |link.localAddrs| && link.localAddrs[i].0 == dst;
      assert link.localAddrs[i] in more.localAddrs;
    }
  }

  /** A longer list of on-link prefixes only ever admits more. */
  lemma AdmissionGrowsWithPrefixes(src: SocketAddr, destination: DestinationWitness, delivery: Option<LinkDelivery>,
                                   link: BoundLink, prefixes: seq<(Ip, nat)>, iface: IfaceWitness)
    requires Within(link.onlinkPrefixes, prefixes)
    ensures AdmitsIngress(src, destination, delivery, link, iface).Admit? ==>
            AdmitsIngress(src, destination, delivery, link.(onlinkPrefixes := prefixes), iface).Admit?
  {
    var more := link.(onlinkPrefixes := prefixes);
    PrefixesGrow(src.IpOf(), link, more);
    assert ArrivedOnBoundInterface(src, link, iface) == ArrivedOnBoundInterface(src, more, iface);
    if destination.Destination? {
      assert IsBoundAddress(destination.dst, link) == IsBoundAddress(destination.dst, more);
      assert ClassifyUnheld(destination.dst, link) == ClassifyUnheld(destination.dst, more);
    }
  }

  lemma UnheldAlike(dst: Ip, link: BoundLink, other: BoundLink)
    requires Within(link.localAddrs, other.localAddrs) && Within(other.localAddrs, link.localAddrs)
    requires link.isLoopback == other.isLoopback && (link.localAddrs == [] <==> other.localAddrs == [])
    ensures ClassifyUnheld(dst, link) == ClassifyUnheld(dst, other)
    ensures IsBoundAddress(dst, link) == IsBoundAddress(dst, other)
  {
    AddressesGrow(dst, link, other);
    AddressesGrow(dst, other, link);
  }

  lemma SourceAlike(src: SocketAddr, link: BoundLink, other: BoundLink, iface: IfaceWitness, provenance: LinkProvenance)
    requires other.iface == link.iface && other.isLoopback == link.isLoopback
    requires Within(link.onlinkPrefixes, other.onlinkPrefixes) && Within(other.onlinkPrefixes, link.onlinkPrefixes)
    ensures ArrivedOnBoundInterface(src, link, iface) == ArrivedOnBoundInterface(src, other, iface)
    ensures SrcOnLocalLink(src, link, iface, provenance) == SrcOnLocalLink(src, other, iface, provenance)
  {
    PrefixesGrow(src.IpOf(), link, other);
    PrefixesGrow(src.IpOf(), other, link);
  }

  /** The order and repetition of either list decide nothing, not even which arm answers. */
  lemma ListOrderIsIrrelevant(src: SocketAddr, destination: DestinationWitness, delivery: Option<LinkDelivery>,
                              link: BoundLink, other: BoundLink, iface: IfaceWitness)
    requires other.iface == link.iface && other.isLoopback == link.isLoopback
    requires Within(link.localAddrs, other.localAddrs) && Within(other.localAddrs, link.localAddrs)
    requires Within(link.onlinkPrefixes, other.onlinkPrefixes) && Within(other.onlinkPrefixes, link.onlinkPrefixes)
    ensures AdmitsIngress(src, destination, delivery, link, iface) == AdmitsIngress(src, destination, delivery, other, iface)
  {
    assert link.localAddrs == [] <==> other.localAddrs == [] by {
      assert link.localAddrs != [] ==> link.localAddrs[0] in other.localAddrs;
      assert other.localAddrs != [] ==> other.localAddrs[0] in link.localAddrs;
    }
    match ArrivedOnBoundInterface(src, link, iface)
    case Foreign(_) => SourceAlike(src, link, other, iface, Unproven);
    case Arrived(provenance) =>
      SourceAlike(src, link, other, iface, provenance);
      if destination.Destination? { UnheldAlike(destination.dst, link, other); }
  }

  /**
   Local addresses are not like prefixes: learning some can revoke an admission, and does so exactly for a
   witnessed destination that an empty list left undecided and the new list does not hold.
   */
  lemma LearningAddressesRevokesIff(src: SocketAddr, destination: DestinationWitness, delivery: Option<LinkDelivery>,
                                    link: BoundLink, addrs: seq<(Ip, nat)>, iface: IfaceWitness)
    requires Within(link.localAddrs, addrs)
    requires AdmitsIngress(src, destination, delivery, link, iface).Admit?
    ensures var more := link.(localAddrs := addrs);
      AdmitsIngress(src, destination, delivery, more, iface).Refuse? <==>
        && destination.Destination? && !IsMdnsGroup(destination.dst)
        && link.localAddrs == [] && addrs != [] && !IsBoundAddress(destination.dst, more)
  {
    var more := link.(localAddrs := addrs);
    assert ArrivedOnBoundInterface(src, link, iface) == ArrivedOnBoundInterface(src, more, iface);
    assert InCollectedPrefix(src.IpOf(), link) == InCollectedPrefix(src.IpOf(), more);
    if destination.Destination? {
      AddressesGrow(destination.dst, link, more);
      assert ClassifyUnheld(destination.dst, link) == ClassifyUnheld(destination.dst, more);
    }
  }

  /** `fe80::n`. */
  function LinkLocal(n: bv8): Octets16 {
    [0xfe, 0x80, 0, 0, 0, 0, 0, 0, 0, 0, 0, 0, 0, 0, 0, n]
  }

  lemma LinkLocalIsPlain(n: bv8)
    ensures AddrInSubnet(V6(LINK_LOCAL_V6_NET), LINK_LOCAL_V6_PREFIX_LEN, V6(LinkLocal(n)))
    ensures var ip := V6(LinkLocal(n));
      !IsLoopback(ip) && !IsMdnsGroup(ip) && !IsUnspecified(ip) && !IsIpv4Mapped(ip) && !IsMulticast(ip)
  {
    assert LinkLocal(n)[..8] == LINK_LOCAL_V6_NET[..8];
    assert LinkLocal(n)[..10][0] == 0xfe && LinkLocal(n)[0] == 0xfe;
  }

  /** One such datagram: on interface 3, from `fe80::9` to `fe80::7`, until the host learns that it is `fe80::1`. */
  lemma LearningAddressesRevokesOne()
    ensures var src, dst, link := SocketV6(LinkLocal(9), 3), Destination(V6(LinkLocal(7))), BoundLink(3, false, [], []);
      && AdmitsIngress(src, dst, None, link, Iface(3)) == Admit(UnenumeratedDestination)
      && AdmitsIngress(src, dst, None, link.(localAddrs := [(V6(LinkLocal(1)), 64)]), Iface(3)) ==
           Refuse(DestinationNotHeld)
  {
    var src, dst := SocketV6(LinkLocal(9), 3), V6(LinkLocal(7));
    var link := BoundLink(3, false, [], []);
    LinkLocalIsPlain(9);
    LinkLocalIsPlain(7);
    assert Witnesses(src, Iface(3)) == [3, 3];
    LearningAddressesRevokesIff(src, Destination(dst), None, link, [(V6(LinkLocal(1)), 64)], Iface(3));
    assert LinkLocal(1)[15] != LinkLocal(7)[15];
  }

  // ----- When a datagram is admitted -----

  /** Nothing places the datagram on another link, and the witness that would have told was not lost. */
  predicate NotForeign(src: SocketAddr, link: BoundLink, iface: IfaceWitness) {
    || link.iface == 0
    || (&& (iface.Iface? ==> iface.index == link.iface)
        && (src.SocketV6? && src.scopeId != 0 ==> src.scopeId == link.iface)
        && (iface.IfaceLost? ==> Placed(src, link, iface)))
  }

  /** Something places it on ours: the receive interface, the source's scope, or loopback on a loopback binding. */
  predicate Placed(src: SocketAddr, link: BoundLink, iface: IfaceWitness) {
    && link.iface != 0
    && (iface.Iface? || (src.SocketV6? && src.scopeId != 0) || (link.isLoopback && IsLoopback(src.IpOf())))
  }

  /** The source is on our link: loopback on a loopback binding, `fe80::/64` once placed, or in a collected prefix. */
  ghost predicate SourceIsOurs(src: SocketAddr, link: BoundLink, iface: IfaceWitness) {
    if IsLoopback(src.IpOf()) then link.isLoopback
    else
      || (Placed(src, link, iface) && src.SocketV6? && TopBits(src.v6, 64) == TopBits(LINK_LOCAL_V6_NET, 64))
      || exists i :: 0 <= i < |link.onlinkPrefixes| &&
           AddrInSubnet(link.onlinkPrefixes[i].0, link.onlinkPrefixes[i].1, src.IpOf())
  }

  /** One of our addresses. */
  predicate Held(dst: Ip, link: BoundLink) {
    if IsLoopback(dst) then link.isLoopback
    else exists i :: 0 <= i < |link.localAddrs| && link.localAddrs[i].0 == dst
  }

  /** An ordinary unicast address, when we could not list our own. */
  predicate Unlisted(dst: Ip, link: BoundLink) {
    link.localAddrs == [] && !IsLoopback(dst) && !IsMulticast(dst) && !IsLimitedBroadcast(dst) && !IsUnspecified(dst)
    && !IsIpv4Mapped(dst)
  }

  lemma ArrivalIs(src: SocketAddr, link: BoundLink, iface: IfaceWitness)
    ensures var a := ArrivedOnBoundInterface(src, link, iface);
      && (a.Arrived? <==> NotForeign(src, link, iface))
      && (a == Arrived(Established) <==> NotForeign(src, link, iface) && Placed(src, link, iface))
      && (a == Arrived(Unbound) <==> link.iface == 0)
      && (a == Foreign(LinkWitnessLost) || a == Foreign(ForeignLink) || a.Arrived?)
      && (a == Foreign(ForeignLink) <==>
            && link.iface != 0
            && ((iface.Iface? && iface.index != link.iface) ||
                (src.SocketV6? && src.scopeId != 0 && src.scopeId != link.iface)))
  {
    if iface.Iface? { assert iface.index in Witnesses(src, iface); }
    if ScopeOf(src) != 0 { assert ScopeOf(src) in Witnesses(src, iface); }
  }

  lemma SourceIs(src: SocketAddr, link: BoundLink, iface: IfaceWitness, provenance: LinkProvenance)
    requires ArrivedOnBoundInterface(src, link, iface) == Arrived(provenance)
    ensures SrcOnLocalLink(src, link, iface, provenance) <==> SourceIsOurs(src, link, iface)
  {
    ArrivalIs(src, link, iface);
    if src.SocketV6? { MatchIsTopBits(LINK_LOCAL_V6_NET, src.v6, LINK_LOCAL_V6_PREFIX_LEN); }
  }

  /**
   The whole rule. A datagram that is not foreign is admitted: to an mDNS group, if it is placed on our link, the
   endpoint is bound to none, it came by link multicast, or its source is ours; to an address that is ours, or may be,
   if its source is ours; to one nobody reported, by link multicast or with a source that is ours. Link broadcast
   never helps, and one whose destination was lost is never admitted.
   */
  lemma AdmittedIff(src: SocketAddr, destination: DestinationWitness, delivery: Option<LinkDelivery>, link: BoundLink,
                    iface: IfaceWitness)
    ensures AdmitsIngress(src, destination, delivery, link, iface).Admit? <==>
      && NotForeign(src, link, iface)
      && match destination
         case Destination(dst) =>
           if IsMdnsGroup(dst) then
             || link.iface == 0 || Placed(src, link, iface) || delivery == Some(Multicast)
             || (delivery != Some(Broadcast) && SourceIsOurs(src, link, iface))
           else (Held(dst, link) || Unlisted(dst, link)) && SourceIsOurs(src, link, iface)
         case DestinationLost => false
         case _ => delivery == Some(Multicast) || (delivery != Some(Broadcast) && SourceIsOurs(src, link, iface))
  {
    var a := ArrivedOnBoundInterface(src, link, iface);
    ArrivalIs(src, link, iface);
    if a.Arrived? { SourceIs(src, link, iface, a.provenance); }
  }

  /** Lying in a subnet is agreeing in its top bits, within one family; an over-wide prefix holds nothing. */
  lemma SubnetIsTopBits(net: Ip, prefix: nat, addr: Ip)
    ensures AddrInSubnet(net, prefix, addr) <==>
      match (net, addr)
      case (V4(n), V4(a)) => prefix <= 32 && TopBits(n, prefix) == TopBits(a, prefix)
      case (V6(n), V6(a)) => prefix <= 128 && TopBits(n, prefix) == TopBits(a, prefix)
      case _ => false
  {
    match (net, addr)
    case (V4(n), V4(a)) => MatchIsTopBits(n, a, prefix);
    case (V6(n), V6(a)) => MatchIsTopBits(n, a, prefix);
    case _ =>
  }

  /** Which arm admits. */
  lemma AdmissionIs(src: SocketAddr, destination: DestinationWitness, delivery: Option<LinkDelivery>, link: BoundLink,
                    iface: IfaceWitness)
    requires AdmitsIngress(src, destination, delivery, link, iface).Admit?
    ensures AdmitsIngress(src, destination, delivery, link, iface).admission ==
      match destination
      case Destination(dst) =>
        if IsMdnsGroup(dst) then
          if link.iface == 0 || Placed(src, link, iface) then MdnsGroup else UnscopedMdnsGroup
        else if Held(dst, link) then HeldDestination else UnenumeratedDestination
      case _ => if delivery == Some(Multicast) then BlindMulticastDelivery else BlindSourceOnLink
  {
    ArrivalIs(src, link, iface);
  }

  /** Which refusal is named, the link before the destination and the destination before the source. */
  lemma RefusalIs(src: SocketAddr, destination: DestinationWitness, delivery: Option<LinkDelivery>, link: BoundLink,
                  iface: IfaceWitness)
    requires AdmitsIngress(src, destination, delivery, link, iface).Refuse?
    ensures AdmitsIngress(src, destination, delivery, link, iface).refusal ==
      if !NotForeign(src, link, iface) then
        if (iface.Iface? && iface.index != link.iface) || (ScopeOf(src) != 0 && ScopeOf(src) != link.iface)
        then ForeignLink else LinkWitnessLost
      else
        match destination
        case Destination(dst) =>
          if IsMdnsGroup(dst) then
            if delivery == Some(Broadcast) then BroadcastDelivery else UnscopedGroupSourceOffLink
          else if Held(dst, link) || Unlisted(dst, link) then SourceOffLink
          else if IsLoopback(dst) then LoopbackDestinationOffLoopbackBinding
          else if IsUnspecified(dst) then UnspecifiedDestination
          else if IsLimitedBroadcast(dst) then BroadcastAddressed
          else if IsIpv4Mapped(dst) then Ipv4MappedDestination
          else if IsMulticast(dst) then ForeignGroup
          else DestinationNotHeld
        case DestinationLost => DestinationWitnessLost
        case _ => if delivery == Some(Broadcast) then BroadcastDelivery else SourceOffLink
  {
    ArrivalIs(src, link, iface);
  }

  const LOOPBACK_V4: Octets4 := [127, 0, 0, 0]
  const MULTICAST_V4: Octets4 := [224, 0, 0, 0]
  const LOOPBACK_V6: Octets16 := [0, 0, 0, 0, 0, 0, 0, 0, 0, 0, 0, 0, 0, 0, 0, 1]
  const MULTICAST_V6: Octets16 := [0xff, 0, 0, 0, 0, 0, 0, 0, 0, 0, 0, 0, 0, 0, 0, 0]
  const MAPPED_V6: Octets16 := [0, 0, 0, 0, 0, 0, 0, 0, 0, 0, 0xff, 0xff, 0, 0, 0, 0]

  /** The classes are the subnets set aside for them: 127/8 and 224/4. */
  lemma ClassesOfV4(a: Octets4)
    ensures IsLoopback(V4(a)) <==> AddrInSubnet(V4(LOOPBACK_V4), 8, V4(a))
    ensures IsMulticast(V4(a)) <==> AddrInSubnet(V4(MULTICAST_V4), 4, V4(a))
    ensures !IsIpv4Mapped(V4(a)) && (IsUnspecified(V4(a)) <==> forall i :: 0 <= i < 4 ==> a[i] == 0)
  {
    assert a[..1] == [a[0]] && LOOPBACK_V4[..1] == [127] && a[..0] == MULTICAST_V4[..0];
    TopFour(a[0]);
    assert a == [a[0], a[1], a[2], a[3]];
  }

  lemma TopFour(b: bv8)
    ensures Mask(4) == 0xf0
    ensures 224 <= b <= 239 <==> b & 0xf0 == 224
  {
  }

  /** ::1/128, ff00::/8, ::ffff:0:0/96. */
  lemma ClassesOfV6(a: Octets16)
    ensures IsLoopback(V6(a)) <==> AddrInSubnet(V6(LOOPBACK_V6), 128, V6(a))
    ensures IsMulticast(V6(a)) <==> AddrInSubnet(V6(MULTICAST_V6), 8, V6(a))
    ensures IsIpv4Mapped(V6(a)) <==> AddrInSubnet(V6(MAPPED_V6), 96, V6(a))
    ensures IsUnspecified(V6(a)) <==> forall i :: 0 <= i < 16 ==> a[i] == 0
  {
    assert a[..16] == a == a[..10] + a[10..];
    assert LOOPBACK_V6[..16] == LOOPBACK_V6 == ZEROS_10 + [0, 0, 0, 0, 0, 1];
    assert a[..1] == [a[0]] && MULTICAST_V6[..1] == [0xff];
    assert a[..12] == a[..10] + a[10..12] && MAPPED_V6[..12] == ZEROS_10 + [0xff, 0xff];
    if forall i :: 0 <= i < 16 ==> a[i] == 0 {
      assert a[..10] == ZEROS_10 && a[10..] == [0, 0, 0, 0, 0, 0];
    }
  }

  // ----- What an admission proves -----

  /** A witnessed destination is only ever admitted as an mDNS group, as one of ours, or as plainly undecidable. */
  lemma WitnessedDestinationIsOurs(src: SocketAddr, dst: Ip, delivery: Option<LinkDelivery>, link: BoundLink,
                                   iface: IfaceWitness)
    requires AdmitsIngress(src, Destination(dst), delivery, link, iface).Admit?
    ensures IsMdnsGroup(dst) || IsBoundAddress(dst, link) ||
      (link.localAddrs == [] && !IsMulticast(dst) && !IsLimitedBroadcast(dst) && !IsUnspecified(dst)
       && !IsIpv4Mapped(dst) && !IsLoopback(dst))
  {
  }

  /** Nothing that contradicts the binding is admitted, and a datagram nothing scopes carries evidence of its own. */
  lemma AdmissionIsOnOurLink(src: SocketAddr, destination: DestinationWitness, delivery: Option<LinkDelivery>,
                             link: BoundLink, iface: IfaceWitness)
    requires AdmitsIngress(src, destination, delivery, link, iface).Admit? && link.iface != 0
    ensures iface.Iface? ==> iface.index == link.iface
    ensures ScopeOf(src) != 0 ==> ScopeOf(src) == link.iface
    ensures Witnesses(src, iface) == [] && !(link.isLoopback && IsLoopback(src.IpOf())) ==>
      iface != IfaceLost && (InCollectedPrefix(src.IpOf(), link) || delivery == Some(Multicast))
  {
    if iface.Iface? { assert iface.index in Witnesses(src, iface); }
    if ScopeOf(src) != 0 { assert ScopeOf(src) in Witnesses(src, iface); }
  }

  /** The link-local prefix, which is on every link, admits only what something placed on ours. */
  lemma SeedNeedsOurLink(src: SocketAddr, link: BoundLink, iface: IfaceWitness, provenance: LinkProvenance)
    requires ArrivedOnBoundInterface(src, link, iface) == Arrived(provenance)
    requires SrcOnLocalLink(src, link, iface, provenance) && !InCollectedPrefix(src.IpOf(), link)
    requires !IsLoopback(src.IpOf())
    ensures link.iface != 0 && Witnesses(src, iface) != []
    ensures src.SocketV6? && TopBits(src.v6, 64) == TopBits(LINK_LOCAL_V6_NET, 64)
  {
    MatchIsTopBits(LINK_LOCAL_V6_NET, src.v6, 64);
  }
}
