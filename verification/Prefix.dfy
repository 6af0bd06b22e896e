/**
 Prefix comparison (hick-onlink/src/lib.rs): whole bytes, then a masked partial byte. Its meaning is stated
 over the addresses as big-endian integers: two addresses match at a prefix length exactly when they agree
 in that many top bits.
 */
module Prefix {
  import opened Answers

  /** `slice.get(..n)`: absent when the slice is shorter. */
  function Take(s: Bytes, n: nat): Option<Bytes> {
    if n <= |s| then Some(s[..n]) else None
  }

  function At(s: Bytes, i: nat): Option<bv8> {
    if i < |s| then Some(s[i]) else None
  }

  /** The mask of a partial byte's top `rem` bits. */
  function Mask(rem: nat): bv8
    requires 1 <= rem <= 7
  {
    0xff << (8 - rem)
  }

  predicate PrefixMatch(net: Bytes, addr: Bytes, prefix: nat, max: nat) {
    if prefix > max then false
    else
      var full, rem := prefix / 8, prefix % 8;
      if Take(net, full) != Take(addr, full) then false
      else if rem == 0 then true
      else
        match (At(net, full), At(addr, full))
        case (Some(n), Some(a)) => n & Mask(rem) == a & Mask(rem)
        case _ => false
  }

  // ----- Integers -----

  function Pow2(n: nat): nat {
    if n == 0 then 1 else 2 * Pow2(n - 1)
  }

  /** Shifting right by `n`: the low `n` bits dropped one at a time. */
  function Shr(x: nat, n: nat): nat {
    if n == 0 then x else Shr(x / 2, n - 1)
  }

  /** The big-endian integer the bytes spell. */
  function Value(b: Bytes): nat {
    if b == [] then 0 else 256 * Value(b[..|b| - 1]) + b[|b| - 1] as nat
  }

  /** The integer of an address's top `prefix` bits. */
  function TopBits(b: Bytes, prefix: nat): nat
    requires prefix <= 8 * |b|
  {
    Shr(Value(b), 8 * |b| - prefix)
  }

  lemma {:induction false} ShrTwice(x: nat, m: nat, n: nat)
    ensures Shr(x, m + n) == Shr(Shr(x, m), n)
  {
    if m > 0 { ShrTwice(x / 2, m - 1, n); }
  }

  lemma Double(p: nat, u: nat)
    ensures (2 * p) * u == 2 * (p * u)
  {
  }

  lemma Halve(half: nat, x: nat)
    ensures (2 * half + x) / 2 == half + x / 2
  {
  }

  lemma {:induction false} Pow2Add(m: nat, n: nat)
    ensures Pow2(m + n) == Pow2(m) * Pow2(n)
  {
    if m > 0 {
      Pow2Add(m - 1, n);
      Double(Pow2(m - 1), Pow2(n));
    }
  }

  /** What stands above the dropped bits is kept whole. */
  lemma {:induction false} ShrOfSum(u: nat, x: nat, n: nat)
    ensures Shr(Pow2(n) * u + x, n) == u + Shr(x, n)
  {
    if n > 0 {
      var half := Pow2(n - 1) * u;
      Double(Pow2(n - 1), u);
      Halve(half, x);
      ShrOfSum(u, x / 2, n - 1);
    }
  }

  lemma {:induction false} ShrBound(x: nat, n: nat, m: nat)
    requires x < Pow2(n + m)
    ensures Shr(x, n) < Pow2(m)
  {
    if n > 0 { ShrBound(x / 2, n - 1, m); }
  }

  lemma DigitsAreUnique(k: nat, v: nat, x: nat, w: nat, y: nat)
    requires x < k && y < k
    ensures k * v + x == k * w + y <==> v == w && x == y
  {
    if v < w { Step(k, v, w); }
    if w < v { Step(k, w, v); }
  }

  lemma Step(k: nat, v: nat, w: nat)
    requires v < w
    ensures k * v + k <= k * w
  {
    assert k * (v + 1) <= k * w;
  }

  lemma Pow2Table()
    ensures Pow2(1) == 2 && Pow2(2) == 4 && Pow2(3) == 8 && Pow2(4) == 16
    ensures Pow2(5) == 32 && Pow2(6) == 64 && Pow2(7) == 128 && Pow2(8) == 256
  {
    assert Pow2(3) == 8;
    assert Pow2(5) == 4 * Pow2(3);
    assert Pow2(7) == 4 * Pow2(5);
  }

  /** The top bits at a shorter prefix are a shift of those at a longer one. */
  lemma TopBitsShorten(b: Bytes, long: nat, short: nat)
    requires short <= long <= 8 * |b|
    ensures TopBits(b, short) == Shr(TopBits(b, long), long - short)
  {
    ShrTwice(Value(b), 8 * |b| - long, long - short);
  }

  /** Cutting whole bytes off the end. */
  lemma {:induction false} TopBitsOfWholeBytes(b: Bytes, full: nat)
    requires full <= |b|
    ensures TopBits(b, 8 * full) == Value(b[..full])
    decreases |b|
  {
    if full == |b| {
      assert b[..full] == b;
    } else {
      var front, last := b[..|b| - 1], b[|b| - 1];
      TopBitsOfWholeBytes(front, full);
      assert front[..full] == b[..full];
      DropByte(Value(front), last as nat);
      ShrTwice(Value(b), 8, 8 * |front| - 8 * full);
    }
  }

  lemma DropByte(v: nat, byte: nat)
    requires byte < 256
    ensures Shr(256 * v + byte, 8) == v
  {
    Pow2Table();
    ShrOfSum(v, byte, 8);
    ShrBound(byte, 8, 0);
  }

  lemma {:induction false} ValueIsInjective(a: Bytes, b: Bytes)
    requires |a| == |b|
    ensures Value(a) == Value(b) <==> a == b
  {
    if a != [] {
      var x, y := a[..|a| - 1], b[..|b| - 1];
      ValueIsInjective(x, y);
      DigitsAreUnique(256, Value(x), a[|a| - 1] as nat, Value(y), b[|b| - 1] as nat);
      if Value(a) == Value(b) {
        SameNumber(a[|a| - 1], b[|b| - 1]);
        assert a == x + [a[|a| - 1]] && b == y + [b[|b| - 1]];
      }
    }
  }

  // ----- The partial byte -----

  lemma SameNumber(n: bv8, a: bv8)
    ensures n as nat == a as nat <==> n == a
  {
  }

  /** One step of the shift is the same on the byte and on the number it spells. */
  lemma HalfOfByte(n: bv8)
    ensures (n >> 1) as nat == n as nat / 2
  {
  }

  /** The byte shifted one bit at a time. */
  function ShrByte(n: bv8, k: nat): bv8 {
    if k == 0 then n else ShrByte(n >> 1, k - 1)
  }

  lemma {:induction false} ShrByteIsShr(n: bv8, k: nat)
    ensures ShrByte(n, k) as nat == Shr(n as nat, k)
  {
    if k > 0 {
      HalfOfByte(n);
      ShrByteIsShr(n >> 1, k - 1);
    }
  }

  lemma ShrByteTable(n: bv8)
    ensures ShrByte(n, 1) == n >> 1 && ShrByte(n, 2) == n >> 2 && ShrByte(n, 3) == n >> 3
    ensures ShrByte(n, 4) == n >> 4 && ShrByte(n, 5) == n >> 5 && ShrByte(n, 6) == n >> 6 && ShrByte(n, 7) == n >> 7
  {
    var two, four, six := n >> 2, n >> 4, n >> 6;
    assert ShrByte(n, 1) == ShrByte(n >> 1, 0);
    assert ShrByte(n, 7) == ShrByte(two, 5) == ShrByte(four, 3) == ShrByte(six, 1) == six >> 1;
    assert ShrByte(n, 6) == ShrByte(two, 4) == ShrByte(four, 2) == ShrByte(six, 0);
    assert ShrByte(n, 5) == ShrByte(two, 3) == ShrByte(four, 1) == four >> 1;
    assert ShrByte(n, 4) == ShrByte(two, 2) == ShrByte(four, 0);
    assert ShrByte(n, 3) == ShrByte(two, 1) == two >> 1;
  }

  /** Masking two bytes to their top `rem` bits compares the same as shifting the rest out. */
  lemma MaskIsShift(n: bv8, a: bv8, rem: nat)
    requires 1 <= rem <= 7
    ensures n & Mask(rem) == a & Mask(rem) <==> Shr(n as nat, 8 - rem) == Shr(a as nat, 8 - rem)
  {
    MaskKeepsBits(n, a, rem);
    ShrByteIsShr(n, 8 - rem);
    ShrByteIsShr(a, 8 - rem);
    SameNumber(ShrByte(n, 8 - rem), ShrByte(a, 8 - rem));
  }

  lemma MaskKeepsBits(n: bv8, a: bv8, rem: nat)
    requires 1 <= rem <= 7
    ensures n & Mask(rem) == a & Mask(rem) <==> ShrByte(n, 8 - rem) == ShrByte(a, 8 - rem)
  {
    if rem <= 4 { HighMaskKeepsBits(n, a, rem); } else { LowMaskKeepsBits(n, a, rem); }
  }

  lemma HighMaskKeepsBits(n: bv8, a: bv8, rem: nat)
    requires 1 <= rem <= 4
    ensures n & Mask(rem) == a & Mask(rem) <==> ShrByte(n, 8 - rem) == ShrByte(a, 8 - rem)
  {
    ShrByteTable(n);
    ShrByteTable(a);
    match rem
    case 1 => assert Mask(1) == 0x80;
    case 2 => assert Mask(2) == 0xc0;
    case 3 => assert Mask(3) == 0xe0;
    case 4 => assert Mask(4) == 0xf0;
  }

  lemma LowMaskKeepsBits(n: bv8, a: bv8, rem: nat)
    requires 5 <= rem <= 7
    ensures n & Mask(rem) == a & Mask(rem) <==> ShrByte(n, 8 - rem) == ShrByte(a, 8 - rem)
  {
    if rem == 7 {
      assert Mask(7) == 0xfe;
      assert ShrByte(n, 1) == n >> 1 && ShrByte(a, 1) == a >> 1 by { ShrByteTable(n); ShrByteTable(a); }
    } else if rem == 6 {
      assert Mask(6) == 0xfc;
      assert ShrByte(n, 2) == n >> 2 && ShrByte(a, 2) == a >> 2 by { ShrByteTable(n); ShrByteTable(a); }
    } else {
      assert Mask(5) == 0xf8;
      assert ShrByte(n, 3) == n >> 3 && ShrByte(a, 3) == a >> 3 by { ShrByteTable(n); ShrByteTable(a); }
    }
  }

  /** Shifting part of the last byte out leaves the bytes before it above what is left of that one. */
  lemma ShrSplitsByte(v: nat, byte: nat, n: nat)
    requires n <= 8 && byte < 256
    ensures Shr(256 * v + byte, n) == Pow2(8 - n) * v + Shr(byte, n)
    ensures Shr(byte, n) < Pow2(8 - n)
  {
    Pow2Table();
    Pow2Add(n, 8 - n);
    assert 256 * v == Pow2(n) * (Pow2(8 - n) * v) by {
      assert (Pow2(n) * Pow2(8 - n)) * v == Pow2(n) * (Pow2(8 - n) * v);
    }
    ShrOfSum(Pow2(8 - n) * v, byte, n);
    ShrBound(byte, n, 8 - n);
  }

  // ----- What a match means -----

  lemma TopBitsOfPartialByte(b: Bytes, full: nat, rem: nat)
    requires 1 <= rem <= 7 && full < |b|
    ensures TopBits(b, 8 * full + rem) == Shr(256 * Value(b[..full]) + b[full] as nat, 8 - rem)
  {
    var cut := b[..full + 1];
    assert cut[..|cut| - 1] == b[..full];
    TopBitsOfWholeBytes(b, full + 1);
    TopBitsShorten(b, 8 * (full + 1), 8 * full + rem);
  }

  lemma TopBitsSplit(net: Bytes, addr: Bytes, full: nat, rem: nat)
    requires |net| == |addr| && full < |net| && 1 <= rem <= 7
    ensures TopBits(net, 8 * full + rem) == TopBits(addr, 8 * full + rem) <==>
      Value(net[..full]) == Value(addr[..full]) && Shr(net[full] as nat, 8 - rem) == Shr(addr[full] as nat, 8 - rem)
  {
    var v, w, x, y := Value(net[..full]), Value(addr[..full]), net[full] as nat, addr[full] as nat;
    TopBitsOfPartialByte(net, full, rem);
    TopBitsOfPartialByte(addr, full, rem);
    ShrSplitsByte(v, x, 8 - rem);
    ShrSplitsByte(w, y, 8 - rem);
    DigitsAreUnique(Pow2(rem), v, Shr(x, 8 - rem), w, Shr(y, 8 - rem));
  }

  /** The masked byte compare agrees with the integers when the bytes before it do. */
  lemma PartialByteDecides(net: Bytes, addr: Bytes, full: nat, rem: nat)
    requires |net| == |addr| && full < |net| && 1 <= rem <= 7
    ensures TopBits(net, 8 * full + rem) == TopBits(addr, 8 * full + rem) <==>
      net[..full] == addr[..full] && net[full] & Mask(rem) == addr[full] & Mask(rem)
  {
    TopBitsSplit(net, addr, full, rem);
    MaskIsShift(net[full], addr[full], rem);
    ValueIsInjective(net[..full], addr[..full]);
  }

  /** A match is agreement in the top `prefix` bits, and no address matches at an over-wide prefix. */
  lemma MatchIsTopBits(net: Bytes, addr: Bytes, prefix: nat)
    requires |net| == |addr|
    ensures PrefixMatch(net, addr, prefix, 8 * |net|) <==>
      prefix <= 8 * |net| && TopBits(net, prefix) == TopBits(addr, prefix)
  {
    if prefix <= 8 * |net| {
      var full, rem := prefix / 8, prefix % 8;
      assert prefix == 8 * full + rem;
      if rem == 0 {
        TopBitsOfWholeBytes(net, full);
        TopBitsOfWholeBytes(addr, full);
        ValueIsInjective(net[..full], addr[..full]);
      } else {
        PartialByteDecides(net, addr, full, rem);
      }
    }
  }

  /** At each valid prefix length, matching is an equivalence. */
  lemma MatchIsEquivalence(a: Bytes, b: Bytes, c: Bytes, prefix: nat)
    requires |a| == |b| == |c| && prefix <= 8 * |a|
    ensures PrefixMatch(a, a, prefix, 8 * |a|)
    ensures PrefixMatch(a, b, prefix, 8 * |a|) ==> PrefixMatch(b, a, prefix, 8 * |a|)
    ensures PrefixMatch(a, b, prefix, 8 * |a|) && PrefixMatch(b, c, prefix, 8 * |a|) ==> PrefixMatch(a, c, prefix, 8 * |a|)
  {
    MatchIsTopBits(a, a, prefix);
    MatchIsTopBits(a, b, prefix);
    MatchIsTopBits(b, a, prefix);
    MatchIsTopBits(b, c, prefix);
    MatchIsTopBits(a, c, prefix);
  }

  /** A match at a longer prefix is a match at every shorter one. */
  lemma MatchShortens(net: Bytes, addr: Bytes, long: nat, short: nat)
    requires |net| == |addr| && short <= long
    ensures PrefixMatch(net, addr, long, 8 * |net|) ==> PrefixMatch(net, addr, short, 8 * |net|)
  {
    MatchIsTopBits(net, addr, long);
    MatchIsTopBits(net, addr, short);
    if long <= 8 * |net| {
      TopBitsShorten(net, long, short);
      TopBitsShorten(addr, long, short);
    }
  }
}
