/** broadcastAddr (address_spec.go): the IPv4 broadcast address of a prefix, computed byte by byte. */
module Broadcast {
  import opened Common
  import opened RouteKey

  /** The number of addresses in an IPv4 prefix. */
  function Size(bits: nat): (n: nat)
    requires bits <= 32
    ensures n > 0
  {
    Power2(32 - bits)
  }

  /** The address x lies in the IPv4 prefix p. */
  predicate Covers(p: Prefix, x: Addr)
    requires p.Valid() && p.addr.V4? && x.V4?
  {
    Value4(x) / Size(p.bits) == Value4(p.addr) / Size(p.bits)
  }

  /** The highest address of the prefix as a number: its network address and all host bits. */
  function Highest(p: Prefix): int
    requires p.Valid() && p.addr.V4?
  {
    Value4(p.addr) / Size(p.bits) * Size(p.bits) + Size(p.bits) - 1
  }

  /** None where there is no broadcast address: not IPv4, an invalid prefix, or 31 bits and more. Otherwise the
      network address plus all host bits. */
  predicate IsBroadcast(p: Prefix, address: Option<Addr>) {
    && (address.Some? <==> p.addr.V4? && p.Valid() && p.bits < 31)
    && (address.Some? ==> address.value.V4? && Value4(address.value) == Highest(p))
  }

  /** How many of byte i of the address are host bits. */
  function HostBits(bits: nat, i: nat): (h: nat)
    ensures h <= 8
  {
    if bits >= 8 * (i + 1) then 0 else if bits <= 8 * i then 8 else 8 * (i + 1) - bits
  }

  /** net.CIDRMask(bits, 32): the remaining count of ones shifts each byte. */
  method CIDRMask(bits: nat) returns (mask: array<bv8>)
    requires bits <= 32
    ensures fresh(mask) && mask.Length == 4
    ensures forall i :: 0 <= i < 4 ==> !mask[i] == Ones(HostBits(bits, i))
  {
    mask := new bv8[4];
    var n := bits;
    for i := 0 to 4
      invariant n == if bits >= 8 * i then bits - 8 * i else 0
      invariant forall j :: 0 <= j < i ==> !mask[j] == Ones(HostBits(bits, j))
    {
      if n >= 8 {
        mask[i] := 0xff;
        n := n - 8;
      } else {
        mask[i] := !((0xff as bv8) >> n);
        n := 0;
      }
    }
  }

  /** The lowest h bits. */
  function Ones(h: nat): bv8
    requires h <= 8
  {
    (0xff as bv8) >> (8 - h)
  }

  // ---------------------------------------------------------------------------------------------
  // One byte

  /** Setting the bits of m in a fills up the block of p values that a is in. */
  predicate Fills(a: bv8, m: bv8, p: nat) {
    p > 0 && (a | m) as int == a as int / p * p + p - 1
  }

  lemma Fills1(a: bv8)
    ensures Fills(a, 1, 2)
  {
  }

  lemma Fills2(a: bv8)
    ensures Fills(a, 3, 4)
  {
  }

  lemma Fills3(a: bv8)
    ensures Fills(a, 7, 8)
  {
  }

  lemma Fills4(a: bv8)
    ensures Fills(a, 15, 16)
  {
  }

  lemma Fills5(a: bv8)
    ensures Fills(a, 31, 32)
  {
  }

  lemma Fills6(a: bv8)
    ensures Fills(a, 63, 64)
  {
  }

  lemma Fills7(a: bv8)
    ensures Fills(a, 127, 128)
  {
  }

  lemma Fills0And8(a: bv8)
    ensures Fills(a, 0, 1) && Fills(a, 255, 256)
  {
  }

  lemma OnesTable(h: nat)
    requires h <= 8
    ensures Ones(h) == [0, 1, 3, 7, 15, 31, 63, 127, 255][h]
    ensures Power2(h) == [1, 2, 4, 8, 16, 32, 64, 128, 256][h]
  {
    assert Power2(4) == 16;
  }

  lemma OnesFill(a: bv8, h: nat)
    requires h <= 8
    ensures Fills(a, Ones(h), Power2(h))
  {
    OnesTable(h);
    match h
    case 0 => Fills0And8(a);
    case 1 => Fills1(a);
    case 2 => Fills2(a);
    case 3 => Fills3(a);
    case 4 => Fills4(a);
    case 5 => Fills5(a);
    case 6 => Fills6(a);
    case 7 => Fills7(a);
    case 8 => Fills0And8(a);
  }

  // ---------------------------------------------------------------------------------------------
  // The whole address

  lemma {:induction false} Power2Adds(m: nat, n: nat)
    ensures Power2(m + n) == Power2(m) * Power2(n)
  {
    if m > 0 {
      Power2Adds(m - 1, n);
    }
  }

  lemma MultipleBounds(r: int, d: nat)
    ensures r > 0 ==> r * d >= d
    ensures r < 0 ==> r * d + d <= 0
  {
  }

  lemma QuotientIs(v: nat, q: int, d: nat, e: nat)
    requires v == q * d + e && e < d
    ensures v / d == q
  {
    var r := v / d - q;
    assert v == v / d * d + v % d;
    assert r * d == e - v % d;
    MultipleBounds(r, d);
  }

  lemma Regroup(q: nat, p: nat, r: nat, k: nat)
    ensures (q * p + r) * k == q * (p * k) + r * k
  {
  }

  lemma BlockOf(hi: nat, x: Byte, p: nat, m: nat)
    requires p * m == 256 && p > 0
    ensures hi * 256 + x == (hi * m + x / p) * p + x % p
  {
    assert hi * 256 == hi * m * p;
  }

  lemma RemainderBelow(r: nat, low: nat, p: nat, k: nat)
    requires r < p && low < k
    ensures r * k + low < p * k
  {
    assert r * k <= (p - 1) * k;
  }

  /** Filling the block of byte x and all bytes below it, for a byte with hi above it and low, one of k values, below. */
  lemma BlockFills(hi: nat, x: Byte, low: nat, p: nat, m: nat, k: nat)
    requires p * m == 256 && low < k && p > 0 && p * k > 0
    ensures ((hi * 256 + x) * k + low) / (p * k) * (p * k) == (hi * 256 + x / p * p) * k
  {
    var q, r := hi * m + x / p, x % p;
    BlockOf(hi, x, p, m);
    Regroup(q, p, r, k);
    RemainderBelow(r, low, p, k);
    QuotientIs((hi * 256 + x) * k + low, q, p * k, r * k + low);
    Regroup(q, p, 0, k);
    assert q * p == hi * 256 + x / p * p;
  }

  function FilledByte(x: Byte, h: nat): int
    requires h <= 8
  {
    x / Power2(h) * Power2(h) + Power2(h) - 1
  }

  lemma WholeByte(x: Byte)
    ensures FilledByte(x, 0) == x && FilledByte(x, 8) == 255
  {
    assert Power2(8) == 256;
  }

  lemma FilledIsByte(x: Byte, h: nat)
    requires h <= 8
    ensures 0 <= FilledByte(x, h) < 256
  {
    OnesTable(h);
    Power2Adds(h, 8 - h);
    assert Power2(8) == 256;
    BlockOf(0, x, Power2(h), Power2(8 - h));
    var q, m := x / Power2(h), Power2(8 - h);
    assert (m - q) * Power2(h) == 256 - q * Power2(h);
    MultipleBounds(m - q, Power2(h));
  }

  function FilledAddr(x: Addr, bits: nat): Addr
    requires x.V4? && bits <= 32
  {
    FilledIsByte(x.a, HostBits(bits, 0));
    FilledIsByte(x.b, HostBits(bits, 1));
    FilledIsByte(x.c, HostBits(bits, 2));
    FilledIsByte(x.d, HostBits(bits, 3));
    V4(FilledByte(x.a, HostBits(bits, 0)), FilledByte(x.b, HostBits(bits, 1)),
       FilledByte(x.c, HostBits(bits, 2)), FilledByte(x.d, HostBits(bits, 3)))
  }

  lemma SizeSplits(bits: nat, h: nat, below: nat)
    requires bits + h + 8 * below == 32 && h <= 8 && below <= 3
    ensures Size(bits) == Power2(h) * [1, 256, 65536, 0x100_0000][below]
    ensures Power2(h) * Power2(8 - h) == 256
  {
    Power2Adds(h, 8 * below);
    Power2Adds(h, 8 - h);
    assert Power2(8) == 256 && Power2(16) == 65536 && Power2(24) == 0x100_0000;
  }

  lemma TopOf(w: int, p: nat, k: nat)
    requires p > 0
    ensures (w + p - 1) * k + k - 1 == w * k + p * k - 1
  {
    assert (w + p - 1) * k == w * k + p * k - k;
  }

  /** The boundary of the prefix lies in the byte x, which has hi above it and low, one of k values, below. */
  lemma BoundaryIn(x: Addr, bits: nat, h: nat, below: nat, hi: nat, byte: Byte, low: nat, k: nat)
    requires x.V4? && bits + h + 8 * below == 32 && h <= 8 && below <= 3
    requires k == [1, 256, 65536, 0x100_0000][below] && low < k
    requires Value4(x) == (hi * 256 + byte) * k + low
    ensures Highest(Prefix(x, bits)) == (hi * 256 + FilledByte(byte, h)) * k + k - 1
  {
    SizeSplits(bits, h, below);
    var p := Power2(h);
    assert Size(bits) == p * k;
    BlockFills(hi, byte, low, p, Power2(8 - h), k);
    var w := hi * 256 + byte / p * p;
    TopOf(w, p, k);
    assert hi * 256 + FilledByte(byte, h) == w + p - 1;
  }

  lemma FilledValue(x: Addr, bits: nat)
    requires x.V4? && bits < 32
    ensures Value4(FilledAddr(x, bits)) ==
      if bits < 8 then FilledByte(x.a, 8 - bits) * 0x100_0000 + 0xFF_FFFF
      else if bits < 16 then (x.a * 256 + FilledByte(x.b, 16 - bits)) * 65536 + 0xFFFF
      else if bits < 24 then ((x.a * 256 + x.b) * 256 + FilledByte(x.c, 24 - bits)) * 256 + 0xFF
      else ((x.a * 256 + x.b) * 256 + x.c) * 256 + FilledByte(x.d, 32 - bits)
  {
    WholeByte(x.a);
    WholeByte(x.b);
    WholeByte(x.c);
    WholeByte(x.d);
  }

  /** The four filled bytes make up the highest address of the prefix. */
  lemma FilledIsHighest(x: Addr, bits: nat)
    requires x.V4? && bits < 32
    ensures Value4(FilledAddr(x, bits)) == Highest(Prefix(x, bits))
  {
    FilledValue(x, bits);
    if bits < 8 {
      BoundaryIn(x, bits, 8 - bits, 3, 0, x.a, (x.b * 256 + x.c) * 256 + x.d, 0x100_0000);
    } else if bits < 16 {
      BoundaryIn(x, bits, 16 - bits, 2, x.a, x.b, x.c * 256 + x.d, 65536);
    } else if bits < 24 {
      BoundaryIn(x, bits, 24 - bits, 1, x.a * 256 + x.b, x.c, x.d, 256);
    } else {
      BoundaryIn(x, bits, 32 - bits, 0, (x.a * 256 + x.b) * 256 + x.c, x.d, 0, 1);
    }
  }

  // ---------------------------------------------------------------------------------------------
  // The loop

  predicate Filled(out: bv8, byte: bv8, h: nat)
    requires h <= 8
  {
    out as int == FilledByte(byte as int, h)
  }

  lemma OrFills(byte: bv8, hosts: bv8, h: nat)
    requires h <= 8 && hosts == Ones(h)
    ensures Filled(byte | hosts, byte, h)
  {
    OnesFill(byte, h);
  }

  lemma NextByte(b: bv8)
    ensures b != 255 ==> (b + 1) as int == b as int + 1
  {
  }

  /** The byte of that value. */
  function ByteOf(x: nat): (b: bv8)
    requires x < 256
    ensures b as int == x
  {
    if x == 0 then 0
    else
      var b := ByteOf(x - 1);
      NextByte(b);
      b + 1
  }

  method Bytes4(x: Addr) returns (ip: array<bv8>)
    requires x.V4?
    ensures fresh(ip) && ip.Length == 4
    ensures ip[0] as int == x.a && ip[1] as int == x.b && ip[2] as int == x.c && ip[3] as int == x.d
  {
    ip := new bv8[4];
    ip[0], ip[1], ip[2], ip[3] := ByteOf(x.a), ByteOf(x.b), ByteOf(x.c), ByteOf(x.d);
  }

  /** The loop: out[i] = ip[i] | ^mask[i]. */
  method SetHostBits(ip: array<bv8>, mask: array<bv8>, bits: nat) returns (out: array<bv8>)
    requires mask.Length == ip.Length
    requires forall i :: 0 <= i < mask.Length ==> !mask[i] == Ones(HostBits(bits, i))
    ensures fresh(out) && out.Length == ip.Length
    ensures forall i :: 0 <= i < out.Length ==> Filled(out[i], ip[i], HostBits(bits, i))
  {
    out := new bv8[ip.Length];
    for i := 0 to ip.Length
      modifies out
      invariant forall j :: 0 <= j < i ==> Filled(out[j], ip[j], HostBits(bits, j))
    {
      var byte, hosts := ip[i], !mask[i];
      OrFills(byte, hosts, HostBits(bits, i));
      out[i] := byte | hosts;
    }
  }

  /** FilledByte by name, so that its arithmetic stays out of the way. */
  predicate IsFilled(out: int, x: Byte, h: nat)
    requires h <= 8
  {
    out == FilledByte(x, h)
  }

  lemma FilledFrom(x: Byte, byte: bv8, out: bv8, h: nat)
    requires h <= 8 && byte as int == x && Filled(out, byte, h)
    ensures IsFilled(out as int, x, h)
  {
  }

  lemma FilledBytes(x: Addr, bits: nat, y: Addr)
    requires x.V4? && y.V4? && bits < 32
    requires IsFilled(y.a, x.a, HostBits(bits, 0)) && IsFilled(y.b, x.b, HostBits(bits, 1))
    requires IsFilled(y.c, x.c, HostBits(bits, 2)) && IsFilled(y.d, x.d, HostBits(bits, 3))
    ensures Value4(y) == Highest(Prefix(x, bits))
  {
    FilledIsHighest(x, bits);
  }

  /** The address of the four bytes out, which are x with the host bits set. */
  method Address4(out: array<bv8>, ghost ip: array<bv8>, ghost x: Addr, ghost bits: nat) returns (y: Addr)
    requires x.V4? && out.Length == 4 && ip.Length == 4
    requires ip[0] as int == x.a && ip[1] as int == x.b && ip[2] as int == x.c && ip[3] as int == x.d
    requires forall i :: 0 <= i < out.Length ==> Filled(out[i], ip[i], HostBits(bits, i))
    ensures y.V4? && IsFilled(y.a, x.a, HostBits(bits, 0)) && IsFilled(y.b, x.b, HostBits(bits, 1))
    ensures IsFilled(y.c, x.c, HostBits(bits, 2)) && IsFilled(y.d, x.d, HostBits(bits, 3))
  {
    var a, b, c, d := out[0], out[1], out[2], out[3];
    FilledFrom(x.a, ip[0], a, HostBits(bits, 0));
    FilledFrom(x.b, ip[1], b, HostBits(bits, 1));
    FilledFrom(x.c, ip[2], c, HostBits(bits, 2));
    FilledFrom(x.d, ip[3], d, HostBits(bits, 3));
    y := V4(a as int, b as int, c as int, d as int);
  }

  method BroadcastAddr(p: Prefix) returns (address: Option<Addr>)
    ensures IsBroadcast(p, address)
  {
    if !p.addr.V4? { return None; }
    if p.bits >= 31 { return None; }
    if !p.Valid() { return None; }
    var ip := Bytes4(p.addr);
    var mask := CIDRMask(p.bits);
    var out := SetHostBits(ip, mask, p.bits);
    var y := Address4(out, ip, p.addr, p.bits);
    FilledBytes(p.addr, p.bits, y);
    address := Some(y);
  }

  /** There is none exactly for other than IPv4 prefixes of 0 to 30 bits; and it is the last address of its block of
      2^(32 - bits) addresses. */
  lemma BroadcastMeans(p: Prefix, address: Option<Addr>)
    requires IsBroadcast(p, address)
    ensures address.None? <==> !(p.addr.V4? && 0 <= p.bits <= 30)
    ensures address.Some? ==>
      && address.value.V4?
      && var size := Power2(32 - p.bits);
         (Value4(address.value) + 1) % size == 0 && Value4(p.addr) <= Value4(address.value) < Value4(p.addr) + size
  {
    if address.Some? {
      var size := Power2(32 - p.bits);
      LastOfBlock(Value4(p.addr), size);
    }
  }

  lemma LastOfBlock(v: nat, n: nat)
    requires n > 0
    ensures (v / n * n + n) % n == 0
    ensures v / n * n <= v < v / n * n + n
  {
    assert v / n * n + n == (v / n + 1) * n;
    MultipleRemainder(v / n + 1, n);
  }

  lemma MultipleRemainder(q: nat, n: nat)
    requires n > 0
    ensures q * n % n == 0
  {
    QuotientIs(q * n, q, n, 0);
    assert q * n == q * n / n * n + q * n % n;
  }

  lemma BlockTop(v: nat, n: nat)
    requires n > 0
    ensures v / n * n <= v <= v / n * n + n - 1
  {
    assert v == v / n * n + v % n;
  }

  /** The result lies in the prefix, and no address of the prefix is above it (section 3.2.1.3 of RFC 1122). */
  lemma HighestIsGreatest(p: Prefix, x: Addr)
    requires p.Valid() && p.addr.V4? && x.V4? && p.bits < 32
    ensures Value4(x) == Highest(p) ==> Covers(p, x)
    ensures Covers(p, x) ==> Value4(x) <= Highest(p)
  {
    var n, q := Size(p.bits), Value4(p.addr) / Size(p.bits);
    BlockTop(Value4(x), n);
    if Value4(x) == Highest(p) {
      QuotientIs(Value4(x), q, n, n - 1);
    }
  }

  /** The host bits of the input do not matter: every address of the prefix gives the same result, and only those do. */
  lemma HostBitsDoNotMatter(p: Prefix, x: Addr)
    requires p.Valid() && p.addr.V4? && x.V4? && p.bits < 32
    ensures Highest(Prefix(x, p.bits)) == Highest(p) <==> Covers(p, x)
  {
    var n := Size(p.bits);
    var d := Value4(x) / n - Value4(p.addr) / n;
    assert d * n == Value4(x) / n * n - Value4(p.addr) / n * n;
    MultipleBounds(d, n);
  }
}
