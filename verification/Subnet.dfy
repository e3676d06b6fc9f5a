/** Enumeration of the addresses of an IPv4 subnet (agent/internal/scan/scan.go:84-108, 259-286). */
module Subnet {
  import opened Common

  /** Four address bytes, the most significant first. */
  type Quad = q: seq<int> | |q| == 4 && forall i :: 0 <= i < 4 ==> 0 <= q[i] < 256 witness [0, 0, 0, 0]

  /** A network as the standard library gives it: an address and the size of its mask. `bits` is 32 for
      IPv4, 128 for IPv6 (whose address plays no part here) and 0 for a mask that is not a prefix. */
  datatype Net = Net(ip: Quad, ones: nat, bits: nat)
  type Network = n: Net | n.ones <= n.bits witness Net([0, 0, 0, 0], 0, 0)

  datatype ScanError = NoAddress | TooMany(count: nat)

  const WORD := 0x1_0000_0000
  const MAX_HOSTS := 1024

  function Pow2(k: nat): (p: nat)
    ensures p >= 1
  {
    if k == 0 then 1 else 2 * Pow2(k - 1)
  }

  function Word(q: Quad): nat {
    ((q[0] * 256 + q[1]) * 256 + q[2]) * 256 + q[3]
  }

  function Bytes(v: nat): Quad {
    [v / 0x100_0000 % 256, v / 0x1_0000 % 256, v / 0x100 % 256, v % 256]
  }

  lemma WordOfBytes(v: nat)
    requires v < WORD
    ensures Word(Bytes(v)) == v
  {
    var a, b, c := v / 0x100, v / 0x1_0000, v / 0x100_0000;
    assert v == a * 256 + v % 256;
    assert a == b * 256 + a % 256 && a / 256 == b;
    assert b == c * 256 + b % 256 && b / 256 == c;
    assert c % 256 == c;
  }

  lemma WordFits(q: Quad)
    ensures Word(q) < WORD
  {
  }

  lemma LastDigit(a: nat, b: nat, a': nat, b': nat)
    requires b < 256 && b' < 256 && a * 256 + b == a' * 256 + b'
    ensures a == a' && b == b'
  {
  }

  /** Distinct addresses are distinct numbers. */
  lemma WordInjective(q: Quad, q': Quad)
    requires Word(q) == Word(q')
    ensures q == q'
  {
    var a, a' := q[0] * 256 + q[1], q'[0] * 256 + q'[1];
    LastDigit(a * 256 + q[2], q[3], a' * 256 + q'[2], q'[3]);
    LastDigit(a, q[2], a', q'[2]);
    LastDigit(q[0], q[1], q'[0], q'[1]);
  }

  // ----- the mask, byte by byte -----

  /** How many of the first `ones` bits fall in byte `i`. */
  function KeptBits(ones: nat, i: nat): (k: nat)
    ensures k <= 8
  {
    if ones <= 8 * i then 0 else if ones >= 8 * i + 8 then 8 else ones - 8 * i
  }

  /** The largest multiple of `m` that is at most `v`. */
  function Floor(v: nat, m: nat): (r: nat)
    requires m > 0
    ensures r <= v < r + m
  {
    if v < m then 0 else m + Floor(v - m, m)
  }

  /** The byte under a mask that keeps its first `k` bits. */
  function KeepHigh(b: nat, k: nat): (r: nat)
    requires b < 256 && k <= 8
    ensures r <= b
  {
    Floor(b, Pow2(8 - k))
  }

  function Masked(q: Quad, ones: nat): Quad {
    [KeepHigh(q[0], KeptBits(ones, 0)), KeepHigh(q[1], KeptBits(ones, 1)),
     KeepHigh(q[2], KeptBits(ones, 2)), KeepHigh(q[3], KeptBits(ones, 3))]
  }

  lemma {:induction false} PowAdd(a: nat, b: nat)
    ensures Pow2(a + b) == Pow2(a) * Pow2(b)
  {
    if a > 0 {
      PowAdd(a - 1, b);
      assert Pow2(a + b) == 2 * (Pow2(a - 1) * Pow2(b));
    }
  }

  lemma Powers()
    ensures Pow2(0) == 1 && Pow2(8) == 256 && Pow2(16) == 0x1_0000 && Pow2(24) == 0x100_0000 && Pow2(32) == WORD
  {
    assert Pow2(4) == 16;
    PowAdd(4, 4);
    PowAdd(8, 8);
    PowAdd(8, 16);
    PowAdd(16, 16);
  }

  lemma Distributes(a: int, b: int, c: int)
    ensures (a + b) * c == a * c + b * c
  {
  }

  lemma Associates(a: int, b: int, c: int)
    ensures a * b * c == a * (b * c)
  {
  }

  lemma Grows(a: int, b: int, c: nat)
    requires a <= b
    ensures a * c <= b * c
  {
  }

  /** A multiple of `m` that `v` is less than `m` above is the largest one. */
  lemma {:induction false} FloorIs(v: nat, m: nat, c: nat)
    requires c * m <= v < c * m + m
    ensures Floor(v, m) == c * m
    decreases c
  {
    if c > 0 {
      Distributes(c - 1, 1, m);
      FloorIs(v - m, m, c - 1);
    } else {
      assert c * m == 0;
    }
  }

  lemma {:induction false} FloorIsMultiple(v: nat, m: nat) returns (c: nat)
    requires m > 0
    ensures Floor(v, m) == c * m
    decreases v
  {
    if v < m {
      c := 0;
    } else {
      c := FloorIsMultiple(v - m, m);
      Distributes(c, 1, m);
      c := c + 1;
    }
  }

  lemma LessThanBlock(t: nat, low: nat, unit: nat, m: nat)
    requires t < m && low < unit
    ensures t * unit + low < m * unit
  {
    Grows(t + 1, m, unit);
    Distributes(t, 1, unit);
  }

  lemma RoundsDownTo(n: nat, whole: nat, t: nat, low: nat, unit: nat, m: nat)
    requires n == whole * m + t && t < m && low < unit && m * unit > 0
    ensures Floor(n * unit + low, m * unit) == whole * m * unit
  {
    Distributes(whole * m, t, unit);
    Associates(whole, m, unit);
    LessThanBlock(t, low, unit, m);
    FloorIs(n * unit + low, m * unit, whole);
  }

  /** A byte `b` above `low` smaller units, with `high` above: clearing the low part of the byte and what is
      below it rounds the number down to a multiple of the block. */
  lemma RoundsDown(high: nat, b: nat, low: nat, unit: nat, m: nat, p: nat)
    requires m * p == 256 && low < unit && m > 0 && m * unit > 0
    ensures Floor((high * 256 + b) * unit + low, m * unit) == (high * 256 + Floor(b, m)) * unit
  {
    var c := FloorIsMultiple(b, m);
    var t, whole := b - c * m, high * p + c;
    assert whole * m == high * 256 + c * m by {
      Distributes(high * p, c, m);
      Associates(high, p, m);
    }
    RoundsDownTo(high * 256 + b, whole, t, low, unit, m);
  }

  lemma BytePowers(k: nat)
    requires k <= 8
    ensures Pow2(8 - k) * Pow2(k) == 256
  {
    PowAdd(8 - k, k);
    Powers();
  }

  /** Rounding in byte `b` of weight `unit`. */
  lemma ByteRoundsDown(v: nat, block: nat, high: nat, b: nat, low: nat, unit: nat, u: nat, k: nat)
    requires b < 256 && k <= 8 && low < unit == Pow2(u)
    requires v == (high * 256 + b) * unit + low && block == Pow2(8 - k + u)
    ensures Floor(v, block) == (high * 256 + KeepHigh(b, k)) * unit
  {
    BytePowers(k);
    PowAdd(8 - k, u);
    RoundsDown(high, b, low, unit, Pow2(8 - k), Pow2(k));
  }

  lemma KeepAllOrNone(b: nat)
    requires b < 256
    ensures KeepHigh(b, 8) == b && KeepHigh(b, 0) == 0
  {
    Powers();
  }

  /** Below the byte that the mask cuts, bytes are cleared; above it they stay. */
  lemma MaskedBytes(q: Quad, ones: nat)
    requires ones <= 32
    ensures ones >= 24 ==> Masked(q, ones) == [q[0], q[1], q[2], KeepHigh(q[3], ones - 24)]
    ensures 16 <= ones < 24 ==> Masked(q, ones) == [q[0], q[1], KeepHigh(q[2], ones - 16), 0]
    ensures 8 <= ones < 16 ==> Masked(q, ones) == [q[0], KeepHigh(q[1], ones - 8), 0, 0]
    ensures ones < 8 ==> Masked(q, ones) == [KeepHigh(q[0], ones), 0, 0, 0]
  {
    KeepAllOrNone(q[0]);
    KeepAllOrNone(q[1]);
    KeepAllOrNone(q[2]);
    KeepAllOrNone(q[3]);
  }

  lemma MaskedInLowerHalf(q: Quad, ones: nat)
    requires 16 <= ones <= 32
    ensures Word(Masked(q, ones)) == Floor(Word(q), Pow2(32 - ones))
  {
    Powers();
    MaskedBytes(q, ones);
    if ones >= 24 {
      ByteRoundsDown(Word(q), Pow2(32 - ones), (q[0] * 256 + q[1]) * 256 + q[2], q[3], 0, 1, 0, ones - 24);
    } else {
      ByteRoundsDown(Word(q), Pow2(32 - ones), q[0] * 256 + q[1], q[2], q[3], 0x100, 8, ones - 16);
    }
  }

  lemma SecondByteRounds(v: nat, high: nat, b: nat, low: nat, k: nat)
    requires b < 256 && low < 0x1_0000 && k <= 8 && v == (high * 256 + b) * 0x1_0000 + low
    ensures Floor(v, Pow2(24 - k)) == (high * 256 + KeepHigh(b, k)) * 0x1_0000
  {
    Powers();
    ByteRoundsDown(v, Pow2(24 - k), high, b, low, 0x1_0000, 16, k);
  }

  lemma FirstByteRounds(v: nat, b: nat, low: nat, k: nat)
    requires b < 256 && low < 0x100_0000 && k <= 8 && v == b * 0x100_0000 + low
    ensures Floor(v, Pow2(32 - k)) == KeepHigh(b, k) * 0x100_0000
  {
    Powers();
    ByteRoundsDown(v, Pow2(32 - k), 0, b, low, 0x100_0000, 24, k);
  }

  lemma MaskedInSecondByte(q: Quad, ones: nat)
    requires 8 <= ones < 16
    ensures Word(Masked(q, ones)) == Floor(Word(q), Pow2(32 - ones))
  {
    MaskedBytes(q, ones);
    SecondByteRounds(Word(q), q[0], q[1], q[2] * 256 + q[3], ones - 8);
  }

  lemma MaskedInFirstByte(q: Quad, ones: nat)
    requires ones < 8
    ensures Word(Masked(q, ones)) == Floor(Word(q), Pow2(32 - ones))
  {
    MaskedBytes(q, ones);
    FirstByteRounds(Word(q), q[0], (q[1] * 256 + q[2]) * 256 + q[3], ones);
  }

  /** The byte mask is the arithmetic one: it rounds the address down to a multiple of the block size. */
  lemma MaskedIsRounded(q: Quad, ones: nat)
    requires ones <= 32
    ensures Word(Masked(q, ones)) == Floor(Word(q), Pow2(32 - ones))
  {
    if ones >= 16 {
      MaskedInLowerHalf(q, ones);
    } else if ones >= 8 {
      MaskedInSecondByte(q, ones);
    } else {
      MaskedInFirstByte(q, ones);
    }
  }

  /** A number below `p * m`, rounded down to a multiple of `m`, leaves room for a block of `m`. */
  lemma RoundedFits(v: nat, m: nat, p: nat)
    requires m > 0 && v < p * m
    ensures Floor(v, m) + m <= p * m
  {
    var c := FloorIsMultiple(v, m);
    if c >= p {
      Grows(p, c, m);
    }
    Grows(c + 1, p, m);
    Distributes(c, 1, m);
  }

  /** The block of the network lies within the 32-bit words, so that no sum below wraps around. */
  lemma BlockFits(q: Quad, ones: nat)
    requires ones <= 32
    ensures Word(Masked(q, ones)) + Pow2(32 - ones) <= WORD
  {
    PowAdd(ones, 32 - ones);
    Powers();
    MaskedIsRounded(q, ones);
    WordFits(q);
    RoundedFits(Word(q), Pow2(32 - ones), Pow2(ones));
  }

  // ----- the enumeration -----

  predicate Scannable(n: Network) {
    n.bits == 32 && n.ones <= 30
  }

  /** The addresses from just above `lo`, one after the other. */
  predicate CountsUp(out: seq<Quad>, lo: nat) {
    forall j :: 0 <= j < |out| ==> Word(out[j]) == lo + 1 + j
  }

  lemma NoWrap(v: nat)
    requires v < WORD
    ensures v % WORD == v && Word(Bytes(v % WORD)) == v
  {
    WordOfBytes(v);
  }

  lemma CountOne(out: seq<Quad>, lo: nat, q: Quad)
    requires CountsUp(out, lo) && Word(q) == lo + 1 + |out|
    ensures CountsUp(out + [q], lo)
  {
  }

  /** The addresses in the loop are computed in 32-bit words: `v` wraps around at 2^32. */
  method Hosts(n: Network) returns (out: seq<Quad>)
    ensures !Scannable(n) ==> out == []
    ensures Scannable(n) ==> |out| == Pow2(32 - n.ones) - 2
    ensures Scannable(n) ==> CountsUp(out, Word(Masked(n.ip, n.ones)))
  {
    if n.bits != 32 || n.ones > 30 {
      return [];
    }
    var base := Masked(n.ip, n.ones);
    var count := Pow2(32 - n.ones);
    PowAdd(30 - n.ones, 2);
    assert Pow2(2) == 4;
    BlockFits(n.ip, n.ones);
    var v0 := base[0] * 0x100_0000 + base[1] * 0x1_0000 + base[2] * 0x100 + base[3];
    out := [];
    for i := 1 to count - 1
      invariant |out| == i - 1
      invariant CountsUp(out, v0)
    {
      var v := (v0 + i) % WORD;
      NoWrap(v0 + i);
      CountOne(out, v0, Bytes(v));
      out := out + [Bytes(v)];
    }
  }

  /** The addresses of the network: those that the mask sends to its base. */
  predicate Inside(q: Quad, n: Network) {
    Masked(q, n.ones) == Masked(n.ip, n.ones)
  }

  /** The address is the lowest of the network. */
  predicate IsBase(q: Quad, n: Network) {
    Word(q) == Word(Masked(n.ip, n.ones))
  }

  /** The address has all its host bits set. */
  predicate IsBroadcast(q: Quad, n: Network)
    requires n.ones <= 32
  {
    Word(q) == Floor(Word(q), Pow2(32 - n.ones)) + Pow2(32 - n.ones) - 1
  }

  /** Rounding down to the same multiple is lying in the block that starts there. */
  lemma SameBlock(v: nat, w: nat, m: nat)
    requires m > 0
    ensures Floor(v, m) == Floor(w, m) <==> Floor(w, m) <= v < Floor(w, m) + m
  {
    var c := FloorIsMultiple(w, m);
    if c * m <= v < c * m + m {
      FloorIs(v, m, c);
    }
  }

  /** Sharing the base is lying in the block that starts there. */
  lemma InsideIsBlock(q: Quad, n: Network)
    requires n.ones <= 32
    ensures var lo := Word(Masked(n.ip, n.ones));
            && (Inside(q, n) <==> lo <= Word(q) < lo + Pow2(32 - n.ones))
            && (Inside(q, n) ==> Floor(Word(q), Pow2(32 - n.ones)) == lo)
  {
    MaskedIsRounded(q, n.ones);
    MaskedIsRounded(n.ip, n.ones);
    SameBlock(Word(q), Word(n.ip), Pow2(32 - n.ones));
    if Word(Masked(q, n.ones)) == Word(Masked(n.ip, n.ones)) {
      WordInjective(Masked(q, n.ones), Masked(n.ip, n.ones));
    }
  }

  lemma CountedIffBetween(out: seq<Quad>, lo: nat, q: Quad)
    requires CountsUp(out, lo)
    ensures q in out <==> lo < Word(q) <= lo + |out|
  {
    if lo < Word(q) <= lo + |out| {
      WordInjective(out[Word(q) - lo - 1], q);
    }
  }

  /** Exactly the addresses of the network are enumerated, but for its base and its broadcast address
      (section 3.1 of RFC 4632 for the meaning of the prefix length). */
  lemma EnumerationIsExact(n: Network, out: seq<Quad>, q: Quad)
    requires Scannable(n) && |out| == Pow2(32 - n.ones) - 2 && CountsUp(out, Word(Masked(n.ip, n.ones)))
    ensures q in out <==> Inside(q, n) && !IsBase(q, n) && !IsBroadcast(q, n)
  {
    InsideIsBlock(q, n);
    CountedIffBetween(out, Word(Masked(n.ip, n.ones)), q);
  }

  // ----- the order of the results -----

  /** Compares byte by byte; an address that does not parse makes the comparison textual. */
  method IpLess(a: string, b: string, parse: string -> Option<Quad>, textLess: (string, string) -> bool)
    returns (less: bool)
    ensures parse(a).Some? && parse(b).Some? ==> (less <==> Word(parse(a).value) < Word(parse(b).value))
    ensures parse(a).None? || parse(b).None? ==> less == textLess(a, b)
  {
    if parse(a).None? || parse(b).None? {
      return textLess(a, b);
    }
    var x, y: Quad := parse(a).value, parse(b).value;
    for i := 0 to 4
      invariant forall j :: 0 <= j < i ==> x[j] == y[j]
    {
      if x[i] != y[i] {
        return x[i] < y[i];
      }
    }
    return false;
  }

  /** The limit on the number of addresses: it accepts exactly the prefixes from /22 to /30. */
  method Targets(n: Network) returns (r: Result<seq<Quad>, ScanError>)
    ensures r.Ok? <==> n.bits == 32 && 22 <= n.ones <= 30
    ensures r == Err(NoAddress) <==> !Scannable(n)
    ensures Scannable(n) && n.ones < 22 ==> r == Err(TooMany(Pow2(32 - n.ones) - 2))
    ensures r.Ok? ==> forall q: Quad :: q in r.value <==> Inside(q, n) && !IsBase(q, n) && !IsBroadcast(q, n)
    ensures r.Ok? ==> forall i, j :: 0 <= i < j < |r.value| ==> Word(r.value[i]) < Word(r.value[j])
  {
    var targets := Hosts(n);
    if Scannable(n) {
      SizesAroundLimit(n.ones);
    }
    if |targets| == 0 {
      return Err(NoAddress);
    }
    if |targets| > MAX_HOSTS {
      return Err(TooMany(|targets|));
    }
    forall q: Quad ensures q in targets <==> Inside(q, n) && !IsBase(q, n) && !IsBroadcast(q, n) {
      EnumerationIsExact(n, targets, q);
    }
    return Ok(targets);
  }

  lemma {:induction false} PowGrows(a: nat, b: nat)
    requires a <= b
    ensures Pow2(a) <= Pow2(b)
  {
    if a < b {
      PowGrows(a, b - 1);
    }
  }

  lemma SizesAroundLimit(ones: nat)
    requires ones <= 30
    ensures 4 <= Pow2(32 - ones) && (Pow2(32 - ones) - 2 <= MAX_HOSTS <==> ones >= 22)
  {
    assert Pow2(2) == 4 && Pow2(10) == 2 * 2 * Pow2(8) && Pow2(11) == 2 * Pow2(10);
    Powers();
    PowGrows(2, 32 - ones);
    if ones >= 22 {
      PowGrows(32 - ones, 10);
    } else {
      PowGrows(11, 32 - ones);
    }
  }
}
