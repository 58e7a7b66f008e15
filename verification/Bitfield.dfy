/**
  Bitfield extraction in bpftool's BTF dumper (lib/bpftool/src/btf_dumper.c:310-375) for little-endian
  layout.  A double-width number is held in two words and shifted left, then right, to cut a field out.
  The arithmetic is proved for every word width n; the program uses 64.  C leaves a shift by the full word
  width undefined; the model takes what 64-bit machines do, which is to reduce the count modulo 64.
*/
module Bitfield {
  import opened Bits

  const WIDTH: nat := 64

  /** A shift count, reduced modulo the word width; counts here never exceed the width. */
  function Count(k: nat, n: nat): nat { if k < n then k else k - n }

  function Shl(x: nat, k: nat, n: nat): nat { (x * Pow2(Count(k, n))) % Pow2(n) }

  function Shr(x: nat, k: nat, n: nat): nat { Quotient(x, Pow2(Count(k, n))) }

  function Value(hi: nat, lo: nat, n: nat): nat { hi * Pow2(n) + lo }

  function ShiftLeft(hi: nat, lo: nat, l: nat, n: nat): (nat, nat)
  {
    if l >= n then (Shl(lo, l - n, n), 0)
    else (Or(Shl(hi, l, n), Shr(lo, n - l, n)), Shl(lo, l, n))
  }

  function ShiftRight(hi: nat, lo: nat, r: nat, n: nat): (nat, nat)
  {
    if r >= n then (0, Shr(hi, r - n, n))
    else (Shr(hi, r, n), Or(Shr(lo, r, n), Shl(hi, n - r, n)))
  }

  // ---------------------------------------------------------------- the two-word shifts are real shifts

  lemma {:induction false} PairBound(x: nat, y: nat, m: nat, a: nat)
    requires x < m && y < a
    ensures x * a + y < m * a
  {
    MulMono(x + 1, m, a);
    assert (x + 1) * a == x * a + a;
  }

  lemma {:induction false} SumScaled(x: nat, y: nat, z: nat)
    ensures (x + y) * z == x * z + y * z
  {
  }

  lemma {:induction false} Regroup(x: nat, y: nat, z: nat)
    ensures x * y * z == x * z * y
  {
  }

  lemma {:induction false} TwoWordMod(x: nat, k: nat, h: nat, w: nat, W: nat)
    requires h < W && w < W && x == k * (W * W) + (h * W + w)
    ensures 0 < W * W && x % (W * W) == h * W + w
  {
    PairBound(h, w, W, W);
    DivModUnique(x, W * W, k, h * W + w);
  }

  /** The algebra of scaling two words of size W by a, when each scaled word splits into what carries over
      and what stays. */
  lemma {:induction false} LeftAlgebra(hi: nat, lo: nat, k: nat, ca: nat, q: nat, da: nat, a: nat, W: nat)
    requires hi * a == k * W + ca && lo * a == q * W + da
    ensures (hi * W + lo) * a == k * (W * W) + ((ca + q) * W + da)
  {
    SumScaled(hi * W, lo, a);
    Regroup(hi, W, a);
    SumScaled(k * W, ca, W);
    SumScaled(ca, q, W);
    assert k * W * W == k * (W * W);
  }

  lemma {:induction false} LeftMod(hi: nat, lo: nat, k: nat, ca: nat, q: nat, da: nat, a: nat, W: nat)
    requires hi * a == k * W + ca && lo * a == q * W + da && ca + a <= W && da + a <= W && q < a
    ensures 0 < W * W && (hi * W + lo) * a % (W * W) == (ca + q) * W + da
  {
    LeftAlgebra(hi, lo, k, ca, q, da, a, W);
    TwoWordMod((hi * W + lo) * a, k, ca + q, da, W);
  }

  lemma {:induction false} ScaledSplit(x: nat, m: nat, a: nat)
    requires m > 0 && a > 0
    ensures x * a == x / m * (m * a) + x % m * a && 0 <= x % m * a && x % m * a + a <= m * a
  {
    var k: nat, c: nat := x / m, x % m;
    assert (k * m + c) * a == k * (m * a) + c * a;
    MulMono(c + 1, m, a);
    SumScaled(c, 1, a);
  }

  /** Shifting a word left by 0 < l < n keeps its low bits and drops its high ones. */
  lemma {:induction false} WordShift(x: nat, l: nat, n: nat)
    requires 0 < l < n
    ensures Pow2(n) == Pow2(n - l) * Pow2(l)
    ensures Shl(x, l, n) == (x % Pow2(n - l)) * Pow2(l)
    ensures Shr(x, l, n) == x / Pow2(l)
  {
    Pow2Add(n - l, l);
    ScaleMod(x, Pow2(n - l), Pow2(l));
  }

  /** The algebra of a left shift by W * a: the upper word falls out. */
  lemma {:induction false} WideAlgebra(hi: nat, lo: nat, W: nat, a: nat)
    requires W > 0
    ensures 0 < W * W && ((hi * W + lo) * (W * a)) % (W * W) == ((lo * a) % W) * W
  {
    ScaleMod(lo * a, W, W);
    assert (hi * W + lo) * (W * a) == lo * a * W + hi * a * (W * W);
    ModShift(lo * a * W, hi * a, W * W);
  }

  lemma {:induction false} NarrowParts(hi: nat, lo: nat, l: nat, n: nat)
    requires lo < Pow2(n) && 0 < l < n
    ensures var a, m := Pow2(l), Pow2(n - l);
            lo / m < a && ShiftLeft(hi, lo, l, n) == (hi % m * a + lo / m, lo % m * a)
  {
    var a, m := Pow2(l), Pow2(n - l);
    WordShift(hi, l, n);
    WordShift(lo, l, n);
    WordShift(lo, n - l, n);
    QuotientBound(lo, m, a);
    OrDisjoint(lo / m, hi % m, l);
  }

  lemma {:induction false} WordSplit(x: nat, l: nat, n: nat)
    requires 0 < l < n
    ensures var a, m := Pow2(l), Pow2(n - l);
            x * a == x / m * Pow2(n) + x % m * a && 0 <= x % m * a && x % m * a + a <= Pow2(n)
  {
    Pow2Add(n - l, l);
    ScaledSplit(x, Pow2(n - l), Pow2(l));
  }

  lemma {:induction false} NarrowMod(hi: nat, lo: nat, l: nat, n: nat)
    requires 0 < l < n && lo / Pow2(n - l) < Pow2(l)
    ensures var a, m, W := Pow2(l), Pow2(n - l), Pow2(n);
            && hi % m * a + lo / m < W && lo % m * a < W && 0 < W * W
            && (hi * W + lo) * a % (W * W) == (hi % m * a + lo / m) * W + lo % m * a
  {
    var m, a, W := Pow2(n - l), Pow2(l), Pow2(n);
    WordSplit(hi, l, n);
    WordSplit(lo, l, n);
    var k, q, ca, da := Quotient(hi, m), Quotient(lo, m), hi % m * a, lo % m * a;
    LeftMod(hi, lo, k, ca, q, da, a, W);
  }

  lemma {:induction false} ValueScaled(hi: nat, lo: nat, h: nat, w: nat, a: nat, n: nat)
    requires (hi * Pow2(n) + lo) * a % (Pow2(n) * Pow2(n)) == h * Pow2(n) + w
    ensures Value(hi, lo, n) * a % (Pow2(n) * Pow2(n)) == Value(h, w, n)
  {
  }

  lemma {:induction false} LeftIsShiftNarrow(hi: nat, lo: nat, l: nat, n: nat)
    requires hi < Pow2(n) && lo < Pow2(n) && 0 < l < n
    ensures var (h, w) := ShiftLeft(hi, lo, l, n);
            h < Pow2(n) && w < Pow2(n) && Value(h, w, n) == Value(hi, lo, n) * Pow2(l) % (Pow2(n) * Pow2(n))
  {
    NarrowParts(hi, lo, l, n);
    NarrowMod(hi, lo, l, n);
    var (h, w) := ShiftLeft(hi, lo, l, n);
    ValueScaled(hi, lo, h, w, Pow2(l), n);
  }

  lemma {:induction false} LeftIsShift(hi: nat, lo: nat, l: nat, n: nat)
    requires hi < Pow2(n) && lo < Pow2(n) && 0 < l < 2 * n
    ensures var (h, w) := ShiftLeft(hi, lo, l, n);
            h < Pow2(n) && w < Pow2(n) && Value(h, w, n) == Value(hi, lo, n) * Pow2(l) % Pow2(2 * n)
  {
    Pow2Add(n, n);
    if l >= n {
      Pow2Add(n, l - n);
      WideAlgebra(hi, lo, Pow2(n), Pow2(l - n));
    } else {
      LeftIsShiftNarrow(hi, lo, l, n);
    }
  }

  lemma {:induction false} RightPolynomial(hi: nat, k: nat, c: nat, d: nat, e: nat, a: nat, b: nat, W: nat)
    requires hi == k * a + c && W == b * a
    ensures hi * W + (d * a + e) == (k * W + (c * b + d)) * a + e
  {
    SumScaled(k * a, c, W);
    Regroup(k, a, W);
    assert c * W == c * b * a by { assert c * (b * a) == c * b * a; }
    SumScaled(k * W, c * b + d, a);
    SumScaled(c * b, d, a);
  }

  /** The algebra of a right shift by a = 2^r within words of size W = b * a. */
  lemma {:induction false} RightAlgebra(hi: nat, lo: nat, a: nat, b: nat, W: nat)
    requires a > 0 && W == b * a
    ensures (hi * W + lo) / a == Quotient(hi, a) * W + (hi % a * b + Quotient(lo, a))
  {
    var k, c, d, e := Quotient(hi, a), hi % a, Quotient(lo, a), lo % a;
    RightPolynomial(hi, k, c, d, e, a, b, W);
    DivModUnique(hi * W + lo, a, k * W + (c * b + d), e);
  }

  lemma {:induction false} RightParts(hi: nat, lo: nat, r: nat, n: nat)
    requires lo < Pow2(n) && 0 < r < n
    ensures var a, b := Pow2(r), Pow2(n - r);
            ShiftRight(hi, lo, r, n) == (Quotient(hi, a), hi % a * b + Quotient(lo, a))
  {
    var a, b := Pow2(r), Pow2(n - r);
    WordShift(hi, r, n);
    WordShift(lo, r, n);
    WordShift(hi, n - r, n);
    QuotientBound(lo, a, b);
    OrDisjoint(Quotient(lo, a), hi % a, n - r);
  }

  lemma {:induction false} RightValue(hi: nat, lo: nat, h: nat, w: nat, a: nat, n: nat)
    requires a > 0 && (hi * Pow2(n) + lo) / a == h * Pow2(n) + w
    ensures Value(hi, lo, n) / a == Value(h, w, n)
  {
  }

  lemma {:induction false} RightIsShiftNarrow(hi: nat, lo: nat, r: nat, n: nat)
    requires lo < Pow2(n) && 0 < r < n
    ensures var (h, w) := ShiftRight(hi, lo, r, n); Value(h, w, n) == Value(hi, lo, n) / Pow2(r)
  {
    RightParts(hi, lo, r, n);
    Pow2Add(n - r, r);
    RightAlgebra(hi, lo, Pow2(r), Pow2(n - r), Pow2(n));
    var (h, w) := ShiftRight(hi, lo, r, n);
    RightValue(hi, lo, h, w, Pow2(r), n);
  }

  lemma {:induction false} RightIsShift(hi: nat, lo: nat, r: nat, n: nat)
    requires lo < Pow2(n) && 0 < r < 2 * n
    ensures var (h, w) := ShiftRight(hi, lo, r, n); Value(h, w, n) == Value(hi, lo, n) / Pow2(r)
  {
    if r >= n {
      Pow2Add(n, r - n);
      DivMod(Value(hi, lo, n), Pow2(n), Pow2(r - n));
      DivModUnique(Value(hi, lo, n), Pow2(n), hi, lo);
    } else {
      RightIsShiftNarrow(hi, lo, r, n);
    }
  }

  /** Left then right, on two words, is left then right on the number they hold. */
  lemma {:induction false} ShiftBoth(hi: nat, lo: nat, l: nat, r: nat, n: nat, M: nat, q: nat)
    requires hi < Pow2(n) && lo < Pow2(n) && 0 < l < 2 * n && 0 < r < 2 * n && M == Pow2(2 * n) && q == Pow2(r)
    ensures var (h, w) := ShiftLeft(hi, lo, l, n);
            var (h', w') := ShiftRight(h, w, r, n);
            Value(h', w', n) == Value(hi, lo, n) * Pow2(l) % M / q
  {
    LeftIsShift(hi, lo, l, n);
    var (h, w) := ShiftLeft(hi, lo, l, n);
    RightIsShift(h, w, r, n);
  }

  // ---------------------------------------------------------------- cutting out a field

  /** The number stored little-endian in a byte buffer. */
  function LeValue(s: seq<byte>): nat {
    if s == [] then 0 else s[0] + 256 * LeValue(s[1..])
  }

  function BytesToCopy(bits: nat): nat { bits / 8 + if bits % 8 != 0 then 1 else 0 }

  /** The two words after memcpy of c bytes into a zeroed buffer: (upper, lower). */
  function Load(data: seq<byte>, c: nat): (nat, nat)
    requires c <= |data| && c <= 16
  {
    if c <= 8 then (0, LeValue(data[..c])) else (LeValue(data[8..c]), LeValue(data[..8]))
  }

  /** btf_dumper_bitfield up to printing: (upper, lower). */
  function Extract(nrBits: nat, bitOffset: nat, data: seq<byte>): (nat, nat)
    requires bitOffset + nrBits <= 2 * WIDTH && BytesToCopy(bitOffset + nrBits) <= |data|
  {
    var (hi, lo) := Load(data, BytesToCopy(bitOffset + nrBits));
    var (h, w) := ShiftLeft(hi, lo, 2 * WIDTH - (bitOffset + nrBits), WIDTH);
    ShiftRight(h, w, 2 * WIDTH - nrBits, WIDTH)
  }

  /** btf_int128_shift on print_num, whose first word is the lower one. */
  method Int128Shift(printNum: array<nat>, leftShiftBits: nat, rightShiftBits: nat)
    requires printNum.Length == 2
    modifies printNum
    ensures var (h, w) := ShiftLeft(old(printNum[1]), old(printNum[0]), leftShiftBits, WIDTH);
            (printNum[1], printNum[0]) == ShiftRight(h, w, rightShiftBits, WIDTH)
  {
    var upper, lower := printNum[1], printNum[0];
    if leftShiftBits >= WIDTH {
      upper := Shl(lower, leftShiftBits - WIDTH, WIDTH);
      lower := 0;
    } else {
      upper := Or(Shl(upper, leftShiftBits, WIDTH), Shr(lower, WIDTH - leftShiftBits, WIDTH));
      lower := Shl(lower, leftShiftBits, WIDTH);
    }
    if rightShiftBits >= WIDTH {
      lower := Shr(upper, rightShiftBits - WIDTH, WIDTH);
      upper := 0;
    } else {
      lower := Or(Shr(lower, rightShiftBits, WIDTH), Shl(upper, WIDTH - rightShiftBits, WIDTH));
      upper := Shr(upper, rightShiftBits, WIDTH);
    }
    printNum[0] := lower;
    printNum[1] := upper;
  }

  /** btf_dumper_bitfield: below bit 128 the printed number is exactly the nrBits bits at bitOffset of the
      whole buffer. */
  method DumperBitfield(nrBits: nat, bitOffset: nat, data: seq<byte>) returns (upper: nat, lower: nat)
    requires bitOffset <= 7 && 1 <= nrBits && bitOffset + nrBits <= 2 * WIDTH
    requires BytesToCopy(bitOffset + nrBits) <= |data|
    ensures (upper, lower) == Extract(nrBits, bitOffset, data)
    ensures bitOffset + nrBits < 2 * WIDTH ==>
              Value(upper, lower, WIDTH) == LeValue(data) / Pow2(bitOffset) % Pow2(nrBits)
  {
    var bitsToCopy := bitOffset + nrBits;
    var printNum := new nat[2];
    var words := Load(data, BytesToCopy(bitsToCopy));
    printNum[1], printNum[0] := words.0, words.1;
    Int128Shift(printNum, 2 * WIDTH - bitsToCopy, 2 * WIDTH - nrBits);
    upper, lower := printNum[1], printNum[0];
    if bitsToCopy < 2 * WIDTH { ExtractExact(nrBits, bitOffset, data); }
  }

  lemma {:induction false} LeBound(s: seq<byte>)
    ensures LeValue(s) < Pow2(8 * |s|)
  {
    if s != [] {
      LeBound(s[1..]);
      Pow2Byte(|s[1..]|);
    }
  }

  lemma {:induction false} LeBoundTo(s: seq<byte>, n: nat)
    requires 8 * |s| <= n
    ensures LeValue(s) < Pow2(n)
  {
    LeBound(s);
    Pow2Mono(8 * |s|, n);
  }

  lemma {:induction false} ByteScaled(y: nat, p: nat, x: nat)
    ensures 256 * (y + p * x) == 256 * y + (256 * p) * x
  {
  }

  lemma {:induction false} LeAppend(s: seq<byte>, t: seq<byte>)
    ensures LeValue(s + t) == LeValue(s) + Pow2(8 * |s|) * LeValue(t)
  {
    if s == [] {
      assert s + t == t;
    } else {
      assert (s + t)[1..] == s[1..] + t;
      LeAppend(s[1..], t);
      Pow2Byte(|s[1..]|);
      ByteScaled(LeValue(s[1..]), Pow2(8 * |s[1..]|), LeValue(t));
    }
  }

  lemma {:induction false} LoadValue(data: seq<byte>, c: nat)
    requires c <= |data| && c <= 16
    ensures var (hi, lo) := Load(data, c);
            hi < Pow2(WIDTH) && lo < Pow2(WIDTH) && Value(hi, lo, WIDTH) == LeValue(data[..c])
  {
    if c <= 8 {
      LeBoundTo(data[..c], WIDTH);
    } else {
      LeBoundTo(data[8..c], WIDTH);
      LeBoundTo(data[..8], WIDTH);
      assert data[..c] == data[..8] + data[8..c];
      LeAppend(data[..8], data[8..c]);
    }
  }

  /** Cutting o + k bits to the top of o + k + l bits, then k bits to the bottom. */
  lemma {:induction false} FieldAlgebra(v: nat, o: nat, k: nat, l: nat, M: nat, q: nat)
    requires M == Pow2(o + k + l) && q == Pow2(o + l)
    ensures v * Pow2(l) % M / q == v / Pow2(o) % Pow2(k)
  {
    Pow2Split(o, k, l);
    Pow2Add(o, l);
    FieldDivides(v, Pow2(l), Pow2(o), Pow2(k), M, q);
  }

  /** v * a, kept below b * c * a, divided by b * a. */
  lemma {:induction false} FieldDivides(v: nat, a: nat, b: nat, c: nat, M: nat, q: nat)
    requires a > 0 && b > 0 && c > 0 && M == b * c * a && q == b * a
    ensures M > 0 && q > 0 && v * a % M / q == v / b % c
  {
    var u := v % (b * c);
    ScaleMod(v, b * c, a);
    ScaleMod(u, b, a);
    DivMod(v, b, c);
  }

  lemma {:induction false} StrayAlgebra(x: nat, y: nat, a: nat, b: nat, z: nat, P: nat)
    requires a > 0 && b > 0 && P == a * b * z
    ensures (x + P * y) / a % b == x / a % b
  {
    var m := a * b;
    assert m > 0;
    assert m * z * y == z * y * m;
    ModShift(x, z * y, m);
    DivMod(x, a, b);
    DivMod(x + z * y * m, a, b);
  }

  lemma {:induction false} StrayBits(x: nat, y: nat, p: nat, o: nat, k: nat)
    requires o + k <= p
    ensures (x + Pow2(p) * y) / Pow2(o) % Pow2(k) == x / Pow2(o) % Pow2(k)
  {
    Pow2Split(o, k, p - (o + k));
    StrayAlgebra(x, y, Pow2(o), Pow2(k), Pow2(p - (o + k)), Pow2(p));
  }

  lemma {:induction false} Pow2Split(o: nat, k: nat, r: nat)
    ensures Pow2(o + k + r) == Pow2(o) * Pow2(k) * Pow2(r)
  {
    Pow2Add(o, k);
    Pow2Add(o + k, r);
  }

  /** Bytes beyond the copied ones do not matter. */
  lemma {:induction false} StrayBytes(data: seq<byte>, c: nat, o: nat, k: nat)
    requires c <= |data| && o + k <= 8 * c
    ensures LeValue(data) / Pow2(o) % Pow2(k) == LeValue(data[..c]) / Pow2(o) % Pow2(k)
  {
    assert data == data[..c] + data[c..];
    LeAppend(data[..c], data[c..]);
    StrayBits(LeValue(data[..c]), LeValue(data[c..]), 8 * c, o, k);
  }

  lemma {:induction false} CutByWords(hi: nat, lo: nat, o: nat, k: nat, l: nat, r: nat, n: nat, M: nat, q: nat)
    requires hi < Pow2(n) && lo < Pow2(n) && 0 < l < 2 * n && 0 < r < 2 * n
    requires M == Pow2(2 * n) && M == Pow2(o + k + l) && q == Pow2(r) && q == Pow2(o + l)
    ensures var (h, w) := ShiftLeft(hi, lo, l, n);
            var (h', w') := ShiftRight(h, w, r, n);
            Value(h', w', n) == Value(hi, lo, n) / Pow2(o) % Pow2(k)
  {
    ShiftBoth(hi, lo, l, r, n, M, q);
    FieldAlgebra(Value(hi, lo, n), o, k, l, M, q);
  }

  /** Two words of any width n: left then right cuts out bits o to o + k of the number they hold. */
  lemma {:induction false} CutField(hi: nat, lo: nat, o: nat, k: nat, n: nat)
    requires hi < Pow2(n) && lo < Pow2(n) && 1 <= k && o + k < 2 * n
    ensures var (h, w) := ShiftLeft(hi, lo, 2 * n - (o + k), n);
            var (h', w') := ShiftRight(h, w, 2 * n - k, n);
            Value(h', w', n) == Value(hi, lo, n) / Pow2(o) % Pow2(k)
  {
    var l, r := 2 * n - (o + k), 2 * n - k;
    SamePow2(2 * n, o + k + l);
    SamePow2(r, o + l);
    CutByWords(hi, lo, o, k, l, r, n, Pow2(2 * n), Pow2(r));
  }

  lemma {:induction false} ExtractCopied(nrBits: nat, bitOffset: nat, data: seq<byte>, c: nat)
    requires 1 <= nrBits && bitOffset + nrBits < 2 * WIDTH && BytesToCopy(bitOffset + nrBits) == c <= |data|
    ensures var (h, w) := Extract(nrBits, bitOffset, data);
            Value(h, w, WIDTH) == LeValue(data[..c]) / Pow2(bitOffset) % Pow2(nrBits)
  {
    LoadValue(data, c);
    var (hi, lo) := Load(data, c);
    CutField(hi, lo, bitOffset, nrBits, WIDTH);
  }

  /** The field is floor(V / 2^bitOffset) mod 2^nrBits of the number V in the whole buffer. */
  lemma {:induction false} ExtractExact(nrBits: nat, bitOffset: nat, data: seq<byte>)
    requires 1 <= nrBits && bitOffset + nrBits < 2 * WIDTH && BytesToCopy(bitOffset + nrBits) <= |data|
    ensures var (h, w) := Extract(nrBits, bitOffset, data);
            Value(h, w, WIDTH) == LeValue(data) / Pow2(bitOffset) % Pow2(nrBits)
  {
    var c := BytesToCopy(bitOffset + nrBits);
    ExtractCopied(nrBits, bitOffset, data, c);
    StrayBytes(data, c, bitOffset, nrBits);
  }

  // ---------------------------------------------------------------- the full 128 bits

  /** A buffer holding the number 2^o. */
  function OneBit(o: nat): seq<byte>
    requires o < 8
  {
    [Pow2Small(o)] + seq(15, _ => 0)
  }

  function Pow2Small(o: nat): (r: byte)
    requires o < 8
    ensures r == Pow2(o)
  {
    Pow2Mono(o, 7);
    Pow2(o)
  }

  lemma {:induction false} ZeroBytes(n: nat)
    ensures LeValue(seq(n, _ => 0)) == 0
  {
    if n > 0 {
      assert seq(n, _ => 0)[1..] == seq(n - 1, _ => 0);
      ZeroBytes(n - 1);
    }
  }

  lemma {:induction false} LoadOneBit(o: nat)
    requires o < 8
    ensures Load(OneBit(o), 16) == (0, Pow2(o)) && LeValue(OneBit(o)) == Pow2(o)
  {
    var data := OneBit(o);
    assert data[8..16] == seq(8, _ => 0) && data[..8][1..] == seq(7, _ => 0) && data[1..] == seq(15, _ => 0);
    ZeroBytes(8);
    ZeroBytes(7);
    ZeroBytes(15);
  }

  lemma {:induction false} ZeroShift(n: nat)
    ensures Shl(0, 0, n) == 0
  {
    DivModUnique(0, Pow2(n), 0, 0);
  }

  /** A left shift by 0 reads the lower word unshifted into the upper one. */
  lemma {:induction false} LeakAtZero(p: nat, n: nat)
    requires n > 0
    ensures ShiftLeft(0, p, 0, n).0 == p
  {
    ZeroShift(n);
    assert Shr(p, n, n) == Quotient(p, 1);
  }

  lemma {:induction false} TopBit(h: nat, w: nat, o: nat, n: nat)
    requires o < n && h == Pow2(o)
    ensures ShiftRight(h, w, o, n).0 == 1
  {
    DivModUnique(h, h, 1, 0);
    assert Shr(h, o, n) == Quotient(h, h);
  }

  /** A field that ends at bit 128 is cut out wrongly: the lower word leaks into the upper one. */
  lemma {:induction false} FullWidthFails(nrBits: nat, bitOffset: nat)
    requires bitOffset <= 7 && bitOffset + nrBits == 2 * WIDTH
    ensures Extract(nrBits, bitOffset, OneBit(bitOffset)).0 == 1
    ensures LeValue(OneBit(bitOffset)) / Pow2(bitOffset) % Pow2(nrBits) == 1
  {
    LoadOneBit(bitOffset);
    LeakAtZero(Pow2(bitOffset), WIDTH);
    var (h, w) := ShiftLeft(0, Pow2(bitOffset), 0, WIDTH);
    TopBit(h, w, bitOffset, WIDTH);
    DivModUnique(Pow2(bitOffset), Pow2(bitOffset), 1, 0);
    Pow2Mono(1, nrBits);
    DivModUnique(1, Pow2(nrBits), 0, 1);
  }

  ghost predicate ExtractsAll(nrBits: nat, bitOffset: nat)
    requires bitOffset + nrBits <= 2 * WIDTH
  {
    forall data: seq<byte> :: |data| >= 16 ==>
      var (h, w) := Extract(nrBits, bitOffset, data);
      Value(h, w, WIDTH) == LeValue(data) / Pow2(bitOffset) % Pow2(nrBits)
  }

  /** Extraction is right for every buffer exactly when the field ends before bit 128. */
  lemma {:induction false} ExtractExactIff(nrBits: nat, bitOffset: nat)
    requires bitOffset <= 7 && 1 <= nrBits && bitOffset + nrBits <= 2 * WIDTH
    ensures ExtractsAll(nrBits, bitOffset) <==> bitOffset + nrBits < 2 * WIDTH
  {
    if bitOffset + nrBits < 2 * WIDTH {
      forall data: seq<byte> | |data| >= 16
        ensures var (h, w) := Extract(nrBits, bitOffset, data);
                Value(h, w, WIDTH) == LeValue(data) / Pow2(bitOffset) % Pow2(nrBits)
      {
        ExtractExact(nrBits, bitOffset, data);
      }
    } else {
      FullWidthFails(nrBits, bitOffset);
      Pow2Mono(1, WIDTH);
      var (h, w) := Extract(nrBits, bitOffset, OneBit(bitOffset));
      assert Value(h, w, WIDTH) >= Pow2(WIDTH) > 1;
    }
  }
}
