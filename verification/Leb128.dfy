/**
  LEB128 decoding in blazesym (lib/blazesym/src/util.rs:538-584, 610-631) against the encoding of section
  7.6 of DWARF Version 5.  A u64 is a natural number below 2^64; an i64 is decoded as its two's complement
  bit pattern.
*/
module Leb128 {
  import opened Bits
  import opened Wrappers

  const BITS: nat := 64
  const U32: nat := 0x1_0000_0000
  const U64: nat := 0x1_0000_0000_0000_0000
  const HALF: nat := 0x8000_0000_0000_0000

  /** A build with overflow checks panics when a shift count reaches 64; a release build reduces the count
      modulo 64 and goes on. */
  datatype Build = Checked | Wrapping

  /** Eof: the buffer ends inside a value.  Overflow: the panic of a checked build. */
  datatype Failure = Eof | Overflow

  // ---------------------------------------------------------------- the meaning of a byte string

  /** The number whose base-128 digits, least significant first, are the low seven bits of the bytes. */
  function Raw(s: seq<byte>): nat {
    if s == [] then 0 else s[0] % 128 + 128 * Raw(s[1..])
  }

  /** The same digits read as two's complement. */
  function SignedRaw(s: seq<byte>): int
    requires s != []
  {
    Raw(s) - if s[|s| - 1] % 128 >= 64 then Pow2(7 * |s|) else 0
  }

  /** The number of bytes of the value at the front of s: up to the first byte without continuation bit. */
  function End(s: seq<byte>): Option<nat> {
    if s == [] then None
    else if s[0] < 128 then Some(1)
    else match End(s[1..])
      case None => None
      case Some(k) => Some(k + 1)
  }

  /** The first n bytes all have the continuation bit. */
  ghost predicate Continues(s: seq<byte>, n: nat) { n <= |s| && forall i :: 0 <= i < n ==> s[i] >= 128 }

  function ToI64(x: nat): int { if x < HALF then x else x - U64 }

  /** x brought into the range of an i64. */
  function Wrap(x: int): int { ToI64(x % U64) }

  /** The shift count kept for the byte after k others, a 32-bit number. */
  function ShiftAt(k: nat): nat { 7 * k % U32 }

  /** A 64-bit word shifted left, one bit at a time. */
  function ShlBy(x: nat, n: nat): nat
    decreases n
  {
    if n == 0 then x % U64 else ShlBy(2 * x % U64, n - 1)
  }

  /** A count beyond the width is reduced. */
  function Shl(x: nat, count: nat): nat { ShlBy(x, count % BITS) }

  /** The first k digits or-ed together, each at its reduced position. */
  function Ored(s: seq<byte>, k: nat): nat
    requires k <= |s|
  {
    if k == 0 then 0 else Or(Ored(s, k - 1), Shl(s[k - 1] % 128, ShiftAt(k - 1)))
  }

  /** The digits with the sign bit of the last one extended, if there is room. */
  function Extended(e: seq<byte>): nat
    requires e != []
  {
    var r, shift := Ored(e, |e|), ShiftAt(|e|);
    if shift < BITS && e[|e| - 1] % 128 >= 64 then Or(r, Shl(U64 - 1, shift)) else r
  }

  /** The bytes of the value at the front of s, and the rest of the buffer.  A checked build accepts ten bytes;
      it reads an eleventh before it notices the overflow. */
  function Split(build: Build, s: seq<byte>): Result<(seq<byte>, seq<byte>), Failure> {
    match End(s)
    case Some(k) => if 0 < k <= |s| && (build.Wrapping? || k <= 10) then Ok((s[..k], s[k..])) else Err(Overflow)
    case None => if build.Checked? && |s| > 10 then Err(Overflow) else Err(Eof)
  }

  function DecodeU(build: Build, s: seq<byte>): Result<(nat, seq<byte>), Failure> {
    match Split(build, s)
    case Ok((e, rest)) => Ok((Ored(e, |e|), rest))
    case Err(f) => Err(f)
  }

  function DecodeS(build: Build, s: seq<byte>): Result<(int, seq<byte>), Failure> {
    match Split(build, s)
    case Ok((e, rest)) => if e == [] then Err(Eof) else Ok((ToI64(Extended(e)), rest))
    case Err(f) => Err(f)
  }

  // ---------------------------------------------------------------- the readers

  class Cursor {
    const build: Build
    var data: seq<byte>

    constructor (build: Build, s: seq<byte>)
      ensures this.build == build && data == s
    {
      this.build := build;
      data := s;
    }

    /** read_array::<1> */
    method ReadByte() returns (r: Option<byte>)
      modifies this
      ensures if old(data) == [] then r == None && data == [] else r == Some(old(data)[0]) && data == old(data)[1..]
    {
      if data == [] { return None; }
      r := Some(data[0]);
      data := data[1..];
    }

    /** read_u64_leb128 */
    method ReadU64() returns (r: Result<nat, Failure>)
      modifies this
      ensures match DecodeU(build, old(data))
              case Ok((v, rest)) => r == Ok(v) && data == rest
              case Err(e) => r == Err(e)
    {
      ghost var s := data;
      var b := ReadByte();
      if b.None? { return Err(Eof); }
      var byte_ := b.value;
      FirstDigit(s);
      if byte_ < 128 { return Ok(byte_); }
      var result: nat := byte_ % 128;
      var shift: nat := 7;
      ghost var k := 1;
      while true
        invariant Reading(build, s, k, data, shift, result)
        decreases |data|
      {
        b := ReadByte();
        NoByte(build, s, k);
        if b.None? { return Err(Eof); }
        byte_ := b.value;
        if build.Checked? && shift >= BITS { return Err(Overflow); }
        NextByte(build, s, k);
        NextDigit(s, k);
        ShiftNext(k);
        result := Or(result, Shl(byte_ % 128, shift));
        if byte_ < 128 { return Ok(result); }
        k := k + 1;
        shift := (shift + 7) % U32;
      }
    }

    /** The loop of read_i64_leb128: the seven-bit groups, the next shift count and the last byte. */
    method ReadGroups() returns (r: Result<(nat, nat, byte), Failure>)
      modifies this
      ensures match Split(build, old(data))
              case Ok((e, rest)) => e != [] && r == Ok((Ored(e, |e|), ShiftAt(|e|), e[|e| - 1])) && data == rest
              case Err(f) => r == Err(f)
    {
      ghost var s := data;
      var result: nat, shift: nat := 0, 0;
      ghost var k := 0;
      while true
        invariant Reading(build, s, k, data, shift, result)
        decreases |data|
      {
        var b := ReadByte();
        NoByte(build, s, k);
        if b.None? { return Err(Eof); }
        if build.Checked? && shift >= BITS { return Err(Overflow); }
        NextByte(build, s, k);
        NextDigit(s, k);
        ShiftNext(k);
        result := Or(result, Shl(b.value % 128, shift));
        k := k + 1;
        shift := (shift + 7) % U32;
        if b.value < 128 { return Ok((result, shift, b.value)); }
      }
    }

    /** read_i64_leb128 */
    method ReadI64() returns (r: Result<int, Failure>)
      modifies this
      ensures match DecodeS(build, old(data))
              case Ok((v, rest)) => r == Ok(v) && data == rest
              case Err(e) => r == Err(e)
    {
      var groups := ReadGroups();
      if groups.Err? { return Err(groups.error); }
      var (result, shift, last) := groups.value;
      if shift < BITS && last % 128 >= 64 {
        result := Or(result, Shl(U64 - 1, shift));
      }
      return Ok(ToI64(result));
    }
  }

  /** The state of a reader after k bytes, all of them continued. */
  ghost predicate Reading(build: Build, s: seq<byte>, k: nat, data: seq<byte>, shift: nat, result: nat) {
    Continues(s, k) && data == s[k..] && shift == ShiftAt(k) && result == Ored(s, k) && (build.Checked? ==> k <= 10)
  }

  lemma {:induction false} EndHere(s: seq<byte>, k: nat)
    requires Continues(s, k) && k < |s|
    ensures if s[k] < 128 then End(s) == Some(k + 1) else Continues(s, k + 1)
    ensures End(s).Some? ==> k < End(s).value <= |s|
  {
    EndShift(s, k);
    EndBound(s);
    assert s[k..][0] == s[k];
  }

  lemma {:induction false} EndNever(s: seq<byte>)
    requires Continues(s, |s|)
    ensures End(s) == None
  {
    EndShift(s, |s|);
    assert s[|s|..] == [];
  }

  lemma {:induction false} ShiftNext(k: nat)
    ensures (ShiftAt(k) + 7) % U32 == ShiftAt(k + 1)
    ensures k <= 10 ==> ShiftAt(k) == 7 * k
  {
    var q := 7 * k / U32;
    assert 7 * (k + 1) == ShiftAt(k) + 7 + q * U32;
    ModShift(ShiftAt(k) + 7, q, U32);
  }

  /** No further byte, or one too many. */
  lemma {:induction false} NoByte(build: Build, s: seq<byte>, k: nat)
    requires Continues(s, k) && (build.Checked? ==> k <= 10)
    ensures k == |s| ==> Split(build, s) == Err(Eof)
    ensures k < |s| && build.Checked? && ShiftAt(k) >= BITS ==> Split(build, s) == Err(Overflow)
  {
    ShiftNext(k);
    if k == |s| { EndNever(s); } else { EndHere(s, k); }
  }

  /** One more byte: the last, or one that is continued. */
  lemma {:induction false} NextByte(build: Build, s: seq<byte>, k: nat)
    requires Continues(s, k) && k < |s| && (build.Checked? ==> k <= 10 && ShiftAt(k) < BITS)
    ensures if s[k] < 128 then Split(build, s) == Ok((s[..k + 1], s[k + 1..]))
            else Continues(s, k + 1) && (build.Checked? ==> k + 1 <= 10)
  {
    ShiftNext(k);
    EndHere(s, k);
  }

  lemma {:induction false} NextDigit(s: seq<byte>, k: nat)
    requires k < |s|
    ensures Ored(s, k + 1) == Or(Ored(s, k), Shl(s[k] % 128, ShiftAt(k)))
    ensures Ored(s[..k + 1], k + 1) == Ored(s, k + 1)
  {
    OredPrefix(s, k + 1, k + 1);
  }

  lemma {:induction false} OredPrefix(s: seq<byte>, n: nat, k: nat)
    requires k <= n <= |s|
    ensures Ored(s[..n], k) == Ored(s, k)
  {
    if k > 0 { OredPrefix(s, n, k - 1); }
  }

  lemma {:induction false} FirstDigit(s: seq<byte>)
    requires s != []
    ensures Ored(s, 1) == s[0] % 128
    ensures s[0] < 128 ==> s[..1] == [s[0]] && Ored(s[..1], 1) == s[0]
  {
    assert Ored(s, 0) == 0 && ShiftAt(0) == 0;
    OredPrefix(s, 1, 1);
  }

  // ---------------------------------------------------------------- ten bytes and less

  /** Up to ten bytes nothing is lost: the digits are those of the number, modulo 2^64. */
  lemma {:induction false} OredIsRaw(s: seq<byte>, k: nat)
    requires k <= |s| && k <= 10
    ensures Ored(s, k) == Raw(s[..k]) % U64
  {
    if k > 0 {
      OredIsRaw(s, k - 1);
      DigitStep(s, k - 1, Ored(s, k - 1));
    }
  }

  lemma {:induction false} ExtendBelow(raw: nat, shift: nat, n: nat, M: nat)
    requires raw < Pow2(shift) && shift < n && M == Pow2(n)
    ensures Or(raw, (M - 1) * Pow2(shift) % M) == (raw - Pow2(shift)) % M
  {
    OrDigit(raw, M - 1, shift, n, M);
    OnesShifted(raw, M, Pow2(shift));
  }

  lemma {:induction false} SubMultiple(x: int, k: int, m: int)
    requires m > 0
    ensures (x - k * m) % m == x % m
  {
    assert x - k * m == x + (-k) * m;
    ModShift(x, -k, m);
  }

  lemma {:induction false} SignBeyond(raw: nat, shift: nat, n: nat)
    requires shift >= n
    ensures (raw - Pow2(shift)) % Pow2(n) == raw % Pow2(n)
  {
    Pow2Add(shift - n, n);
    SubMultiple(raw, Pow2(shift - n), Pow2(n));
  }

  lemma {:induction false} SignBeyond64(raw: nat, shift: nat)
    requires shift >= BITS
    ensures (raw - Pow2(shift)) % U64 == raw % U64
  {
    var n: nat :| n == BITS;
    WordSize(n);
    SignBeyond(raw, shift, n);
  }

  lemma {:induction false} ExtendShort(e: seq<byte>)
    requires 7 * |e| < BITS
    ensures Or(Raw(e) % U64, (U64 - 1) * Pow2(7 * |e|) % U64) == (Raw(e) - Pow2(7 * |e|)) % U64
  {
    var n: nat :| n == BITS;
    WordSize(n);
    RawBound(e);
    Below64(7 * |e|);
    SmallMod(Raw(e));
    ExtendBelow(Raw(e), 7 * |e|, n, U64);
  }

  /** A shift of the word is a multiplication modulo 2^64. */
  lemma {:induction false} ShlIs(x: nat, n: nat, m: nat)
    requires m == U64
    ensures ShlBy(x, n) == x * Pow2(n) % m
    decreases n
  {
    if n > 0 {
      var p := Pow2(n - 1);
      ShlIs(2 * x % m, n - 1, m);
      ModTimes(2 * x, p, m);
      TwiceLeft(x, p);
      MulSame(x, Pow2(n), 2 * p);
    }
  }

  lemma {:induction false} TwiceLeft(x: nat, p: nat)
    ensures 2 * x * p == x * (2 * p)
  {
  }

  lemma {:induction false} ModTimes(x: nat, p: nat, m: nat)
    requires m > 0
    ensures x % m * p % m == x * p % m
  {
    var q, r := Quotient(x, m), x % m;
    ScaledSum(x, q, m, r, p);
    assert q * (m * p) == q * p * m;
    ModShift(r * p, q * p, m);
  }

  /** Counts below the width are not reduced. */
  lemma {:induction false} ShlSmall(x: nat, k: nat)
    requires 7 * k < BITS
    ensures Shl(x, ShiftAt(k)) == x * Pow2(7 * k) % U64
  {
    NotReduced(x, k);
    ShlIs(x, 7 * k, U64);
  }

  lemma {:induction false} NotReduced(x: nat, k: nat)
    requires 7 * k < BITS
    ensures Shl(x, ShiftAt(k)) == ShlBy(x, 7 * k)
  {
    ShiftNext(k);
    SameShift(x, ShiftAt(k) % BITS, 7 * k);
  }

  lemma {:induction false} SameShift(x: nat, a: nat, b: nat)
    requires a == b
    ensures ShlBy(x, a) == ShlBy(x, b)
  {
  }

  lemma {:induction false} NextByteSize(k: nat, x: nat)
    requires Pow2(8 * k) == x
    ensures Pow2(8 * (k + 1)) == 256 * x
  {
    Pow2Byte(k);
  }

  /** 2^64, byte by byte. */
  lemma {:induction false} WordSize(n: nat)
    requires n == BITS
    ensures Pow2(n) == U64 == 2 * HALF
  {
    var z: nat :| z == 0;
    NextByteSize(z, 1);
    NextByteSize(z + 1, 0x100);
    NextByteSize(z + 2, 0x1_0000);
    NextByteSize(z + 3, 0x100_0000);
    NextByteSize(z + 4, 0x1_0000_0000);
    NextByteSize(z + 5, 0x100_0000_0000);
    NextByteSize(z + 6, 0x1_0000_0000_0000);
    NextByteSize(z + 7, 0x100_0000_0000_0000);
    SamePow2(8 * (z + 8), n);
  }

  lemma {:induction false} SmallMod(x: int)
    requires 0 <= x < U64
    ensures x % U64 == x
  {
  }

  lemma {:induction false} ExtendedShort(e: seq<byte>)
    requires e != [] && 7 * |e| < BITS && e[|e| - 1] % 128 >= 64 && Ored(e, |e|) == Raw(e) % U64
    ensures Extended(e) == (Raw(e) - Pow2(7 * |e|)) % U64
  {
    ShiftNext(|e|);
    ShlSmall(U64 - 1, |e|);
    ExtendShort(e);
  }

  /** Sign extension turns the unsigned digits into the two's complement of the signed value. */
  lemma {:induction false} SignExtend(e: seq<byte>)
    requires 0 < |e| <= 10
    ensures Extended(e) == SignedRaw(e) % U64
  {
    OredIsRaw(e, |e|);
    assert e[..|e|] == e;
    if e[|e| - 1] % 128 >= 64 {
      if 7 * |e| < BITS {
        ExtendedShort(e);
      } else {
        ShiftNext(|e|);
        SignBeyond64(Raw(e), 7 * |e|);
      }
    }
  }

  /** What every build reads from up to ten bytes, and a checked build at all. */
  lemma {:induction false} DecodeMeaning(build: Build, s: seq<byte>)
    ensures match Split(build, s)
            case Err(f) => DecodeU(build, s) == Err(f) && DecodeS(build, s) == Err(f)
            case Ok((e, rest)) =>
              && e != [] && s == e + rest && (build.Checked? ==> |e| <= 10)
              && (|e| <= 10 ==> DecodeU(build, s) == Ok((Raw(e) % U64, rest)))
              && (|e| <= 10 ==> DecodeS(build, s) == Ok((Wrap(SignedRaw(e)), rest)))
  {
    var p := Split(build, s);
    if p.Ok? && |p.value.0| <= 10 {
      var e := p.value.0;
      OredIsRaw(e, |e|);
      assert e[..|e|] == e;
      SignExtend(e);
    }
  }

  lemma {:induction false} OnesShifted(x: int, M: int, p: int)
    requires M > 0
    ensures (x + (M - 1) * p) % M == (x - p) % M
  {
    assert x + (M - 1) * p == x - p + p * M;
    ModShift(x - p, p, M);
  }

  lemma {:induction false} EndBound(s: seq<byte>)
    ensures End(s).Some? ==> 0 < End(s).value <= |s|
  {
    if s != [] { EndBound(s[1..]); }
  }

  /** Continuation bytes only delay the end. */
  lemma {:induction false} EndShift(s: seq<byte>, n: nat)
    requires Continues(s, n)
    ensures match End(s[n..]) case None => End(s) == None case Some(k) => k > 0 && End(s) == Some(k + n)
  {
    EndBound(s);
    if n == 0 {
      assert s[0..] == s;
    } else {
      EndShift(s[1..], n - 1);
      assert s[1..][n - 1..] == s[n..];
    }
  }

  lemma {:induction false} RawSnoc(s: seq<byte>, b: byte)
    ensures Raw(s + [b]) == Raw(s) + b % 128 * Pow2(7 * |s|)
  {
    if s == [] {
      assert s + [b] == [b];
    } else {
      assert (s + [b])[1..] == s[1..] + [b];
      RawSnoc(s[1..], b);
      Pow2Add(7, 7 * |s[1..]|);
      Scaled128(Raw(s[1..]), b % 128, Pow2(7 * |s[1..]|));
    }
  }

  lemma {:induction false} Scaled128(x: nat, d: nat, p: nat)
    ensures 128 * (x + d * p) == 128 * x + d * (128 * p)
  {
  }

  lemma {:induction false} RawBound(s: seq<byte>)
    ensures Raw(s) < Pow2(7 * |s|)
  {
    if s != [] {
      RawBound(s[1..]);
      Pow2Add(7, 7 * |s[1..]|);
    }
  }

  lemma {:induction false} RawBoundAt(s: seq<byte>, n: nat)
    requires |s| == n
    ensures Raw(s) < Pow2(7 * n)
  {
    RawBound(s);
  }

  lemma {:induction false} RawSnocAt(s: seq<byte>, b: byte, n: nat)
    requires |s| == n
    ensures Raw(s + [b]) == Raw(s) + b % 128 * Pow2(7 * n)
  {
    RawSnoc(s, b);
    SamePow2(7 * |s|, 7 * n);
    MulSame(b % 128, Pow2(7 * |s|), Pow2(7 * n));
  }

  /** Or-ing in a digit at a position below the top is addition modulo 2^n. */
  lemma {:induction false} OrDigit(x: nat, d: nat, p: nat, n: nat, M: nat)
    requires x < Pow2(p) && p < n && M == Pow2(n)
    ensures Or(x, d * Pow2(p) % M) == (x + d * Pow2(p)) % M
  {
    var m, a := Pow2(n - p), Pow2(p);
    Pow2Add(n - p, p);
    ScaleMod(d, m, a);
    OrDisjoint(x, d % m, p);
    DigitMod(x, d, m, a);
  }

  lemma {:induction false} Below64(p: nat)
    requires p < BITS
    ensures Pow2(p) <= U64
  {
    var n: nat :| n == BITS;
    WordSize(n);
    Pow2Mono(p, n);
  }

  lemma {:induction false} OrDigit64(x: nat, d: nat, p: nat)
    requires x < Pow2(p) && p < BITS
    ensures Or(x, d * Pow2(p) % U64) == (x + d * Pow2(p)) % U64
  {
    var n: nat :| n == BITS;
    WordSize(n);
    OrDigit(x, d, p, n, U64);
  }

  lemma {:induction false} DigitMod(x: nat, d: nat, m: nat, a: nat)
    requires m > 0 && x < a
    ensures 0 < m * a && (x + d * a) % (m * a) == x + d % m * a
  {
    var q, r := Quotient(d, m), d % m;
    assert d * a == q * (m * a) + r * a by { assert (q * m + r) * a == q * (m * a) + r * a; }
    MulMono(r + 1, m, a);
    assert (r + 1) * a == r * a + a;
    DivModUnique(x + d * a, m * a, q, x + r * a);
  }

  /** One more byte: the running result stays the value of the bytes read, modulo 2^64. */
  lemma {:induction false} DigitStep(s: seq<byte>, k: nat, result: nat)
    requires k < |s| && 7 * k < BITS && result == Raw(s[..k]) % U64
    ensures Or(result, Shl(s[k] % 128, ShiftAt(k))) == Raw(s[..k + 1]) % U64
  {
    RawBoundAt(s[..k], k);
    Below64(7 * k);
    SmallMod(Raw(s[..k]));
    ShlSmall(s[k] % 128, k);
    OrDigit64(result, s[k] % 128, 7 * k);
    assert s[..k + 1] == s[..k] + [s[k]];
    RawSnocAt(s[..k], s[k], k);
  }

  // ---------------------------------------------------------------- round trips

  /** Unsigned LEB128. */
  function EncodeU(v: nat): seq<byte> {
    if v < 128 then [v] else [v % 128 + 128] + EncodeU(v / 128)
  }

  /** Signed LEB128; division rounds down, as an arithmetic shift does. */
  function EncodeS(v: int): (r: seq<byte>)
    ensures r != []
    decreases if v < 0 then -v else v
  {
    var d, rest := v % 128, v / 128;
    if (rest == 0 && d < 64) || (rest == -1 && d >= 64) then [d] else [d + 128] + EncodeS(rest)
  }

  lemma {:induction false} EncodeULength(v: nat, n: nat)
    requires n > 0 && v < Pow2(7 * n)
    ensures |EncodeU(v)| <= n
  {
    if v >= 128 {
      Pow2Add(7, 7 * (n - 1));
      EncodeULength(v / 128, n - 1);
    }
  }

  /** One byte in front: a continuation byte delays the end by one. */
  lemma {:induction false} EndCons(b: byte, s: seq<byte>)
    ensures End([b] + s) ==
            if b < 128 then Some(1) else match End(s) case None => None case Some(k) => Some(k + 1)
  {
    assert ([b] + s)[1..] == s;
  }

  lemma {:induction false} EncodeUMeaning(v: nat, t: seq<byte>)
    ensures Raw(EncodeU(v)) == v && End(EncodeU(v) + t) == Some(|EncodeU(v)|)
  {
    if v < 128 {
      EndCons(v, t);
    } else {
      EncodeUMeaning(v / 128, t);
      var d, rest := v % 128 + 128, EncodeU(v / 128);
      assert EncodeU(v) + t == [d] + (rest + t);
      EndCons(d, rest + t);
      assert EncodeU(v)[1..] == rest;
    }
  }

  lemma {:induction false} TenBytesU(v: nat)
    requires v < U64
    ensures |EncodeU(v)| <= 10
  {
    var n: nat :| n == BITS;
    WordSize(n);
    Pow2Mono(n, 70);
    EncodeULength(v, 10);
  }

  /** Every u64 is read back, and exactly its bytes are consumed. */
  lemma {:induction false} RoundTripU(build: Build, v: nat, t: seq<byte>)
    requires v < U64
    ensures DecodeU(build, EncodeU(v) + t) == Ok((v, t))
  {
    TenBytesU(v);
    EncodeUMeaning(v, t);
    SplitOff(build, EncodeU(v), t);
    OredIsRaw(EncodeU(v), |EncodeU(v)|);
    assert EncodeU(v)[..|EncodeU(v)|] == EncodeU(v);
    SmallMod(v);
  }

  /** A complete value of at most ten bytes is split off as it is. */
  lemma {:induction false} SplitOff(build: Build, e: seq<byte>, t: seq<byte>)
    requires 0 < |e| <= 10 && End(e + t) == Some(|e|)
    ensures Split(build, e + t) == Ok((e, t))
  {
    assert (e + t)[..|e|] == e && (e + t)[|e|..] == t;
  }

  lemma {:induction false} EncodeSLength(v: int, n: nat)
    requires n > 0 && 0 <= v + Pow2(7 * n - 1) && v < Pow2(7 * n - 1)
    ensures |EncodeS(v)| <= n
    decreases n
  {
    var d, rest := v % 128, v / 128;
    assert n == 1 ==> Pow2(7 * n - 1) == Pow2(6) == 64;
    if n > 1 && !((rest == 0 && d < 64) || (rest == -1 && d >= 64)) {
      Pow2Add(7, 7 * (n - 1) - 1);
      EncodeSLength(rest, n - 1);
    }
  }

  lemma {:induction false} SignedRawCons(b: byte, s: seq<byte>)
    requires s != []
    ensures SignedRaw([b] + s) == b % 128 + 128 * SignedRaw(s)
  {
    assert ([b] + s)[1..] == s;
    Pow2Add(7, 7 * |s|);
  }

  lemma {:induction false} LastDigit(d: byte, t: seq<byte>)
    requires d < 128
    ensures SignedRaw([d]) == (if d < 64 then d else d - 128) && End([d] + t) == Some(1)
  {
    var e: seq<byte> := [d];
    assert Raw(e[1..]) == 0 && Pow2(7) == 128;
    EndCons(d, t);
  }

  lemma {:induction false} EncodeSValue(v: int)
    ensures SignedRaw(EncodeS(v)) == v
    decreases if v < 0 then -v else v
  {
    var d, rest := v % 128, v / 128;
    if (rest == 0 && d < 64) || (rest == -1 && d >= 64) {
      LastDigit(d, []);
    } else {
      EncodeSValue(rest);
      MoreDigits(v, d + 128, EncodeS(rest));
    }
  }

  /** One digit in front of those of the rest. */
  lemma {:induction false} MoreDigits(v: int, b: byte, e: seq<byte>)
    requires e != [] && b == v % 128 + 128 && SignedRaw(e) == v / 128
    ensures SignedRaw([b] + e) == v
  {
    SignedRawCons(b, e);
    assert b % 128 == v % 128;
  }

  lemma {:induction false} EncodeSEnd(v: int, t: seq<byte>)
    ensures End(EncodeS(v) + t) == Some(|EncodeS(v)|)
    decreases if v < 0 then -v else v
  {
    var d, rest := v % 128, v / 128;
    if (rest == 0 && d < 64) || (rest == -1 && d >= 64) {
      LastDigit(d, t);
    } else {
      EncodeSEnd(rest, t);
      ManyEnd(d + 128, EncodeS(rest), t);
    }
  }

  lemma {:induction false} ManyEnd(b: byte, e: seq<byte>, t: seq<byte>)
    requires b >= 128 && End(e + t) == Some(|e|)
    ensures End([b] + e + t) == Some(|e| + 1)
  {
    assert [b] + e + t == [b] + (e + t);
    EndCons(b, e + t);
  }

  lemma {:induction false} TenBytesS(v: int)
    requires 0 <= v + HALF && v < HALF
    ensures |EncodeS(v)| <= 10
  {
    var n: nat :| n == BITS;
    WordSize(n);
    Pow2Mono(n, 69);
    EncodeSLength(v, 10);
  }

  /** Every i64 is read back, sign included, and exactly its bytes are consumed. */
  lemma {:induction false} RoundTripS(build: Build, v: int, t: seq<byte>)
    requires 0 <= v + HALF && v < HALF
    ensures DecodeS(build, EncodeS(v) + t) == Ok((v, t))
  {
    TenBytesS(v);
    EncodeSValue(v);
    EncodeSEnd(v, t);
    SplitOff(build, EncodeS(v), t);
    SignExtend(EncodeS(v));
    WrapInRange(v);
  }

  lemma {:induction false} WrapInRange(v: int)
    requires 0 <= v + HALF && v < HALF
    ensures Wrap(v) == v
  {
    assert v % U64 == if v >= 0 then v else v + U64;
  }
}
