/**
  The struct that bpftool generates for a data section (codegen_datasec_def, lib/bpftool/src/gen.c:166-230):
  a sequence of variables and padding arrays that a C compiler for an unknown target must lay out at the
  offsets recorded in BTF.
*/
module DataSec {
  import opened Wrappers
  import opened Bits

  /** A section variable: BTF offset, size, and natural alignment (non-positive if it cannot be determined). */
  datatype Var = Var(offset: nat, size: nat, align: int, isStatic: bool)

  /** An emitted field: `char __padN[bytes]`, or the variable with the given index. */
  datatype Field = Pad(bytes: int) | Decl(index: nat)

  function Min4(align: int): int { if align > 4 then 4 else align }

  function RoundUp(x: int, a: int): int
    requires a > 0
  {
    (x + a - 1) / a * a
  }

  // ---------------------------------------------------------------- what a C compiler does

  /** The alignment the target gives to variable i; `tal` may differ from BTF's only above 4, where it is a
      multiple of 4: an 8-byte type may align to 8 or to 4. */
  ghost predicate TargetAlign(vars: seq<Var>, tal: seq<nat>) {
    |tal| == |vars| && forall i :: 0 <= i < |vars| && vars[i].align > 0 ==>
      if vars[i].align <= 4 then tal[i] == vars[i].align else tal[i] > 0 && tal[i] % 4 == 0
  }

  /** The offset of the end of the struct after laying out `fs` by C rules. */
  function EndOf(vars: seq<Var>, tal: seq<nat>, fs: seq<Field>): int
    requires |tal| == |vars|
  {
    if fs == [] then 0
    else
      var off := EndOf(vars, tal, fs[..|fs| - 1]);
      match fs[|fs| - 1]
      case Pad(n) => off + n
      case Decl(i) => if i < |vars| && tal[i] > 0 then RoundUp(off, tal[i]) + vars[i].size else off
  }

  /** The offset of field k, a variable. */
  function OffsetOf(vars: seq<Var>, tal: seq<nat>, fs: seq<Field>, k: nat): int
    requires |tal| == |vars| && k < |fs| && fs[k].Decl? && fs[k].index < |vars| && tal[fs[k].index] > 0
  {
    RoundUp(EndOf(vars, tal, fs[..k]), tal[fs[k].index])
  }

  /** Every emitted variable is placed at its BTF offset. */
  ghost predicate LaidOut(vars: seq<Var>, tal: seq<nat>, fs: seq<Field>)
    requires |tal| == |vars|
  {
    forall k :: 0 <= k < |fs| && fs[k].Decl? ==>
      && fs[k].index < |vars| && tal[fs[k].index] > 0
      && OffsetOf(vars, tal, fs, k) == vars[fs[k].index].offset
  }

  // ---------------------------------------------------------------- the generator

  datatype Failure = Overlap(index: nat) | NoAlignment(index: nat)

  /** Variables before n that are not static, in order. */
  function Exposed(vars: seq<Var>, n: nat): seq<nat>
    requires n <= |vars|
  {
    if n == 0 then [] else Exposed(vars, n - 1) + if vars[n - 1].isStatic then [] else [n - 1]
  }

  function Decls(fs: seq<Field>): seq<nat> {
    if fs == [] then []
    else Decls(fs[..|fs| - 1]) + if fs[|fs| - 1].Decl? then [fs[|fs| - 1].index] else []
  }

  /** Offset at which the variables before n end. */
  function Reached(vars: seq<Var>, n: nat): int
    requires n <= |vars|
  {
    if n == 0 then 0
    else if vars[n - 1].isStatic then Reached(vars, n - 1)
    else vars[n - 1].offset + vars[n - 1].size
  }

  /** The offset of each exposed variable is a multiple of its alignment on the target. */
  ghost predicate AlignedTo(vars: seq<Var>, tal: seq<nat>, n: nat)
    requires n <= |vars| == |tal|
  {
    forall i :: 0 <= i < n && !vars[i].isStatic ==> tal[i] > 0 && vars[i].offset % tal[i] == 0
  }

  /** What is emitted for variable i when the fields so far end at off. */
  function Emitted(vars: seq<Var>, i: nat, off: int): seq<Field>
    requires i < |vars| && vars[i].align > 0
  {
    (if RoundUp(off, Min4(vars[i].align)) != vars[i].offset then [Pad(vars[i].offset - off)] else []) + [Decl(i)]
  }

  function Emit(vars: seq<Var>, n: nat): Result<seq<Field>, Failure>
    requires n <= |vars|
  {
    if n == 0 then Ok([])
    else match Emit(vars, n - 1)
      case Err(e) => Err(e)
      case Ok(fs) =>
        var v := vars[n - 1];
        if v.isStatic then Ok(fs)
        else if Reached(vars, n - 1) > v.offset then Err(Overlap(n - 1))
        else if v.align <= 0 then Err(NoAlignment(n - 1))
        else Ok(fs + Emitted(vars, n - 1, Reached(vars, n - 1)))
  }

  /** codegen_datasec_def */
  method Codegen(vars: seq<Var>) returns (r: Result<seq<Field>, Failure>)
    ensures r == Emit(vars, |vars|)
  {
    var fields := [];
    var off := 0;
    var i := 0;
    while i < |vars|
      invariant 0 <= i <= |vars| && off == Reached(vars, i) && Emit(vars, i) == Ok(fields)
    {
      if !vars[i].isStatic {
        var needOff := vars[i].offset;
        if off > needOff {
          EmitFails(vars, i + 1, |vars|);
          return Err(Overlap(i));
        }
        var align := vars[i].align;
        if align <= 0 {
          EmitFails(vars, i + 1, |vars|);
          return Err(NoAlignment(i));
        }
        if align > 4 { align := 4; }
        var alignOff := (off + align - 1) / align * align;
        var emitted := [];
        if alignOff != needOff {
          emitted := emitted + [Pad(needOff - off)];
        }
        emitted := emitted + [Decl(i)];
        assert emitted == Emitted(vars, i, off);
        fields := fields + emitted;
        off := vars[i].offset + vars[i].size;
      }
      i := i + 1;
    }
    return Ok(fields);
  }

  lemma {:induction false} EmitFails(vars: seq<Var>, i: nat, n: nat)
    requires i <= n <= |vars| && Emit(vars, i).Err?
    ensures Emit(vars, n) == Emit(vars, i)
  {
    if i < n { EmitFails(vars, i, n - 1); }
  }

  // ---------------------------------------------------------------- placement

  lemma {:induction false} BelowOne(k: int, a: int)
    requires a > 0 && k * a < a
    ensures k <= 0
  {
    if k >= 1 { MulMono(1, k, a); }
  }

  /** Rounding up to a gives the least multiple of a that is not smaller. */
  lemma {:induction false} RoundUpLeast(x: int, a: int, m: int)
    requires a > 0
    ensures x <= RoundUp(x, a) < x + a && RoundUp(x, a) % a == 0
    ensures m >= x && m % a == 0 ==> RoundUp(x, a) <= m
  {
    var q := (x + a - 1) / a;
    DivModUnique(q * a, a, q, 0);
    if m >= x && m % a == 0 {
      var k := m / a;
      assert (q - k) * a == q * a - m;
      BelowOne(q - k, a);
      MulMono(q, k, a);
    }
  }

  lemma {:induction false} MultipleOfMultiple(x: int, t: int, a: int)
    requires t > 0 && a > 0 && x % t == 0 && t % a == 0
    ensures x % a == 0
  {
    var k, j := x / t, t / a;
    assert x == k * j * a by { assert k * (j * a) == k * j * a; }
    DivModUnique(x, a, k * j, 0);
  }

  /** If the small alignment already reaches the wanted offset, so does the target's. */
  lemma {:induction false} SamePlace(off: int, need: int, t: int, a: int)
    requires off <= need && t > 0 && a > 0 && t % a == 0 && need % t == 0 && RoundUp(off, a) == need
    ensures RoundUp(off, t) == need
  {
    RoundUpLeast(off, t, need);
    MultipleOfMultiple(RoundUp(off, t), t, a);
    RoundUpLeast(off, a, RoundUp(off, t));
  }

  lemma {:induction false} Exact(x: int, a: int)
    requires a > 0
    ensures RoundUp(x, a) == x <==> x % a == 0
  {
    RoundUpLeast(x, a, x);
  }

  /** Appending the fields of one more variable whose offset suits the target's alignment. */
  lemma {:induction false} PlaceNext(vars: seq<Var>, tal: seq<nat>, fs: seq<Field>, i: nat, off: int)
    requires TargetAlign(vars, tal) && i < |vars| && vars[i].align > 0 && off <= vars[i].offset
    requires EndOf(vars, tal, fs) == off && vars[i].offset % tal[i] == 0
    ensures var gs := fs + Emitted(vars, i, off);
            EndOf(vars, tal, gs) == vars[i].offset + vars[i].size
            && OffsetOf(vars, tal, gs, |gs| - 1) == vars[i].offset
  {
    var need, t, a := vars[i].offset, tal[i], Min4(vars[i].align);
    var gs := fs + Emitted(vars, i, off);
    if RoundUp(off, a) == need {
      assert gs[..|gs| - 1] == fs;
      DivModUnique(t, t, 1, 0);
      SamePlace(off, need, t, a);
    } else {
      var padded := fs + [Pad(need - off)];
      assert padded[..|fs|] == fs && gs[..|gs| - 1] == padded;
      Exact(need, t);
    }
  }

  lemma {:induction false} LaidOutPrefix(vars: seq<Var>, tal: seq<nat>, fs: seq<Field>, ext: seq<Field>)
    requires |tal| == |vars|
    ensures LaidOut(vars, tal, fs + ext) ==> LaidOut(vars, tal, fs)
    ensures LaidOut(vars, tal, fs) ==> forall k :: 0 <= k < |fs| && fs[k].Decl? ==>
              && fs[k].index < |vars| && tal[fs[k].index] > 0
              && OffsetOf(vars, tal, fs + ext, k) == vars[fs[k].index].offset
  {
    assert forall k :: 0 <= k < |fs| ==> (fs + ext)[..k] == fs[..k] && (fs + ext)[k] == fs[k];
  }

  lemma {:induction false} LaidOutNext(vars: seq<Var>, tal: seq<nat>, fs: seq<Field>, i: nat, off: int)
    requires TargetAlign(vars, tal) && i < |vars| && vars[i].align > 0 && LaidOut(vars, tal, fs)
    requires var gs := fs + Emitted(vars, i, off); OffsetOf(vars, tal, gs, |gs| - 1) == vars[i].offset
    ensures LaidOut(vars, tal, fs + Emitted(vars, i, off))
  {
    var ext := Emitted(vars, i, off);
    var gs := fs + ext;
    LaidOutPrefix(vars, tal, fs, ext);
    forall k | 0 <= k < |gs| && gs[k].Decl?
      ensures gs[k].index < |vars| && tal[gs[k].index] > 0 && OffsetOf(vars, tal, gs, k) == vars[gs[k].index].offset
    {
      if k < |fs| { assert gs[k] == fs[k]; } else { assert k == |gs| - 1; }
    }
  }

  lemma {:induction false} AlignedIsLaidOut(vars: seq<Var>, tal: seq<nat>, n: nat)
    requires TargetAlign(vars, tal) && n <= |vars| && Emit(vars, n).Ok? && AlignedTo(vars, tal, n)
    ensures EndOf(vars, tal, Emit(vars, n).value) == Reached(vars, n) && LaidOut(vars, tal, Emit(vars, n).value)
  {
    if n > 0 {
      AlignedIsLaidOut(vars, tal, n - 1);
      var fs, i, off := Emit(vars, n - 1).value, n - 1, Reached(vars, n - 1);
      if !vars[i].isStatic {
        PlaceNext(vars, tal, fs, i, off);
        LaidOutNext(vars, tal, fs, i, off);
      }
    }
  }

  lemma {:induction false} LaidOutIsAligned(vars: seq<Var>, tal: seq<nat>, n: nat)
    requires TargetAlign(vars, tal) && n <= |vars| && Emit(vars, n).Ok? && LaidOut(vars, tal, Emit(vars, n).value)
    ensures AlignedTo(vars, tal, n)
  {
    if n > 0 {
      var fs, i, off := Emit(vars, n - 1).value, n - 1, Reached(vars, n - 1);
      if vars[i].isStatic {
        LaidOutIsAligned(vars, tal, n - 1);
      } else {
        var gs := fs + Emitted(vars, i, off);
        LaidOutPrefix(vars, tal, fs, Emitted(vars, i, off));
        LaidOutIsAligned(vars, tal, n - 1);
        assert gs[|gs| - 1] == Decl(i);
        RoundUpLeast(EndOf(vars, tal, gs[..|gs| - 1]), tal[i], 0);
      }
    }
  }

  /** When generation succeeds, the struct places every variable at its BTF offset on a target exactly when
      each offset is a multiple of the variable's alignment on that target, whether the target aligns 8-byte
      types to 8 or to 4. */
  lemma {:induction false} LayoutIff(vars: seq<Var>, tal: seq<nat>)
    requires TargetAlign(vars, tal) && Emit(vars, |vars|).Ok?
    ensures LaidOut(vars, tal, Emit(vars, |vars|).value) <==> AlignedTo(vars, tal, |vars|)
  {
    if AlignedTo(vars, tal, |vars|) { AlignedIsLaidOut(vars, tal, |vars|); }
    if LaidOut(vars, tal, Emit(vars, |vars|).value) { LaidOutIsAligned(vars, tal, |vars|); }
  }

  lemma {:induction false} EmittedDecls(vars: seq<Var>, fs: seq<Field>, i: nat, off: int)
    requires i < |vars| && vars[i].align > 0
    ensures Decls(fs + Emitted(vars, i, off)) == Decls(fs) + [i]
  {
    var gs := fs + Emitted(vars, i, off);
    assert gs[|gs| - 1] == Decl(i);
    if RoundUp(off, Min4(vars[i].align)) == vars[i].offset {
      assert gs[..|gs| - 1] == fs;
    } else {
      var padded := fs + [Pad(vars[i].offset - off)];
      assert gs[..|gs| - 1] == padded && padded[..|fs|] == fs;
    }
  }

  /** Exactly the non-static variables are declared, in order. */
  lemma {:induction false} DeclaresExposed(vars: seq<Var>, n: nat)
    requires n <= |vars| && Emit(vars, n).Ok?
    ensures Decls(Emit(vars, n).value) == Exposed(vars, n)
  {
    if n > 0 {
      DeclaresExposed(vars, n - 1);
      var fs, i, off := Emit(vars, n - 1).value, n - 1, Reached(vars, n - 1);
      if !vars[i].isStatic { EmittedDecls(vars, fs, i, off); }
    }
  }

  /** Natural alignment suits both kinds of target: if every offset is a multiple of BTF's alignment, it is a
      multiple of any target alignment that divides it. */
  lemma {:induction false} NaturalAlignmentSuffices(vars: seq<Var>, tal: seq<nat>)
    requires TargetAlign(vars, tal) && Emit(vars, |vars|).Ok?
    requires forall i :: 0 <= i < |vars| && !vars[i].isStatic ==>
               vars[i].align > 0 && tal[i] > 0 && vars[i].align % tal[i] == 0 && vars[i].offset % vars[i].align == 0
    ensures LaidOut(vars, tal, Emit(vars, |vars|).value)
  {
    forall i | 0 <= i < |vars| && !vars[i].isStatic ensures vars[i].offset % tal[i] == 0 {
      MultipleOfMultiple(vars[i].offset, vars[i].align, tal[i]);
    }
    LayoutIff(vars, tal);
  }

  /** Generation fails exactly when an exposed variable starts before the previous one ends, or has no
      alignment. */
  lemma {:induction false} EmitOkIff(vars: seq<Var>, n: nat)
    requires n <= |vars|
    ensures Emit(vars, n).Ok? <==>
            forall i :: 0 <= i < n && !vars[i].isStatic ==> Reached(vars, i) <= vars[i].offset && vars[i].align > 0
  {
    if n > 0 { EmitOkIff(vars, n - 1); }
  }

  /** The error names the first exposed variable that starts before the previous one ends, or else has no alignment. */
  lemma {:induction false} EmitError(vars: seq<Var>, n: nat) returns (i: nat)
    requires n <= |vars| && Emit(vars, n).Err?
    ensures i < n && !vars[i].isStatic && Emit(vars, i).Ok?
    ensures if Reached(vars, i) > vars[i].offset then Emit(vars, n) == Err(Overlap(i))
            else vars[i].align <= 0 && Emit(vars, n) == Err(NoAlignment(i))
  {
    if Emit(vars, n - 1).Err? { i := EmitError(vars, n - 1); } else { i := n - 1; }
  }

  /** Field k is padding: it fills the gap before the next field, a variable that would otherwise not land at its
      offset where nothing aligns to more than 4. */
  ghost predicate PadNeeded(vars: seq<Var>, fs: seq<Field>, k: nat)
    requires k < |fs| && fs[k].Pad?
  {
    k + 1 < |fs| && fs[k + 1].Decl? && fs[k + 1].index < |vars| &&
    var v, end := vars[fs[k + 1].index], Reached(vars, fs[k + 1].index);
    v.align > 0 && fs[k].bytes == v.offset - end && Misses(end, v)
  }

  ghost predicate Misses(end: int, v: Var)
    requires v.align > 0
  {
    var a := if v.align > 4 then 4 else v.align;
    (end + a - 1) / a * a != v.offset
  }

  /** Field k is a variable without padding before it: it lands at its offset by alignment alone. */
  ghost predicate NoPadNeeded(vars: seq<Var>, fs: seq<Field>, k: nat)
    requires k < |fs| && fs[k].Decl?
  {
    (k > 0 && fs[k - 1].Pad?) ||
    (fs[k].index < |vars| && vars[fs[k].index].align > 0
     && !Misses(Reached(vars, fs[k].index), vars[fs[k].index]))
  }

  ghost predicate PadsRight(vars: seq<Var>, fs: seq<Field>) {
    forall k :: 0 <= k < |fs| ==> if fs[k].Pad? then PadNeeded(vars, fs, k) else NoPadNeeded(vars, fs, k)
  }

  lemma {:induction false} PadsNext(vars: seq<Var>, fs: seq<Field>, i: nat)
    requires i < |vars| && vars[i].align > 0 && PadsRight(vars, fs)
    ensures PadsRight(vars, fs + Emitted(vars, i, Reached(vars, i)))
  {
    var gs := fs + Emitted(vars, i, Reached(vars, i));
    forall k | 0 <= k < |gs| ensures if gs[k].Pad? then PadNeeded(vars, gs, k) else NoPadNeeded(vars, gs, k) {
      if k < |fs| {
        assert gs[k] == fs[k] && (fs[k].Pad? ==> PadNeeded(vars, fs, k) && gs[k + 1] == fs[k + 1]);
        assert fs[k].Decl? ==> NoPadNeeded(vars, fs, k) && (k > 0 ==> gs[k - 1] == fs[k - 1]);
      }
    }
  }

  /** Padding is emitted exactly where it is needed. */
  lemma {:induction false} PadsWhereNeeded(vars: seq<Var>, n: nat)
    requires n <= |vars| && Emit(vars, n).Ok?
    ensures PadsRight(vars, Emit(vars, n).value)
  {
    if n > 0 {
      PadsWhereNeeded(vars, n - 1);
      if !vars[n - 1].isStatic { PadsNext(vars, Emit(vars, n - 1).value, n - 1); }
    }
  }

  /** The excluded side is reachable: an 8-byte variable recorded at offset 4 is laid out right where such types
      align to 4, and at another offset where they align to 8. */
  lemma {:induction false} OnlyWhereAlignedTo4() returns (vars: seq<Var>)
    ensures TargetAlign(vars, [4]) && TargetAlign(vars, [8]) && Emit(vars, |vars|).Ok?
    ensures LaidOut(vars, [4], Emit(vars, |vars|).value) && !LaidOut(vars, [8], Emit(vars, |vars|).value)
  {
    vars := [Var(4, 8, 8, false)];
    EmitOkIff(vars, |vars|);
    assert !vars[0].isStatic && vars[0].offset % 8 != 0;
    LayoutIff(vars, [4]);
    LayoutIff(vars, [8]);
  }
}
