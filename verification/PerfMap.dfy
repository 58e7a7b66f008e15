/**
  Symbol lookup in perf map files (lib/blazesym/src/perf_map.rs:105-113, 157-189) and the search it builds
  on (lib/blazesym/src/util.rs:358-393).  Addresses are unbounded: a function whose end overflows the
  address space is not modelled.
*/
module PerfMap {
  import opened Wrappers

  // ---------------------------------------------------------------- match or lower bound

  ghost predicate Ascending(keys: seq<int>) { forall i, j :: 0 <= i < j < |keys| ==> keys[i] <= keys[j] }

  /** slice::partition_point: how many leading keys are below item. */
  function PartitionPoint(keys: seq<int>, item: int): (n: nat)
    ensures n <= |keys| && (forall i :: 0 <= i < n ==> keys[i] < item) && (n < |keys| ==> keys[n] >= item)
  {
    if keys == [] || keys[0] >= item then 0 else 1 + PartitionPoint(keys[1..], item)
  }

  /** Index i starts a run of equal keys. */
  ghost predicate StartsRun(keys: seq<int>, i: nat) { i < |keys| && (i == 0 || keys[i - 1] != keys[i]) }

  /** The index found: the first exact match; failing that, in the run of the greatest smaller key its first
      index, except that a run at the front of the slice is reported by its last index. */
  ghost predicate Found(keys: seq<int>, item: int, r: Option<nat>) {
    match r
    case None => forall i :: 0 <= i < |keys| ==> keys[i] > item
    case Some(i) =>
      && i < |keys|
      && (if item in keys then keys[i] == item && StartsRun(keys, i)
          else
            && keys[i] < item
            && (forall j :: i < j < |keys| ==> keys[j] == keys[i] || keys[j] > item)
            && (if keys[0] == keys[i] then i == |keys| - 1 || keys[i + 1] > item else StartsRun(keys, i)))
  }

  /** idx leading keys are below item, the others are not. */
  ghost predicate Parts(keys: seq<int>, item: int, idx: nat) {
    && idx <= |keys| && (forall j :: 0 <= j < idx ==> keys[j] < item)
    && (forall j :: idx <= j < |keys| ==> item <= keys[j])
  }

  lemma {:induction false} FoundMatch(keys: seq<int>, item: int, idx: nat)
    requires Parts(keys, item, idx) && idx < |keys| && keys[idx] == item
    ensures Found(keys, item, Some(idx))
  {
  }

  /** Without a match, the run that ends before the first greater key is reported by its first index, or by its
      last if it is at the front. */
  lemma {:induction false} FoundRun(keys: seq<int>, item: int, idx: nat, i: nat)
    requires Parts(keys, item, idx + 1) && item !in keys && i <= idx
    requires forall j :: i <= j <= idx ==> keys[j] == keys[idx]
    requires i > 0 ==> keys[i - 1] != keys[idx] && keys[0] != keys[idx]
    ensures Found(keys, item, Some(if i > 0 then i else idx))
  {
  }

  /** find_match_or_lower_bound_by_key */
  method FindMatchOrLowerBound(keys: seq<int>, item: int) returns (r: Option<nat>)
    requires Ascending(keys)
    ensures Found(keys, item, r)
  {
    var idx: nat := PartitionPoint(keys, item);
    assert Parts(keys, item, idx);
    if idx < |keys| && keys[idx] == item {
      FoundMatch(keys, item, idx);
      return Some(idx);
    }
    assert item !in keys;
    if idx == 0 { return None; }
    idx := idx - 1;
    var cmp := keys[idx];
    var i := idx;
    while i > 0
      invariant 0 <= i <= idx && forall j :: i <= j <= idx ==> keys[j] == cmp
    {
      i := i - 1;
      if keys[i] != cmp {
        FoundRun(keys, item, idx, i + 1);
        return Some(i + 1);
      }
    }
    FoundRun(keys, item, idx, 0);
    return Some(idx);
  }

  /** The first index of a run is not always reported: here the run is at the front and the last one is. */
  lemma {:induction false} LastOfFrontRun(r: Option<nat>)
    requires Found([1, 1], 2, r)
    ensures r == Some(1) && !StartsRun([1, 1], 1)
  {
    assert [1, 1][0] == 1 && [1, 1][1] == 1;
  }

  // ---------------------------------------------------------------- perf maps

  datatype Func = Func(name: string, addr: nat, size: nat)

  /** A function covers its range; one of size zero covers its start. */
  predicate Covers(f: Func, a: nat) { (f.addr == a && f.size == 0) || f.addr <= a < f.addr + f.size }

  predicate Leq(f: Func, g: Func) { f.addr < g.addr || (f.addr == g.addr && f.size <= g.size) }

  ghost predicate SortedFuncs(fs: seq<Func>) { forall i, j :: 0 <= i < j < |fs| ==> Leq(fs[i], fs[j]) }

  /** Functions with different starts cover no common address. */
  ghost predicate NoOverlap(fs: seq<Func>) {
    forall f, g, a :: f in fs && g in fs && f.addr != g.addr ==> !(Covers(f, a) && Covers(g, a))
  }

  function Keys(fs: seq<Func>): seq<int> { seq(|fs|, i requires 0 <= i < |fs| => fs[i].addr) }

  /** The functions of a perf map in the order of sort_by_key. */
  function SortFuncs(fs: seq<Func>): (r: seq<Func>)
    ensures multiset(r) == multiset(fs)
  {
    if fs == [] then []
    else
      assert fs == fs[..|fs| - 1] + [fs[|fs| - 1]];
      InsertFunc(fs[|fs| - 1], SortFuncs(fs[..|fs| - 1]))
  }

  function InsertFunc(f: Func, fs: seq<Func>): (r: seq<Func>)
    ensures multiset(r) == multiset(fs) + multiset{f}
  {
    if fs == [] then [f]
    else if !Leq(fs[0], f) then [f] + fs
    else
      assert fs == [fs[0]] + fs[1..];
      [fs[0]] + InsertFunc(f, fs[1..])
  }

  lemma {:induction false} InsertFuncSorted(f: Func, fs: seq<Func>)
    requires SortedFuncs(fs)
    ensures SortedFuncs(InsertFunc(f, fs))
  {
    if fs != [] && Leq(fs[0], f) {
      var t := InsertFunc(f, fs[1..]);
      InsertFuncSorted(f, fs[1..]);
      forall k | 0 <= k < |t| ensures Leq(fs[0], t[k]) {
        assert t[k] in multiset(t);
        assert t[k] in multiset(fs[1..]) || t[k] == f;
      }
    }
  }

  lemma {:induction false} SortFuncsSorted(fs: seq<Func>)
    ensures SortedFuncs(SortFuncs(fs))
    ensures var r := SortFuncs(fs);
            forall i, j :: 0 <= i < j < |r| ==>
              r[i].addr <= r[j].addr && (r[i].addr == r[j].addr ==> r[i].size <= r[j].size)
  {
    if fs != [] {
      SortFuncsSorted(fs[..|fs| - 1]);
      InsertFuncSorted(fs[|fs| - 1], SortFuncs(fs[..|fs| - 1]));
    }
  }

  /** f starts as close below the address as any function does. */
  ghost predicate Nearest(fs: seq<Func>, f: Func, a: nat) { forall g :: g in fs && g.addr <= a ==> g.addr <= f.addr }

  /** Without overlaps, a function that covers the address is a nearest one. */
  lemma {:induction false} CoverIsNearest(fs: seq<Func>, a: nat, f: Func)
    requires NoOverlap(fs) && f in fs && Covers(f, a)
    ensures Nearest(fs, f, a)
  {
    forall g | g in fs && g.addr <= a ensures g.addr <= f.addr {
      if g.addr > f.addr { assert Covers(f, g.addr) && Covers(g, g.addr); }
    }
  }

  /** Starting the scan at the found index misses no nearest function: one from there on covers the address. */
  lemma {:induction false} ScanFromFound(fs: seq<Func>, a: nat, r: Option<nat>, c: nat) returns (d: nat)
    requires SortedFuncs(fs) && Found(Keys(fs), a, r) && c < |fs| && Covers(fs[c], a) && Nearest(fs, fs[c], a)
    ensures r.Some? && r.value <= d < |fs| && Covers(fs[d], a)
  {
    var keys := Keys(fs);
    assert keys[c] <= a;
    var i := r.value;
    if c >= i { return c; }
    assert fs[i].addr == keys[i] <= a;
    assert Leq(fs[c], fs[i]) && fs[i] in fs;
    assert keys[c] == keys[i];
    d := i;
    RunStart(keys, c, i);
  }

  /** What the scan visits before it stops are nearest functions. */
  lemma {:induction false} ScanIsNearest(fs: seq<Func>, a: nat, i: nat, j: nat)
    requires SortedFuncs(fs) && Found(Keys(fs), a, Some(i)) && i <= j < |fs| && fs[j].addr <= a
    ensures Nearest(fs, fs[j], a)
  {
    var keys := Keys(fs);
    assert keys[i] == fs[i].addr && keys[j] == fs[j].addr;
    forall g | g in fs && g.addr <= a ensures g.addr <= fs[j].addr {
      var k :| 0 <= k < |fs| && fs[k] == g;
      assert keys[k] == g.addr;
      if k > j { assert Leq(fs[j], fs[k]); } else if k < j { assert Leq(fs[k], fs[j]); }
      if i < k { assert Leq(fs[i], fs[k]); }
      if i < j { assert Leq(fs[i], fs[j]); }
    }
  }

  /** A key equal to an earlier one cannot start a run. */
  lemma {:induction false} RunStart(keys: seq<int>, c: nat, i: nat)
    requires c < i < |keys| && Ascending(keys) && keys[c] == keys[i]
    ensures !StartsRun(keys, i)
  {
    assert keys[c] <= keys[i - 1] <= keys[i];
  }

  lemma {:induction false} KeysAscending(fs: seq<Func>)
    requires SortedFuncs(fs)
    ensures Ascending(Keys(fs))
  {
    var keys := Keys(fs);
    forall i, j | 0 <= i < j < |keys| ensures keys[i] <= keys[j] {
      assert Leq(fs[i], fs[j]);
    }
  }

  /** A scan from the found index that ends without a hit proves that no nearest function covers the address. */
  lemma {:induction false} ScanComplete(fs: seq<Func>, a: nat, r: Option<nat>, n: nat)
    requires SortedFuncs(fs) && Found(Keys(fs), a, r) && n <= |fs|
    requires r.Some? ==> forall j :: r.value <= j < n ==> !Covers(fs[j], a)
    requires n < |fs| && r.Some? ==> fs[n].addr > a
    ensures forall f :: f in fs && Nearest(fs, f, a) ==> !Covers(f, a)
  {
    forall f | f in fs && Nearest(fs, f, a) ensures !Covers(f, a) {
      if Covers(f, a) {
        var c :| 0 <= c < |fs| && fs[c] == f;
        var d := ScanFromFound(fs, a, r, c);
      }
    }
  }

  /** The answer of a lookup: a function that covers the address and is nearest to it, iff there is one. */
  ghost predicate Answers(fs: seq<Func>, a: nat, r: Option<Func>) {
    match r
    case Some(f) => f in fs && Covers(f, a) && Nearest(fs, f, a)
    case None => forall f :: f in fs && Nearest(fs, f, a) ==> !Covers(f, a)
  }

  /** A linear search for a covering function succeeds. */
  ghost predicate Covered(fs: seq<Func>, a: nat) { exists f :: f in fs && Covers(f, a) }

  /** PerfMap::find_sym */
  method FindSym(fs: seq<Func>, addr: nat) returns (r: Option<Func>)
    requires SortedFuncs(fs)
    ensures Answers(fs, addr, r)
  {
    KeysAscending(fs);
    var result := FindMatchOrLowerBound(Keys(fs), addr);
    if result.None? {
      ScanComplete(fs, addr, result, 0);
      return None;
    }
    var i := result.value;
    while i < |fs|
      invariant result.value <= i <= |fs|
      invariant forall j :: result.value <= j < i ==> !Covers(fs[j], addr)
    {
      if fs[i].addr > addr { break; }
      if (fs[i].addr == addr && fs[i].size == 0) || (fs[i].addr <= addr && addr < fs[i].addr + fs[i].size) {
        ScanIsNearest(fs, addr, result.value, i);
        return Some(fs[i]);
      }
      i := i + 1;
    }
    ScanComplete(fs, addr, result, i);
    return None;
  }

  /** Sorted lookup agrees with a linear search for an address exactly when no nearer start hides every
      function that covers it; with functions that do not overlap it agrees for every address. */
  lemma {:induction false} AgreesIff(fs: seq<Func>, a: nat, r: Option<Func>)
    requires Answers(fs, a, r)
    ensures (r.Some? <==> Covered(fs, a)) <==> !Hidden(fs, a)
    ensures NoOverlap(fs) ==> !Hidden(fs, a)
  {
    if NoOverlap(fs) && Covered(fs, a) {
      var f :| f in fs && Covers(f, a);
      CoverIsNearest(fs, a, f);
    }
    if r.None? && Covered(fs, a) {
      var f :| f in fs && Covers(f, a);
      var g := LatestStart(fs, a, f);
      assert NoneAt(fs, g.addr, a);
    }
  }

  /** Some function covers the address, but none of those that start at the last start before it does. */
  ghost predicate Hidden(fs: seq<Func>, a: nat) {
    Covered(fs, a) && exists g :: g in fs && g.addr <= a && Nearest(fs, g, a) && NoneAt(fs, g.addr, a)
  }

  ghost predicate NoneAt(fs: seq<Func>, start: nat, a: nat) { forall f :: f in fs && f.addr == start ==> !Covers(f, a) }

  /** Where a function starts at or below the address, a nearest one exists. */
  lemma {:induction false} LatestStart(fs: seq<Func>, a: nat, f: Func) returns (g: Func)
    requires f in fs && f.addr <= a
    ensures g in fs && g.addr <= a && Nearest(fs, g, a)
    decreases a - f.addr
  {
    if h :| h in fs && f.addr < h.addr <= a {
      g := LatestStart(fs, a, h);
    } else {
      g := f;
    }
  }

  /** From the unsorted file to the answer. */
  method Lookup(lines: seq<Func>, addr: nat) returns (r: Option<Func>)
    ensures Answers(lines, addr, r)
    ensures NoOverlap(lines) ==> (r.Some? <==> Covered(lines, addr))
  {
    var fs := SortFuncs(lines);
    SortFuncsSorted(lines);
    SameElements(lines, fs);
    r := FindSym(fs, addr);
    AgreesIff(lines, addr, r);
  }

  lemma {:induction false} SameElements(a: seq<Func>, b: seq<Func>)
    requires multiset(a) == multiset(b)
    ensures forall f :: f in a <==> f in b
  {
    forall f ensures f in a <==> f in b {
      assert f in multiset(a) <==> f in multiset(b);
    }
  }

  /** Overlap can hide: a zero-size function inside another one hides the rest of it. */
  lemma {:induction false} OverlapCanHide()
    ensures Hidden([Func("outer", 0, 10), Func("marker", 5, 0)], 7)
  {
    var outer, marker := Func("outer", 0, 10), Func("marker", 5, 0);
    var fs := [outer, marker];
    assert outer in fs && Covers(outer, 7);
    assert marker in fs && Nearest(fs, marker, 7) && NoneAt(fs, marker.addr, 7);
  }
}
