/**
  Undoing a sort in place (reorder and with_ordered_elems, lib/blazesym/src/util.rs:236-277).  Elements are
  sorted for a batch lookup, and the results are permuted back by following the cycles of the recorded
  indices.  Only the indices matter to `reorder`, so the values paired with them are left off.
*/
module Reorder {
  import opened Wrappers

  ghost predicate IsPermutation(p: seq<nat>) {
    && (forall i :: 0 <= i < |p| ==> p[i] < |p|)
    && (forall i, j :: 0 <= i < j < |p| ==> p[i] != p[j])
  }

  /** Positions whose element is not home yet. */
  function Misplaced(p: seq<nat>): set<nat> { set i: nat | i < |p| && p[i] != i }

  function Swapped<T>(s: seq<T>, i: nat, j: nat): seq<T>
    requires i < |s| && j < |s|
  {
    s[i := s[j]][j := s[i]]
  }

  /** A swap that sends the element at i to its home keeps a permutation and misplaces strictly fewer. */
  lemma {:induction false} SwapHome(p: seq<nat>, i: nat)
    requires IsPermutation(p) && i < |p| && p[i] != i
    ensures IsPermutation(Swapped(p, i, p[i])) && Misplaced(Swapped(p, i, p[i])) < Misplaced(p)
  {
    var j := p[i];
    var q := Swapped(p, i, j);
    assert q[j] == j && p[j] != j;
    assert j in Misplaced(p) && j !in Misplaced(q);
    forall k | k in Misplaced(q) ensures k in Misplaced(p) {
    }
  }

  /** `q` and `b` are `p` and `a` rearranged together: position j now holds what position w[j] held. */
  ghost predicate Together<T>(a: seq<T>, p: seq<nat>, b: seq<T>, q: seq<nat>, w: seq<nat>) {
    && |a| == |p| == |b| == |q| == |w|
    && forall j :: 0 <= j < |w| ==> w[j] < |w| && q[j] == p[w[j]] && b[j] == a[w[j]]
  }

  lemma {:induction false} TogetherSwap<T>(a: seq<T>, p: seq<nat>, b: seq<T>, q: seq<nat>, w: seq<nat>, i: nat, j: nat)
    requires Together(a, p, b, q, w) && i < |q| && j < |q|
    ensures Together(a, p, Swapped(b, i, j), Swapped(q, i, j), Swapped(w, i, j))
  {
  }

  /** Rearranged together until every index is home: each element is at the place its index named. */
  lemma {:induction false} AllHome<T>(a: seq<T>, p: seq<nat>, b: seq<T>, q: seq<nat>, w: seq<nat>)
    requires IsPermutation(p) && Together(a, p, b, q, w) && HomeUpTo(q, |q|)
    ensures forall i :: 0 <= i < |p| ==> b[p[i]] == a[i]
  {
    forall i | 0 <= i < |p| ensures b[p[i]] == a[i] {
      var k := w[p[i]];
      assert p[k] == p[i];
    }
  }

  /** Positions before i are home. */
  ghost predicate HomeUpTo(q: seq<nat>, i: nat) { i <= |q| && forall j :: 0 <= j < i ==> q[j] == j }

  /** One pass of the inner loop: send the element at i, with its index, to its home. */
  method SwapToHome<T>(a: array<T>, indices: array<nat>, i: nat)
    requires a.Length == indices.Length && a as object != indices as object
    requires i < a.Length && indices[i] < a.Length
    modifies a, indices
    ensures a[..] == Swapped(old(a[..]), i, old(indices[i]))
    ensures indices[..] == Swapped(old(indices[..]), i, old(indices[i]))
  {
    var idx := indices[i];
    a[i], a[idx] := a[idx], a[i];
    indices[i], indices[idx] := indices[idx], indices[i];
  }

  /** The state of reorder before position i. */
  ghost predicate Reordering<T>(a0: seq<T>, p: seq<nat>, b: seq<T>, q: seq<nat>, w: seq<nat>, i: nat) {
    IsPermutation(q) && Together(a0, p, b, q, w) && HomeUpTo(q, i)
  }

  lemma {:induction false} SwapKeeps<T>(a0: seq<T>, p: seq<nat>, b: seq<T>, q: seq<nat>, w: seq<nat>, i: nat)
    requires Reordering(a0, p, b, q, w, i) && i < |q| && q[i] != i
    ensures Reordering(a0, p, Swapped(b, i, q[i]), Swapped(q, i, q[i]), Swapped(w, i, q[i]), i)
    ensures Misplaced(Swapped(q, i, q[i])) < Misplaced(q)
  {
    SwapHome(q, i);
    TogetherSwap(a0, p, b, q, w, i, q[i]);
    HomeKept(q, i);
  }

  /** The inner loop: rotate through the cycle of position i. */
  method SettleAt<T>(a: array<T>, indices: array<nat>, i: nat, ghost a0: seq<T>, ghost p: seq<nat>, ghost w0: seq<nat>)
    returns (ghost w: seq<nat>)
    requires a.Length == indices.Length && a as object != indices as object && i < a.Length
    requires Reordering(a0, p, a[..], indices[..], w0, i)
    modifies a, indices
    ensures Reordering(a0, p, a[..], indices[..], w, i + 1)
  {
    w := w0;
    while indices[i] != i
      invariant Reordering(a0, p, a[..], indices[..], w, i)
      decreases Misplaced(indices[..])
    {
      SwapKeeps(a0, p, a[..], indices[..], w, i);
      w := Swapped(w, i, indices[i]);
      SwapToHome(a, indices, i);
    }
  }

  /** reorder: element i ends up at position indices[i]. */
  method Reorder<T>(a: array<T>, indices: array<nat>)
    requires a.Length == indices.Length && a as object != indices as object && IsPermutation(indices[..])
    modifies a, indices
    ensures forall i :: 0 <= i < a.Length ==> a[old(indices[i])] == old(a[i])
  {
    ghost var a0, p := a[..], indices[..];
    ghost var w: seq<nat> := seq(a.Length, i => i);
    for i := 0 to a.Length
      invariant Reordering(a0, p, a[..], indices[..], w, i)
    {
      w := SettleAt(a, indices, i, a0, p, w);
    }
    AllHome(a0, p, a[..], indices[..], w);
  }

  lemma {:induction false} HomeKept(q: seq<nat>, i: nat)
    requires IsPermutation(q) && HomeUpTo(q, i) && i < |q| && q[i] != i
    ensures HomeUpTo(Swapped(q, i, q[i]), i)
  {
  }

  // ---------------------------------------------------------------- with_ordered_elems

  type Order<!T> = (T, T) -> bool

  /** What the source asks of its values: they are totally ordered. */
  ghost predicate TotalOrder<T(!new)>(leq: Order<T>) {
    && (forall x, y :: leq(x, y) || leq(y, x))
    && (forall x, y :: leq(x, y) && leq(y, x) ==> x == y)
    && (forall x, y, z :: leq(x, y) && leq(y, z) ==> leq(x, z))
  }

  /** The order of pairs: by value, then by position. */
  predicate Leq<T>(leq: Order<T>, x: (T, nat), y: (T, nat)) { !leq(y.0, x.0) || (leq(x.0, y.0) && x.1 <= y.1) }

  lemma {:induction false} LeqOrders<T(!new)>(leq: Order<T>, x: (T, nat), y: (T, nat), z: (T, nat))
    requires TotalOrder(leq)
    ensures Leq(leq, x, y) || Leq(leq, y, x)
    ensures Leq(leq, x, y) && Leq(leq, y, z) ==> Leq(leq, x, z)
  {
  }

  ghost predicate Sorted<T>(leq: Order<T>, s: seq<(T, nat)>) {
    forall i, j :: 0 <= i < j < |s| ==> Leq(leq, s[i], s[j])
  }

  function InsertSorted<T>(leq: Order<T>, x: (T, nat), s: seq<(T, nat)>): (r: seq<(T, nat)>)
    ensures |r| == |s| + 1
  {
    if s == [] then [x]
    else if Leq(leq, x, s[0]) then [x] + s
    else [s[0]] + InsertSorted(leq, x, s[1..])
  }

  /** The pairs (value, position) of `slice`, sorted. */
  function SortPairs<T>(leq: Order<T>, slice: seq<T>, n: nat): (r: seq<(T, nat)>)
    requires n <= |slice|
    ensures |r| == n
  {
    if n == 0 then [] else InsertSorted(leq, (slice[n - 1], n - 1), SortPairs(leq, slice, n - 1))
  }

  lemma {:induction false} InsertKeepsSorted<T(!new)>(leq: Order<T>, x: (T, nat), s: seq<(T, nat)>)
    requires TotalOrder(leq) && Sorted(leq, s)
    ensures Sorted(leq, InsertSorted(leq, x, s))
  {
    if s != [] {
      forall k | 0 <= k < |s| ensures Leq(leq, x, s[0]) ==> Leq(leq, x, s[k]) {
        LeqOrders(leq, x, s[0], s[k]);
      }
      if !Leq(leq, x, s[0]) {
        LeqOrders(leq, x, s[0], x);
        var t := InsertSorted(leq, x, s[1..]);
        InsertKeepsSorted(leq, x, s[1..]);
        var m := InsertedAt(leq, x, s[1..]);
        forall k | 0 <= k < |t| ensures Leq(leq, s[0], t[k]) {
          assert t[k] == if k < m then s[k + 1] else if k == m then x else s[k];
        }
      }
    }
  }

  /** v is s with x put in at position m. */
  ghost predicate InsertedIn<T>(s: seq<(T, nat)>, v: seq<(T, nat)>, x: (T, nat), m: nat) {
    && m <= |s| && |v| == |s| + 1 && v[m] == x
    && (forall k :: 0 <= k < m ==> v[k] == s[k])
    && (forall k :: m < k < |v| ==> v[k] == s[k - 1])
  }

  lemma {:induction false} InsertedAt<T>(leq: Order<T>, x: (T, nat), s: seq<(T, nat)>) returns (m: nat)
    ensures InsertedIn(s, InsertSorted(leq, x, s), x, m)
  {
    if s == [] || Leq(leq, x, s[0]) {
      m := 0;
    } else {
      var t := InsertSorted(leq, x, s[1..]);
      var m' := InsertedAt(leq, x, s[1..]);
      m := m' + 1;
      assert forall k :: 0 < k <= |t| ==> InsertSorted(leq, x, s)[k] == t[k - 1];
    }
  }

  /** v holds each position below n once, beside its value. */
  ghost predicate Numbered<T>(slice: seq<T>, v: seq<(T, nat)>, n: nat)
    requires n <= |slice|
  {
    && |v| == n
    && (forall k :: 0 <= k < n ==> v[k].1 < n && v[k].0 == slice[v[k].1])
    && (forall j, k :: 0 <= j < k < n ==> v[j].1 != v[k].1)
  }

  lemma {:induction false} NumberedNext<T>(slice: seq<T>, u: seq<(T, nat)>, v: seq<(T, nat)>, n: nat, m: nat)
    requires n < |slice| && Numbered(slice, u, n) && m <= n && |v| == n + 1
    requires InsertedIn(u, v, (slice[n], n), m)
    ensures Numbered(slice, v, n + 1)
  {
    forall j, k | 0 <= j < k < n + 1 ensures v[j].1 != v[k].1 {
      assert j < m ==> v[j] == u[j];
      assert j > m ==> v[j] == u[j - 1];
      assert k < m ==> v[k] == u[k];
      assert k > m ==> v[k] == u[k - 1];
    }
    forall k | 0 <= k < n + 1 ensures v[k].1 < n + 1 && v[k].0 == slice[v[k].1] {
      assert k < m ==> v[k] == u[k];
      assert k > m ==> v[k] == u[k - 1];
    }
  }

  /** The sorted pairs hold each position once, beside its value, and the values ascend. */
  lemma {:induction false} SortPairsFacts<T(!new)>(leq: Order<T>, slice: seq<T>, n: nat)
    requires TotalOrder(leq) && n <= |slice|
    ensures Sorted(leq, SortPairs(leq, slice, n)) && Numbered(slice, SortPairs(leq, slice, n), n)
  {
    if n > 0 {
      SortPairsFacts(leq, slice, n - 1);
      var u, x := SortPairs(leq, slice, n - 1), (slice[n - 1], n - 1);
      InsertKeepsSorted(leq, x, u);
      var m := InsertedAt(leq, x, u);
      NumberedNext(slice, u, SortPairs(leq, slice, n), n - 1, m);
    }
  }

  function Keys<T>(v: seq<(T, nat)>): seq<T> { seq(|v|, k requires 0 <= k < |v| => v[k].0) }

  function Positions<T>(v: seq<(T, nat)>): seq<nat> { seq(|v|, k requires 0 <= k < |v| => v[k].1) }

  /** Each result is at the position recorded beside its value. */
  ghost predicate PutBack<T, U>(v: seq<(T, nat)>, out: seq<U>, r: seq<U>) {
    |v| == |out| == |r| && forall k :: 0 <= k < |v| ==> v[k].1 < |r| && r[v[k].1] == out[k]
  }

  method Restore<T, U(0)>(vec: seq<(T, nat)>, out: seq<U>) returns (r: seq<U>)
    requires |out| == |vec| && IsPermutation(Positions(vec))
    ensures PutBack(vec, out, r)
  {
    var a := new U[|out|](k requires 0 <= k < |out| => out[k]);
    var indices := new nat[|vec|](k requires 0 <= k < |vec| => vec[k].1);
    assert indices[..] == Positions(vec);
    ghost var p := indices[..];
    Reorder(a, indices);
    r := a[..];
    forall k | 0 <= k < |vec| ensures vec[k].1 < |r| && r[vec[k].1] == out[k] {
      assert p[k] == vec[k].1;
    }
  }

  /** `extract` finds a slice inside a result, and `put` stores another one of the same length there. */
  ghost predicate Slot<R(!new), U(!new)>(extract: R -> seq<U>, put: (R, seq<U>) -> R) {
    forall r, s :: |s| == |extract(r)| ==> extract(put(r, s)) == s
  }

  /** with_ordered_elems: the handler sees the values in ascending order, and in the slice extracted from its
      result each entry comes back at its value's own position, duplicates included. */
  method WithOrderedElems<T(!new), U(0, !new), R(!new), E>(
    slice: seq<T>, leq: Order<T>, extract: R -> seq<U>, put: (R, seq<U>) -> R, handle: seq<T> -> Result<R, E>)
    returns (r: Result<R, E>)
    requires TotalOrder(leq) && Slot(extract, put)
    requires forall s: seq<T> :: handle(s).Ok? ==> |extract(handle(s).value)| == |s|
    ensures var v := SortPairs(leq, slice, |slice|);
            && Sorted(leq, v) && Numbered(slice, v, |slice|)
            && match handle(Keys(v))
               case Err(e) => r == Err(e)
               case Ok(res) =>
                 r.Ok? && PutBack(v, extract(res), extract(r.value)) && r.value == put(res, extract(r.value))
  {
    var vec := SortPairs(leq, slice, |slice|);
    SortPairsFacts(leq, slice, |slice|);
    var result := handle(Keys(vec));
    if result.Err? { return Err(result.error); }
    var back := Restore(vec, extract(result.value));
    return Ok(put(result.value, back));
  }

  lemma {:induction false} Covers<T>(v: seq<(T, nat)>, n: nat, i: nat) returns (k: nat)
    requires |v| == n && i < n && forall k :: 0 <= k < n ==> v[k].1 < n
    requires forall j, k :: 0 <= j < k < n ==> v[j].1 != v[k].1
    ensures k < n && v[k].1 == i
    decreases n
  {
    if v[n - 1].1 == i { return n - 1; }
    var last := v[n - 1].1;
    // Rename the largest position to the one freed by dropping the last pair.
    var w := seq(n - 1, k requires 0 <= k < n - 1 => (v[k].0, if v[k].1 == n - 1 then last else v[k].1));
    if i == n - 1 {
      k := Covers(w, n - 1, last);
    } else {
      k := Covers(w, n - 1, i);
    }
  }

  function Mapped<T, U>(h: T -> U, s: seq<T>): (r: seq<U>)
    ensures |r| == |s|
  {
    seq(|s|, i requires 0 <= i < |s| => h(s[i]))
  }

  /** With a handler that works value by value, the result is the handler mapped over the unsorted input. */
  lemma {:induction false} PointwiseHandler<T(!new), U>(leq: Order<T>, slice: seq<T>, h: T -> U, v: seq<(T, nat)>,
                                                        r: seq<U>)
    requires TotalOrder(leq) && v == SortPairs(leq, slice, |slice|) && PutBack(v, Mapped(h, Keys(v)), r)
    ensures r == Mapped(h, slice)
  {
    SortPairsFacts(leq, slice, |slice|);
    assert Numbered(slice, v, |slice|);
    MappedBack(slice, h, v, r);
  }

  lemma {:induction false} MappedBack<T, U>(slice: seq<T>, h: T -> U, v: seq<(T, nat)>, r: seq<U>)
    requires Numbered(slice, v, |slice|) && PutBack(v, Mapped(h, Keys(v)), r)
    ensures r == Mapped(h, slice)
  {
    var out := Mapped(h, Keys(v));
    forall i | 0 <= i < |slice| ensures r[i] == h(slice[i]) {
      var k := Covers(v, |slice|, i);
      assert r[v[k].1] == out[k] == h(Keys(v)[k]);
    }
  }

  /** with_ordered_elems with such a handler: sorting and reordering cancel out. */
  method WithPointwiseHandler<T(!new), U(0, !new), E>(slice: seq<T>, leq: Order<T>, h: T -> U)
    returns (r: Result<seq<U>, E>)
    requires TotalOrder(leq)
    ensures r == Ok(Mapped(h, slice))
  {
    r := WithOrderedElems(slice, leq, (x: seq<U>) => x, (_, s: seq<U>) => s, s => Ok(Mapped(h, s)));
    PointwiseHandler(leq, slice, h, SortPairs(leq, slice, |slice|), r.value);
  }
}
