/**
  The slab allocation collector, user side (mem/slab_rate/user.c): snapshots of the per-CPU hash, the rows of
  one window as differences of two snapshots, and the hand-over to the next window.
*/
module SlabUser {
  import opened Wrappers
  import opened PerCpu
  import opened Slab
  import Bits

  const ENOENT: int := 2
  const E2BIG: int := 7

  datatype Sample = Sample(key: Key, total: Info)
  datatype Row = Row(key: Key, countDelta: nat, bytesDelta: nat)

  /** One step of the walk over the hash: the key, and the lookup of its copies (or its error number). */
  datatype Read = Read(key: Key, copies: Result<seq<Info>, int>)

  /** The copies of one key added up, in 64 bits for the bytes. */
  function Added(copies: seq<Info>): Info {
    if copies == [] then Info(0, 0)
    else
      var a, x := Added(copies[..|copies| - 1]), copies[|copies| - 1];
      Info(a.count + x.count, (a.bytes + x.bytes) % U64)
  }

  /** The samples of the first n reads, or the error that ends the walk. */
  function Collected(walk: seq<Read>, n: nat): (r: Result<seq<Sample>, int>)
    requires n <= |walk|
    ensures r.Ok? ==> |r.value| <= MAX_ENTRIES
  {
    if n == 0 then Ok([])
    else
      var p := Collected(walk, n - 1);
      if p.Err? then p
      else match walk[n - 1].copies
        case Ok(copies) =>
          if |p.value| >= MAX_ENTRIES then Err(-E2BIG) else Ok(p.value + [Sample(walk[n - 1].key, Added(copies))])
        case Err(errno) => if errno == ENOENT then p else Err(-errno)
  }

  /** The first sample of k from index i on. */
  function LookupFrom(samples: seq<Sample>, i: nat, k: Key): Option<Info>
    requires i <= |samples|
    decreases |samples| - i
  {
    if i == |samples| then None
    else if samples[i].key == k then Some(samples[i].total)
    else LookupFrom(samples, i + 1, k)
  }

  function Lookup(samples: seq<Sample>, k: Key): Option<Info> { LookupFrom(samples, 0, k) }

  /** The value a comparison uses: zero for a key that is absent. */
  function OrZero(x: Option<Info>): Info { if x.Some? then x.value else Info(0, 0) }

  function At(samples: seq<Sample>, k: Key): Info { OrZero(Lookup(samples, k)) }

  /** A row for each sample that has grown. */
  function RowOf(old_: Info, x: Sample): seq<Row> {
    if x.total.count < old_.count || x.total.bytes < old_.bytes || x.total.count == old_.count then []
    else [Row(x.key, x.total.count - old_.count, x.total.bytes - old_.bytes)]
  }

  function Rows(previous: seq<Sample>, current: seq<Sample>): (r: seq<Row>)
    ensures |r| <= |current|
  {
    if current == [] then []
    else
      var n := |current| - 1;
      Rows(previous, current[..n]) + RowOf(At(previous, current[n].key), current[n])
  }

  lemma {:induction false} RowsNext(previous: seq<Sample>, current: seq<Sample>, i: nat)
    requires i < |current|
    ensures Rows(previous, current[..i + 1])
            == Rows(previous, current[..i]) + RowOf(At(previous, current[i].key), current[i])
  {
    assert current[..i + 1][..i] == current[..i];
  }

  // ---------------------------------------------------------------- the loops as they run

  class Reporter {
    const previous: array<Sample>
    const current: array<Sample>
    const rows: array<Row>
    var previousCount: nat
    var rowCount: nat

    ghost predicate Valid()
      reads this
    {
      && previous.Length == current.Length == rows.Length == MAX_ENTRIES
      && previous != current
      && previousCount <= MAX_ENTRIES && rowCount <= MAX_ENTRIES
    }

    /** The snapshot that the next window is compared with. */
    ghost function Snapshot(): seq<Sample>
      requires Valid()
      reads this, previous
    {
      previous[..previousCount]
    }

    ghost function Report(): seq<Row>
      requires Valid()
      reads this, rows
    {
      rows[..rowCount]
    }

    constructor ()
      ensures Valid() && Snapshot() == [] && Report() == [] && fresh(previous) && fresh(current) && fresh(rows)
    {
      previous := new Sample[MAX_ENTRIES](i => Sample(Key(0, NAMED_CACHE, ""), Info(0, 0)));
      current := new Sample[MAX_ENTRIES](i => Sample(Key(0, NAMED_CACHE, ""), Info(0, 0)));
      rows := new Row[MAX_ENTRIES](i => Row(Key(0, NAMED_CACHE, ""), 0, 0));
      previousCount, rowCount := 0, 0;
    }

    /** find_previous */
    method FindPrevious(key: Key) returns (r: Option<Info>)
      requires Valid()
      ensures r == Lookup(Snapshot(), key)
    {
      var i := 0;
      while i < previousCount
        invariant 0 <= i <= previousCount
        invariant Lookup(Snapshot(), key) == LookupFrom(Snapshot(), i, key)
      {
        if previous[i].key == key { return Some(previous[i].total); }
        i := i + 1;
      }
      return None;
    }

    /** The inner loop of collect_samples: add up the copies of one key. */
    method AddCopies(copies: seq<Info>) returns (total: Info)
      ensures total == Added(copies)
    {
      total := Info(0, 0);
      var cpu := 0;
      while cpu < |copies|
        invariant 0 <= cpu <= |copies| && total == Added(copies[..cpu])
      {
        assert copies[..cpu + 1][..cpu] == copies[..cpu];
        total := Info(total.count + copies[cpu].count, (total.bytes + copies[cpu].bytes) % U64);
        cpu := cpu + 1;
      }
      assert copies[..cpu] == copies;
    }

    /** collect_samples; last is the error number that ends the walk over the keys. */
    method CollectSamples(walk: seq<Read>, last: int) returns (r: Result<nat, int>)
      requires Valid()
      modifies current
      ensures var c := Collected(walk, |walk|);
              if c.Err? then r == Err(c.error)
              else if last != ENOENT then r == Err(-last)
              else r == Ok(|c.value|) && current[..|c.value|] == c.value
    {
      var count, i := 0, 0;
      while i < |walk|
        invariant 0 <= i <= |walk| && count <= MAX_ENTRIES
        invariant Collected(walk, i) == Ok(current[..count])
      {
        match walk[i].copies {
          case Ok(copies) =>
            var total := AddCopies(copies);
            if count >= MAX_ENTRIES {
              ErrorStays(walk, i + 1);
              return Err(-E2BIG);
            }
            ghost var before := current[..count];
            current[count] := Sample(walk[i].key, total);
            count := count + 1;
            assert current[..count] == before + [Sample(walk[i].key, total)];
          case Err(errno) =>
            if errno != ENOENT {
              ErrorStays(walk, i + 1);
              return Err(-errno);
            }
        }
        i := i + 1;
      }
      if last != ENOENT { return Err(-last); }
      return Ok(count);
    }

    /** One pass of the loop over the samples: a row for a key that has grown. */
    method AddRow(x: Sample, was: Info)
      requires Valid() && rowCount < MAX_ENTRIES
      modifies rows, this`rowCount
      ensures Valid() && Report() == old(Report()) + RowOf(was, x)
    {
      if x.total.count < was.count || x.total.bytes < was.bytes { return; }
      if x.total.count == was.count { return; }
      rows[rowCount] := Row(x.key, x.total.count - was.count, x.total.bytes - was.bytes);
      rowCount := rowCount + 1;
    }

    /** The rows of print_interval. */
    method ComputeRows(n: nat)
      requires Valid() && n <= MAX_ENTRIES
      modifies rows, this`rowCount
      ensures Valid() && Report() == Rows(Snapshot(), current[..n])
    {
      rowCount := 0;
      ghost var prev, cur := Snapshot(), current[..n];
      var i := 0;
      while i < n
        invariant 0 <= i <= n && Valid() && Snapshot() == prev && rowCount <= i
        invariant Report() == Rows(prev, cur[..i])
      {
        var found := FindPrevious(current[i].key);
        RowsNext(prev, cur, i);
        AddRow(current[i], if found.Some? then found.value else Info(0, 0));
        i := i + 1;
      }
      assert cur[..n] == cur;
    }

    /** The hand-over of print_interval: current becomes previous. */
    method HandOver(n: nat)
      requires Valid() && n <= MAX_ENTRIES
      modifies previous, this`previousCount
      ensures Valid() && Snapshot() == current[..n]
    {
      forall i | 0 <= i < n { previous[i] := current[i]; }
      previousCount := n;
    }

    /** print_interval */
    method PrintInterval(intervalNs: nat, walk: seq<Read>, last: int) returns (err: int)
      requires Valid()
      modifies this, previous, current, rows
      ensures Valid()
      ensures var w := Window(intervalNs, walk, last);
              && Snapshot() == After(old(Snapshot()), w)
              && (if Skipped(w) then Report() == old(Report()) else Report() == WindowRows(old(Snapshot()), w))
              && err == Outcome(w)
    {
      if intervalNs == 0 { return 0; }
      var r := CollectSamples(walk, last);
      if r.Err? { return r.error; }
      ComputeRows(r.value);
      HandOver(r.value);
      return 0;
    }
  }

  lemma {:induction false} ErrorStays(walk: seq<Read>, i: nat)
    requires i <= |walk| && Collected(walk, i).Err?
    ensures Collected(walk, |walk|) == Collected(walk, i)
    decreases |walk| - i
  {
    if i < |walk| { ErrorStays(walk, i + 1); }
  }

  // ---------------------------------------------------------------- windows telescope

  datatype Window = Window(intervalNs: nat, walk: seq<Read>, last: int)

  /** No time has passed, or the walk over the hash failed: no rows, and the previous snapshot stays. */
  predicate Skipped(w: Window) { w.intervalNs == 0 || w.last != ENOENT || Collected(w.walk, |w.walk|).Err? }

  /** What print_interval returns: 0, or the error of the walk. */
  function Outcome(w: Window): int {
    var c := Collected(w.walk, |w.walk|);
    if w.intervalNs == 0 then 0 else if c.Err? then c.error else if w.last != ENOENT then -w.last else 0
  }

  function Taken(w: Window): seq<Sample>
    requires !Skipped(w)
  {
    Collected(w.walk, |w.walk|).value
  }

  function After(previous: seq<Sample>, w: Window): seq<Sample> { if Skipped(w) then previous else Taken(w) }

  function WindowRows(previous: seq<Sample>, w: Window): seq<Row> {
    if Skipped(w) then [] else Rows(previous, Taken(w))
  }

  /** The snapshots kept over a series of windows: none at first, then what each window hands over. */
  ghost predicate Chain(ws: seq<Window>, held: seq<seq<Sample>>) {
    && |held| == |ws| + 1 && held[0] == []
    && forall i :: 0 <= i < |ws| ==> Handed(ws, held, i)
  }

  /** Window i turns its snapshot into the next. */
  ghost predicate Handed(ws: seq<Window>, held: seq<seq<Sample>>, i: nat)
    requires i < |ws| < |held|
  {
    held[i + 1] == After(held[i], ws[i])
  }

  /** A walk over the hash visits each key once: keys are never removed while it goes on. */
  ghost predicate OnceWalk(walk: seq<Read>) {
    forall i, j :: 0 <= i < j < |walk| ==> walk[i].key != walk[j].key
  }

  ghost predicate OnceWalks(ws: seq<Window>) { forall i :: 0 <= i < |ws| ==> OnceWalk(ws[i].walk) }

  /** The copies of k that the first n reads of a walk found. */
  function Found(walk: seq<Read>, n: nat, k: Key): Option<seq<Info>>
    requires n <= |walk|
  {
    if n == 0 then None
    else if Found(walk, n - 1, k).Some? then Found(walk, n - 1, k)
    else if walk[n - 1].key == k && walk[n - 1].copies.Ok? then Some(walk[n - 1].copies.value)
    else None
  }

  /** The samples hold what the walk found. */
  lemma {:induction false} CollectedFound(walk: seq<Read>, n: nat, k: Key)
    requires n <= |walk| && Collected(walk, n).Ok?
    ensures Lookup(Collected(walk, n).value, k)
            == match Found(walk, n, k) case None => None case Some(copies) => Some(Added(copies))
  {
    if n > 0 {
      CollectedFound(walk, n - 1, k);
      if walk[n - 1].copies.Ok? {
        LookupAppend(Collected(walk, n - 1).value, 0, Sample(walk[n - 1].key, Added(walk[n - 1].copies.value)), k);
      }
    }
  }

  /** The reads among the first n that found their key. */
  function Hits(walk: seq<Read>, n: nat): nat
    requires n <= |walk|
  {
    if n == 0 then 0 else Hits(walk, n - 1) + if walk[n - 1].copies.Ok? then 1 else 0
  }

  /** A walk succeeds iff every lookup that fails does so because the key is gone, and the samples fit. */
  lemma {:induction false} WalkOkIff(walk: seq<Read>, n: nat)
    requires n <= |walk|
    ensures Collected(walk, n).Ok? <==>
            Hits(walk, n) <= 1024 && forall i :: 0 <= i < n && walk[i].copies.Err? ==> walk[i].copies.error == 2
    ensures Collected(walk, n).Ok? ==> |Collected(walk, n).value| == Hits(walk, n)
  {
    if n > 0 { WalkOkIff(walk, n - 1); }
  }

  /** Otherwise the first lookup that fails in another way, or the first sample too many, gives the error. */
  lemma {:induction false} WalkError(walk: seq<Read>, n: nat) returns (i: nat)
    requires n <= |walk| && Collected(walk, n).Err?
    ensures i < n && Collected(walk, i).Ok?
    ensures match walk[i].copies
            case Ok(_) => Hits(walk, i) == 1024 && Collected(walk, n) == Err(-7)
            case Err(errno) => errno != 2 && Collected(walk, n) == Err(-errno)
  {
    if Collected(walk, n - 1).Err? {
      i := WalkError(walk, n - 1);
    } else {
      i := n - 1;
      WalkOkIff(walk, n - 1);
    }
  }

  /** A window is skipped iff no time has passed or its walk did not get through; only the latter is an error. */
  lemma {:induction false} SkippedIff(w: Window)
    ensures Skipped(w) <==> w.intervalNs == 0 || w.last != 2 || Collected(w.walk, |w.walk|).Err?
    ensures w.intervalNs == 0 || !Skipped(w) ==> Outcome(w) == 0
    ensures w.intervalNs != 0 && Collected(w.walk, |w.walk|).Err? ==> Outcome(w) == Collected(w.walk, |w.walk|).error
    ensures w.intervalNs != 0 && Collected(w.walk, |w.walk|).Ok? && w.last != 2 ==> Outcome(w) == -w.last
  {
  }

  /** Every sample comes from a read of its key. */
  lemma {:induction false} CollectedFrom(walk: seq<Read>, n: nat, i: nat) returns (j: nat)
    requires n <= |walk| && Collected(walk, n).Ok? && i < |Collected(walk, n).value|
    ensures j < n && Collected(walk, n).value[i].key == walk[j].key
  {
    if i < |Collected(walk, n - 1).value| {
      j := CollectedFrom(walk, n - 1, i);
    } else {
      j := n - 1;
    }
  }

  lemma {:induction false} CollectedOnce(walk: seq<Read>, n: nat)
    requires n <= |walk| && OnceWalk(walk) && Collected(walk, n).Ok?
    ensures Once(Collected(walk, n).value)
  {
    if n > 0 {
      CollectedOnce(walk, n - 1);
      var before := Collected(walk, n - 1).value;
      forall i | 0 <= i < |before| ensures before[i].key != walk[n - 1].key {
        var j := CollectedFrom(walk, n - 1, i);
      }
    }
  }

  /** Counts and bytes reported. */
  datatype Growth = Growth(count: int, bytes: int)

  function Plus(a: Growth, b: Growth): Growth { Growth(a.count + b.count, a.bytes + b.bytes) }

  /** What rows report about k. */
  function Reported(rows: seq<Row>, k: Key): Growth {
    if rows == [] then Growth(0, 0)
    else
      var x := rows[|rows| - 1];
      Plus(Reported(rows[..|rows| - 1], k), if x.key == k then Growth(x.countDelta, x.bytesDelta) else Growth(0, 0))
  }

  function Sum(gs: seq<Growth>, n: nat): Growth
    requires n <= |gs|
  {
    if n == 0 then Growth(0, 0) else Plus(Sum(gs, n - 1), gs[n - 1])
  }

  /** What each window reports about k, and all of them together. */
  function Reports(ws: seq<Window>, held: seq<seq<Sample>>, k: Key): seq<Growth>
    requires |ws| < |held|
  {
    seq(|ws|, i requires 0 <= i < |ws| => Reported(WindowRows(held[i], ws[i]), k))
  }

  function ReportedBy(ws: seq<Window>, held: seq<seq<Sample>>, k: Key): Growth
    requires |ws| < |held|
  {
    Sum(Reports(ws, held, k), |ws|)
  }

  ghost predicate Once(samples: seq<Sample>) {
    forall i, j :: 0 <= i < j < |samples| ==> samples[i].key != samples[j].key
  }

  /** How far a value has grown since o; nothing if its count or bytes fell. */
  function Grown(o: Info, x: Info): Growth {
    if x.count < o.count || x.bytes < o.bytes || x.count == o.count then Growth(0, 0)
    else Growth(x.count - o.count, x.bytes - o.bytes)
  }

  lemma {:induction false} ReportedRow(rows: seq<Row>, o: Info, x: Sample, k: Key)
    ensures Reported(rows + RowOf(o, x), k)
            == Plus(Reported(rows, k), if x.key == k then Grown(o, x.total) else Growth(0, 0))
  {
    var row := RowOf(o, x);
    if row == [] {
      assert rows + row == rows;
    } else {
      assert (rows + row)[..|rows|] == rows;
    }
  }

  lemma {:induction false} LookupNone(samples: seq<Sample>, i: nat, k: Key)
    requires i <= |samples|
    ensures LookupFrom(samples, i, k).None? <==> forall j :: i <= j < |samples| ==> samples[j].key != k
    decreases |samples| - i
  {
    if i < |samples| { LookupNone(samples, i + 1, k); }
  }

  lemma {:induction false} LookupAppend(samples: seq<Sample>, i: nat, x: Sample, k: Key)
    requires i <= |samples|
    ensures LookupFrom(samples + [x], i, k) == if LookupFrom(samples, i, k).Some? then LookupFrom(samples, i, k)
                                               else if x.key == k then Some(x.total) else None
    decreases |samples| - i
  {
    if i < |samples| {
      LookupAppend(samples, i + 1, x, k);
    } else {
      assert LookupFrom(samples + [x], i + 1, k) == None;
    }
  }

  /** The rows of a window report, for k, exactly how far k has grown. */
  lemma {:induction false} RowsReport(previous: seq<Sample>, current: seq<Sample>, k: Key)
    requires Once(current)
    ensures Reported(Rows(previous, current), k) == Grown(At(previous, k), At(current, k))
  {
    if current != [] {
      var n := |current| - 1;
      var init, x := current[..n], current[n];
      assert current == init + [x];
      RowsReport(previous, init, k);
      LookupAppend(init, 0, x, k);
      LookupNone(init, 0, k);
      ReportedRow(Rows(previous, init), At(previous, x.key), x, k);
    }
  }

  lemma {:induction false} WindowReports(previous: seq<Sample>, w: Window, k: Key)
    requires OnceWalk(w.walk)
    ensures Reported(WindowRows(previous, w), k) == Grown(At(previous, k), At(After(previous, w), k))
  {
    if !Skipped(w) {
      CollectedOnce(w.walk, |w.walk|);
      RowsReport(previous, Taken(w), k);
    }
  }

  /** The values of k in the snapshots. */
  ghost function Values(held: seq<seq<Sample>>, k: Key): (vals: seq<Info>)
    ensures |vals| == |held| && forall i :: 0 <= i < |held| ==> vals[i] == At(held[i], k)
  {
    seq(|held|, i requires 0 <= i < |held| => At(held[i], k))
  }

  /** How far the value grows from each snapshot to the next. */
  function Differences(vals: seq<Info>): seq<Growth>
    requires |vals| > 0
  {
    seq(|vals| - 1, i requires 0 <= i < |vals| - 1 => Grown(vals[i], vals[i + 1]))
  }

  /** The windows report exactly the differences of the snapshots. */
  lemma {:induction false} ReportsAreDifferences(ws: seq<Window>, held: seq<seq<Sample>>, k: Key)
    requires Chain(ws, held) && OnceWalks(ws)
    ensures Reports(ws, held, k) == Differences(Values(held, k))
  {
    var a, b := Reports(ws, held, k), Differences(Values(held, k));
    forall i | 0 <= i < |ws| ensures a[i] == b[i] {
      assert Handed(ws, held, i);
      WindowReports(held[i], ws[i], k);
    }
  }

  /** In step i the count grows, and the bytes change only when the count does. */
  predicate SteadyAt(vals: seq<Info>, i: nat)
    requires i + 1 < |vals|
  {
    vals[i].count <= vals[i + 1].count && (vals[i].count == vals[i + 1].count ==> vals[i] == vals[i + 1])
  }

  ghost predicate Steady(vals: seq<Info>, n: nat)
    requires n < |vals|
  {
    vals[0] == Info(0, 0) && forall i :: 0 <= i < n ==> SteadyAt(vals, i)
  }

  /** The 64-bit byte sum wrapped around in step i. */
  predicate FallsAt(vals: seq<Info>, i: nat)
    requires i + 1 < |vals|
  {
    vals[i + 1].bytes < vals[i].bytes
  }

  ghost predicate Falls(vals: seq<Info>, n: nat)
    requires n < |vals|
  {
    exists i :: 0 <= i < n && FallsAt(vals, i)
  }

  /** The differences add up to the last value, for counts and for bytes, if and only if the byte sum never
      fell; otherwise counts are lost and bytes reported twice. */
  lemma {:induction false} DifferencesTelescope(vals: seq<Info>, n: nat)
    requires n < |vals| && Steady(vals, n)
    ensures var r := Sum(Differences(vals), n);
            && r.count <= vals[n].count && r.bytes >= vals[n].bytes
            && (r.count == vals[n].count <==> !Falls(vals, n)) && (r.bytes == vals[n].bytes <==> !Falls(vals, n))
  {
    if n > 0 {
      DifferencesTelescope(vals, n - 1);
      assert SteadyAt(vals, n - 1);
      assert Falls(vals, n) <==> Falls(vals, n - 1) || FallsAt(vals, n - 1);
    }
  }

  /** Over any number of windows, skipped ones included, what is reported for k adds up to its last snapshot if
      and only if its byte sum never fell between snapshots. */
  lemma {:induction false} Telescopes(ws: seq<Window>, held: seq<seq<Sample>>, k: Key)
    requires Chain(ws, held) && OnceWalks(ws) && Steady(Values(held, k), |ws|)
    ensures var r, x, fell := ReportedBy(ws, held, k), At(held[|ws|], k), Falls(Values(held, k), |ws|);
            (r.count == x.count <==> !fell) && (r.bytes == x.bytes <==> !fell)
  {
    ReportsAreDifferences(ws, held, k);
    DifferencesTelescope(Values(held, k), |ws|);
  }

  // ---------------------------------------------------------------- from allocations to the reports

  lemma {:induction false} PricedSum(a: nat, x: nat, size: nat, m: nat)
    requires m > 0
    ensures (a * size % m + x * size % m) % m == (a + x) * size % m
  {
    AddMod(a * size, x * size, m);
    Regroup(a, x, size);
  }

  lemma {:induction false} PricedStep(a: Info, x: Info, size: nat)
    requires a.bytes == a.count * size % U64 && x.bytes == x.count * size % U64
    ensures (a.bytes + x.bytes) % U64 == (a.count + x.count) * size % U64
  {
    PricedSum(a.count, x.count, size, U64);
  }

  /** Added copies: the total count, and bytes that are count times size. */
  lemma {:induction false} AddedTotals(copies: seq<Info>, size: nat)
    requires forall i :: 0 <= i < |copies| ==> copies[i].bytes == copies[i].count * size % U64
    ensures Added(copies).count == Total(copies, Counted)
    ensures Added(copies).bytes == Added(copies).count * size % U64
  {
    if copies != [] {
      var n := |copies| - 1;
      AddedTotals(copies[..n], size);
      PricedStep(Added(copies[..n]), copies[n], size);
    }
  }

  /** What a read of k finds in a state of the kernel: nothing, or the sum of its copies. */
  ghost function Observed(s: State, k: Key): Info { if k in s.entries then Added(s.entries[k]) else Info(0, 0) }

  lemma {:induction false} ObservedIs(c: Ctrl, cpus: nat, tr: Trace, n: nat, k: Key)
    requires n <= |tr| && OnCpus(tr, cpus)
    ensures Observed(RunTo(c, cpus, tr, n), k).count == Allocations(c, cpus, tr, n, k)
    ensures Observed(RunTo(c, cpus, tr, n), k).bytes == Allocations(c, cpus, tr, n, k) * k.allocSize % U64
  {
    var s := RunTo(c, cpus, tr, n);
    AlwaysPriced(c, cpus, tr, n);
    CountIsAllocations(c, cpus, tr, n, k);
    if k in s.entries {
      AddedTotals(s.entries[k], k.allocSize);
    }
  }

  /** What the walk finds for k is what the kernel held at moment t of the run. */
  ghost predicate ReadAt(c: Ctrl, cpus: nat, tr: Trace, t: nat, walk: seq<Read>, k: Key)
    requires OnCpus(tr, cpus)
  {
    t <= |tr| && Found(walk, |walk|, k) == var m := RunTo(c, cpus, tr, t).entries; if k in m then Some(m[k]) else None
  }

  /** Windows over a kernel run: each walk reads k at a moment of the run, later ones later; a skipped window
      reads nothing. */
  ghost predicate Watches(c: Ctrl, cpus: nat, tr: Trace, ws: seq<Window>, times: seq<nat>, k: Key)
    requires OnCpus(tr, cpus)
  {
    && OnceWalks(ws) && |times| == |ws| + 1 && times[0] == 0
    && (forall i, j :: 0 <= i <= j < |times| ==> times[i] <= times[j] <= |tr|)
    && (forall i :: 0 <= i < |ws| ==> WatchedBy(c, cpus, tr, ws[i], times, i, k))
  }

  ghost predicate WatchedBy(c: Ctrl, cpus: nat, tr: Trace, w: Window, times: seq<nat>, i: nat, k: Key)
    requires OnCpus(tr, cpus) && i + 1 < |times|
  {
    if Skipped(w) then times[i + 1] == times[i] else ReadAt(c, cpus, tr, times[i + 1], w.walk, k)
  }

  /** In this snapshot k has the value it had at moment t of the run. */
  ghost predicate WatchedAt(c: Ctrl, cpus: nat, tr: Trace, t: nat, samples: seq<Sample>, k: Key)
    requires OnCpus(tr, cpus)
  {
    t <= |tr| && At(samples, k) == Observed(RunTo(c, cpus, tr, t), k)
  }

  lemma {:induction false} WalkWatches(c: Ctrl, cpus: nat, tr: Trace, t: nat, w: Window, k: Key)
    requires OnCpus(tr, cpus) && !Skipped(w) && ReadAt(c, cpus, tr, t, w.walk, k)
    ensures WatchedAt(c, cpus, tr, t, Taken(w), k)
  {
    CollectedFound(w.walk, |w.walk|, k);
  }

  /** The snapshots show the kernel's values at the moments of the reads. */
  lemma {:induction false} SnapshotsWatch(c: Ctrl, cpus: nat, tr: Trace, ws: seq<Window>, held: seq<seq<Sample>>,
                                          times: seq<nat>, k: Key, i: nat)
    requires OnCpus(tr, cpus) && Chain(ws, held) && Watches(c, cpus, tr, ws, times, k) && i <= |ws|
    ensures WatchedAt(c, cpus, tr, times[i], held[i], k)
  {
    if i > 0 {
      SnapshotsWatch(c, cpus, tr, ws, held, times, k, i - 1);
      assert Handed(ws, held, i - 1) && WatchedBy(c, cpus, tr, ws[i - 1], times, i - 1, k);
      if !Skipped(ws[i - 1]) { WalkWatches(c, cpus, tr, times[i], ws[i - 1], k); }
    }
  }

  lemma {:induction false} NoWrap(m: nat, n: nat, size: nat)
    requires m <= n && n * size < U64
    ensures m * size % U64 == m * size <= n * size == n * size % U64
  {
    Bits.MulMono(m, n, size);
  }

  /** Between two reads a key grows by the allocations accounted to it; only a byte sum beyond 64 bits falls. */
  lemma {:induction false} ObservedStep(c: Ctrl, cpus: nat, tr: Trace, m: nat, n: nat, k: Key)
    requires m <= n <= |tr| && OnCpus(tr, cpus)
    ensures var o, x := Observed(RunTo(c, cpus, tr, m), k), Observed(RunTo(c, cpus, tr, n), k);
            && o.count <= x.count && (o.count == x.count ==> o == x)
            && (x.bytes < o.bytes ==> Allocations(c, cpus, tr, n, k) * k.allocSize >= U64)
  {
    ObservedIs(c, cpus, tr, m, k);
    ObservedIs(c, cpus, tr, n, k);
    AllocationsGrow(c, cpus, tr, m, n, k);
    if Allocations(c, cpus, tr, n, k) * k.allocSize < U64 {
      NoWrap(Allocations(c, cpus, tr, m, k), Allocations(c, cpus, tr, n, k), k.allocSize);
    }
  }

  lemma {:induction false} WatchedValues(c: Ctrl, cpus: nat, tr: Trace, ws: seq<Window>, held: seq<seq<Sample>>,
                                         times: seq<nat>, k: Key)
    requires OnCpus(tr, cpus) && Chain(ws, held) && Watches(c, cpus, tr, ws, times, k)
    ensures var n := |ws|;
            && Steady(Values(held, k), n) && times[n] <= |tr|
            && (Allocations(c, cpus, tr, times[n], k) * k.allocSize < U64 ==> !Falls(Values(held, k), n))
  {
    var vals, n := Values(held, k), |ws|;
    forall i | 0 <= i < n
      ensures SteadyAt(vals, i)
      ensures FallsAt(vals, i) ==> Allocations(c, cpus, tr, times[n], k) * k.allocSize >= U64
    {
      SnapshotsWatch(c, cpus, tr, ws, held, times, k, i);
      SnapshotsWatch(c, cpus, tr, ws, held, times, k, i + 1);
      ObservedStep(c, cpus, tr, times[i], times[i + 1], k);
      AllocationsGrow(c, cpus, tr, times[i + 1], times[n], k);
      Bits.MulMono(Allocations(c, cpus, tr, times[i + 1], k), Allocations(c, cpus, tr, times[n], k), k.allocSize);
    }
  }

  lemma {:induction false} LastValue(c: Ctrl, cpus: nat, tr: Trace, t: nat, samples: seq<Sample>, k: Key)
    requires OnCpus(tr, cpus) && t <= |tr| && WatchedAt(c, cpus, tr, t, samples, k)
    requires Allocations(c, cpus, tr, t, k) * k.allocSize < U64
    ensures At(samples, k).count == Allocations(c, cpus, tr, t, k)
    ensures At(samples, k).bytes == Allocations(c, cpus, tr, t, k) * k.allocSize
  {
    ObservedIs(c, cpus, tr, t, k);
    NoWrap(Allocations(c, cpus, tr, t, k), Allocations(c, cpus, tr, t, k), k.allocSize);
  }

  /** Nothing is lost or counted twice: the counts reported for k over all windows are exactly the allocations
      accounted to k up to the last read, and the bytes are that many times the size of k, as long as the bytes
      fit into 64 bits. */
  lemma {:induction false} ReportsAreAllocations(c: Ctrl, cpus: nat, tr: Trace, ws: seq<Window>, held: seq<seq<Sample>>,
                                                 times: seq<nat>, k: Key)
    requires OnCpus(tr, cpus) && Chain(ws, held) && Watches(c, cpus, tr, ws, times, k)
    requires times[|ws|] <= |tr| && Allocations(c, cpus, tr, times[|ws|], k) * k.allocSize < U64
    ensures ReportedBy(ws, held, k)
            == Growth(Allocations(c, cpus, tr, times[|ws|], k), Allocations(c, cpus, tr, times[|ws|], k) * k.allocSize)
  {
    WatchedValues(c, cpus, tr, ws, held, times, k);
    Telescopes(ws, held, k);
    SnapshotsWatch(c, cpus, tr, ws, held, times, k, |ws|);
    LastValue(c, cpus, tr, times[|ws|], held[|ws|], k);
  }

  // ---------------------------------------------------------------- a byte sum that wraps

  /** A window of one walk that reads one key. */
  function Glance(k: Key, x: Info): Window { Window(1, [Read(k, Ok([x]))], ENOENT) }

  lemma {:induction false} GlanceTakes(k: Key, x: Info)
    requires x.bytes < U64
    ensures var w := Glance(k, x); !Skipped(w) && Taken(w) == [Sample(k, x)] && At(Taken(w), k) == x && OnceWalk(w.walk)
  {
    var w := Glance(k, x);
    assert [x][..0] == [];
    assert Added([x]) == x;
    assert Collected(w.walk, 0) == Ok([]);
  }

  lemma {:induction false} TwoGlances(k: Key, x: Info, y: Info) returns (ws: seq<Window>, held: seq<seq<Sample>>)
    requires x.bytes < U64 && y.bytes < U64
    ensures ws == [Glance(k, x), Glance(k, y)] && Chain(ws, held) && OnceWalks(ws)
    ensures Values(held, k) == [Info(0, 0), x, y]
  {
    GlanceTakes(k, x);
    GlanceTakes(k, y);
    ws := [Glance(k, x), Glance(k, y)];
    held := [[], [Sample(k, x)], [Sample(k, y)]];
    assert Handed(ws, held, 0) && Handed(ws, held, 1);
  }

  /** A window in which the bytes fall reports nothing. */
  lemma {:induction false} TwoSteps(vals: seq<Info>, x: Info, y: Info)
    requires vals == [Info(0, 0), x, y] && 0 < x.count < y.count && y.bytes < x.bytes
    ensures Falls(vals, 2) && Sum(Differences(vals), 2) == Growth(x.count, x.bytes)
  {
    var d := Differences(vals);
    assert FallsAt(vals, 1);
    assert d[0] == Growth(x.count, x.bytes) && d[1] == Growth(0, 0);
    assert Sum(d, 1) == Plus(Sum(d, 0), d[0]) && Sum(d, 2) == Plus(Sum(d, 1), d[1]);
  }

  lemma {:induction false} GlancesLose(ws: seq<Window>, held: seq<seq<Sample>>, k: Key, x: Info, y: Info)
    requires Chain(ws, held) && OnceWalks(ws) && |ws| == 2 && Values(held, k) == [Info(0, 0), x, y]
    requires 0 < x.count < y.count && y.bytes < x.bytes
    ensures Falls(Values(held, k), 2) && ReportedBy(ws, held, k).count == x.count && At(held[2], k) == y
  {
    ReportsAreDifferences(ws, held, k);
    TwoSteps(Values(held, k), x, y);
    assert Values(held, k)[2] == y;
  }

  /** The nth object of `size` bytes is the first one with which the byte sum does not fit into 64 bits. */
  ghost predicate Overflows(size: nat, n: nat) { n >= 2 && (n - 1) * size < U64 <= n * size }

  /** There is one for every size. */
  lemma {:induction false} OverflowsAt(size: nat) returns (n: nat)
    requires 0 < size < U64
    ensures Overflows(size, n)
  {
    var q, r := (U64 - 1) / size, (U64 - 1) % size;
    assert U64 - 1 == q * size + r && q >= 1;
    n := q + 1;
    assert n * size == q * size + size;
  }

  lemma {:induction false} WrappedOnce(size: nat, n: nat)
    requires Overflows(size, n)
    ensures (n - 1) * size % U64 == (n - 1) * size
    ensures n * size % U64 == n * size - U64 < (n - 1) * size
  {
    assert n * size == (n - 1) * size + size;
    Bits.MulMono(1, n - 1, size);
    Wrapped(n * size);
  }

  lemma {:induction false} Wrapped(x: nat)
    requires U64 <= x < 2 * U64
    ensures x % U64 == x - U64
  {
  }

  /** An event that is accounted to k whenever there is room for it. */
  ghost predicate Accountable(c: Ctrl, e: Probe, k: Key) {
    c.enable && c.targetPid == 0 && e.ptr && e.inserted && e.cpu == 0 && IsKey(e, k)
  }

  /** The same allocation over and over on one CPU. */
  function Repeated(e: Probe, n: nat): Trace { seq(n, i => e) }

  lemma {:induction false} AccountableAt(c: Ctrl, tr: Trace, i: nat, k: Key)
    requires i < |tr| && OnCpus(tr, 1) && Accountable(c, tr[i], k)
    requires k in RunTo(c, 1, tr, i).entries || i == 0
    ensures AccountedTo(c, 1, tr, i, k)
  {
    if i == 0 { assert RunTo(c, 1, tr, i).entries.Keys == {}; }
  }

  lemma {:induction false} RepeatedAllocations(c: Ctrl, e: Probe, k: Key, n: nat, i: nat)
    requires Accountable(c, e, k) && i <= n && OnCpus(Repeated(e, n), 1)
    ensures Allocations(c, 1, Repeated(e, n), i, k) == i
    ensures i > 0 ==> k in RunTo(c, 1, Repeated(e, n), i).entries
  {
    if i > 0 {
      var tr, r := Repeated(e, n), i - 1;
      RepeatedAllocations(c, e, k, n, r);
      AccountableAt(c, tr, r, k);
      EntryNext(c, 1, tr, i, k);
    }
  }

  /** What one CPU holds for k is what a read of k finds. */
  lemma {:induction false} OneCopy(c: Ctrl, tr: Trace, n: nat, k: Key)
    requires OnCpus(tr, 1) && n <= |tr| && k in RunTo(c, 1, tr, n).entries
    ensures RunTo(c, 1, tr, n).entries[k] == [Observed(RunTo(c, 1, tr, n), k)]
  {
    var copies := RunTo(c, 1, tr, n).entries[k];
    AlwaysPriced(c, 1, tr, n);
    assert |copies| == 1 && copies[..0] == [] && copies[0].bytes < U64;
    assert Added(copies[..0]) == Info(0, 0);
  }

  /** At moment t of a run on one CPU, a read of k finds x. */
  ghost predicate Shows(c: Ctrl, tr: Trace, t: nat, k: Key, x: Info) {
    OnCpus(tr, 1) && t <= |tr| && k in RunTo(c, 1, tr, t).entries && Observed(RunTo(c, 1, tr, t), k) == x
  }

  lemma {:induction false} GlanceWatches(c: Ctrl, tr: Trace, t: nat, k: Key, x: Info)
    requires Shows(c, tr, t, k, x)
    ensures ReadAt(c, 1, tr, t, Glance(k, x).walk, k)
  {
    OneCopy(c, tr, t, k);
    var walk := Glance(k, x).walk;
    assert Found(walk, 0, k) == None;
  }

  /** Two such windows read k at moments a and b of a run on one CPU. */
  lemma {:induction false} GlancesWatch(c: Ctrl, tr: Trace, ws: seq<Window>, a: nat, b: nat, k: Key, x: Info, y: Info)
    requires a <= b && Shows(c, tr, a, k, x) && Shows(c, tr, b, k, y) && x.bytes < U64 && y.bytes < U64
    requires ws == [Glance(k, x), Glance(k, y)] && OnceWalks(ws)
    ensures Watches(c, 1, tr, ws, [0, a, b], k)
  {
    GlanceTakes(k, x);
    GlanceTakes(k, y);
    GlanceWatches(c, tr, a, k, x);
    GlanceWatches(c, tr, b, k, y);
    var times := [0, a, b];
    assert WatchedBy(c, 1, tr, ws[0], times, 0, k) && WatchedBy(c, 1, tr, ws[1], times, 1, k);
  }

  /** The excluded side of ReportsAreAllocations is reachable for every size of object: n allocations of the same kind
      on one CPU, read before and after the last one.  With that one the byte sum falls, the second window reports
      nothing, and one of the n allocations is lost for good. */
  lemma {:induction false} WrapLosesCounts(c: Ctrl, e: Probe, k: Key, n: nat)
    returns (ws: seq<Window>, held: seq<seq<Sample>>)
    requires Accountable(c, e, k) && Overflows(k.allocSize, n)
    ensures var tr := Repeated(e, n);
            && OnCpus(tr, 1) && Chain(ws, held) && |ws| == 2 && Watches(c, 1, tr, ws, [0, n - 1, n], k)
            && Allocations(c, 1, tr, n, k) == n && At(held[2], k).count == n
            && Falls(Values(held, k), 2) && ReportedBy(ws, held, k).count == n - 1
  {
    var x, y := WrapHappens(c, e, k, n);
    ws, held := TwoGlances(k, x, y);
    GlancesLose(ws, held, k, x, y);
    GlancesWatch(c, Repeated(e, n), ws, n - 1, n, k, x, y);
  }

  /** Counts and bytes before and after the allocation with which the sum wraps. */
  ghost predicate WrapPair(size: nat, n: nat, x: Info, y: Info) {
    && n > 0 && x == Info(n - 1, (n - 1) * size) && y.count == n && y.bytes == n * size - U64
    && y.bytes < x.bytes < U64
  }

  lemma {:induction false} WrapValues(size: nat, n: nat, x: Info, y: Info)
    requires Overflows(size, n) && x == Info(n - 1, (n - 1) * size % U64) && y == Info(n, n * size % U64)
    ensures WrapPair(size, n, x, y)
  {
    WrappedOnce(size, n);
  }

  /** What the kernel shows at those two moments. */
  lemma {:induction false} WrapHappens(c: Ctrl, e: Probe, k: Key, n: nat) returns (x: Info, y: Info)
    requires Accountable(c, e, k) && Overflows(k.allocSize, n)
    ensures var tr := Repeated(e, n);
            && Shows(c, tr, n - 1, k, x) && Shows(c, tr, n, k, y) && Allocations(c, 1, tr, n, k) == n
    ensures WrapPair(k.allocSize, n, x, y)
  {
    x := RepeatedObserved(c, e, k, n, n - 1);
    y := RepeatedObserved(c, e, k, n, n);
    WrapValues(k.allocSize, n, x, y);
  }

  lemma {:induction false} RepeatedObserved(c: Ctrl, e: Probe, k: Key, n: nat, i: nat) returns (x: Info)
    requires Accountable(c, e, k) && 0 < i <= n
    ensures x == Info(i, i * k.allocSize % U64)
    ensures var tr := Repeated(e, n); Shows(c, tr, i, k, x) && Allocations(c, 1, tr, i, k) == i
  {
    var tr := Repeated(e, n);
    RepeatedAllocations(c, e, k, n, i);
    ObservedIs(c, 1, tr, i, k);
    x := Observed(RunTo(c, 1, tr, i), k);
  }
}
