/**
  The slab allocation collector, kernel side (mem/slab_rate/slab_rate.bpf.c): four allocation handlers add to
  a per-CPU hash keyed by cache or size class, and to per-CPU health counters.
*/
module Slab {
  import opened Wrappers
  import opened PerCpu
  import Bits

  const U32: nat := 0x1_0000_0000
  const U64: nat := 0x1_0000_0000_0000_0000
  const MAX_ENTRIES: nat := 1024
  const CACHE_NAME_SIZE: nat := 48

  datatype Kind = NAMED_CACHE | KMALLOC | CACHE_SIZE

  datatype Key = Key(allocSize: nat, kind: Kind, name: string)

  /** Allocations and bytes of one key; the byte sum is a 64-bit register. */
  datatype Info = Info(count: nat, bytes: nat)

  datatype Stats = Stats(eventsSeen: nat, allocFailed: nat, filteredPid: nat, mapUpdateFailed: nat,
                         nameReadFailed: nat, sizeFallback: nat)

  datatype Ctrl = Ctrl(enable: bool, targetPid: int)

  /** One tracepoint hit; ptr says that the allocation succeeded, visible is the caller's TGID in the tool's
      PID namespace, inserted whether the hash would accept a new key. */
  datatype Probe =
    | CacheAlloc(cpu: nat, ptr: bool, visible: Option<int>, inserted: bool, bytes: nat,
                 accounted: bool, size: nat, name: Option<string>)
    | CacheAllocNode(cpu: nat, ptr: bool, visible: Option<int>, inserted: bool, bytes: nat)
    | Kmalloc(cpu: nat, ptr: bool, visible: Option<int>, inserted: bool, bytes: nat)
    | KmallocNode(cpu: nat, ptr: bool, visible: Option<int>, inserted: bool, bytes: nat)

  type Trace = seq<Probe>

  datatype State = State(entries: map<Key, seq<Info>>, stats: seq<Stats>)

  function Zero(cpus: nat): (r: seq<Info>)
    ensures |r| == cpus && forall i :: 0 <= i < cpus ==> r[i] == Info(0, 0)
  {
    seq(cpus, i => Info(0, 0))
  }

  /** Every key has one copy per CPU, and the hash never outgrows its capacity. */
  ghost predicate Shaped(s: State) {
    (forall k :: k in s.entries ==> |s.entries[k]| == |s.stats|) && |s.entries.Keys| <= MAX_ENTRIES
  }

  predicate PidMatches(c: Ctrl, visible: Option<int>) {
    c.targetPid == 0 || (visible.Some? && visible.value == c.targetPid % U32)
  }

  function Truncated(name: string): string {
    if |name| < CACHE_NAME_SIZE then name else name[..CACHE_NAME_SIZE - 1]
  }

  /** Kernels without a cache pointer fall back to size classes. */
  predicate FallsBack(e: Probe) { e.CacheAllocNode? || (e.CacheAlloc? && !e.accounted) }

  /** The aggregation key; None if the cache name cannot be read. */
  function KeyOf(e: Probe): Option<Key> {
    if FallsBack(e) then Some(Key(e.bytes, CACHE_SIZE, ""))
    else if !e.CacheAlloc? then Some(Key(e.bytes, KMALLOC, ""))
    else if e.name.None? || e.name.value == "" then None
    else Some(Key(e.size, NAMED_CACHE, Truncated(e.name.value)))
  }

  /** The key has an entry, or gets one. */
  predicate Holds(entries: map<Key, seq<Info>>, inserted: bool, k: Key) {
    k in entries || (inserted && |entries.Keys| < MAX_ENTRIES)
  }

  /** The key an event is accounted to, if it gets that far. */
  function Accounts(c: Ctrl, s: State, e: Probe): Option<Key> {
    if c.enable && e.ptr && PidMatches(c, e.visible) && KeyOf(e).Some? && Holds(s.entries, e.inserted, KeyOf(e).value)
    then KeyOf(e) else None
  }

  function Bump(x: Info, bytes: nat): Info { Info(x.count + 1, (x.bytes + bytes) % U64) }

  function Copies(entries: map<Key, seq<Info>>, cpus: nat, k: Key): seq<Info> {
    if k in entries then entries[k] else Zero(cpus)
  }

  /** account_alloc on CPU cpu. */
  function Account(entries: map<Key, seq<Info>>, cpus: nat, cpu: nat, k: Key): map<Key, seq<Info>>
    requires cpu < |Copies(entries, cpus, k)|
  {
    var copies := Copies(entries, cpus, k);
    entries[k := copies[cpu := Bump(copies[cpu], k.allocSize)]]
  }

  function StepStats(c: Ctrl, s: State, e: Probe): Stats
    requires e.cpu < |s.stats|
  {
    var st := s.stats[e.cpu];
    if !c.enable then st
    else
      var st := st.(eventsSeen := st.eventsSeen + 1);
      if !e.ptr then st.(allocFailed := st.allocFailed + 1)
      else if !PidMatches(c, e.visible) then st.(filteredPid := st.filteredPid + 1)
      else if KeyOf(e).None? then st.(nameReadFailed := st.nameReadFailed + 1)
      else st.(sizeFallback := st.sizeFallback + if FallsBack(e) then 1 else 0,
               mapUpdateFailed := st.mapUpdateFailed + if Accounts(c, s, e).None? then 1 else 0)
  }

  ghost function Step(c: Ctrl, s: State, e: Probe): State
    requires e.cpu < |s.stats| && Shaped(s)
  {
    State(if Accounts(c, s, e).None? then s.entries else Account(s.entries, |s.stats|, e.cpu, Accounts(c, s, e).value),
          s.stats[e.cpu := StepStats(c, s, e)])
  }

  lemma {:induction false} StepShaped(c: Ctrl, s: State, e: Probe)
    requires e.cpu < |s.stats| && Shaped(s)
    ensures Shaped(Step(c, s, e)) && |Step(c, s, e).stats| == |s.stats| && s.entries.Keys <= Step(c, s, e).entries.Keys
  {
    if Accounts(c, s, e).Some? {
      var k := Accounts(c, s, e).value;
      assert Step(c, s, e).entries.Keys == s.entries.Keys + {k};
      assert k in s.entries ==> s.entries.Keys + {k} == s.entries.Keys;
    }
  }

  function BlankStats(cpus: nat): (r: seq<Stats>)
    ensures |r| == cpus && forall i :: 0 <= i < cpus ==> r[i] == Stats(0, 0, 0, 0, 0, 0)
  {
    seq(cpus, i => Stats(0, 0, 0, 0, 0, 0))
  }

  ghost predicate OnCpus(tr: Trace, cpus: nat) { forall i :: 0 <= i < |tr| ==> tr[i].cpu < cpus }

  ghost function RunTo(c: Ctrl, cpus: nat, tr: Trace, n: nat): (s: State)
    requires n <= |tr| && OnCpus(tr, cpus)
    ensures |s.stats| == cpus && Shaped(s)
  {
    if n == 0 then State(map[], BlankStats(cpus))
    else
      StepShaped(c, RunTo(c, cpus, tr, n - 1), tr[n - 1]);
      Step(c, RunTo(c, cpus, tr, n - 1), tr[n - 1])
  }

  // ---------------------------------------------------------------- the handlers as they run

  class Collector {
    const ctrl: Ctrl
    const cpus: nat
    var entries: map<Key, seq<Info>>
    var stats: seq<Stats>

    ghost function View(): State
      reads this
    {
      State(entries, stats)
    }

    ghost predicate Valid()
      reads this
    {
      |stats| == cpus && Shaped(View())
    }

    constructor (c: Ctrl, cpus: nat)
      ensures ctrl == c && this.cpus == cpus && Valid() && View() == State(map[], BlankStats(cpus))
    {
      ctrl, this.cpus := c, cpus;
      entries, stats := map[], BlankStats(cpus);
    }

    /** pid_matches */
    method MatchPid(cpu: nat, visible: Option<int>) returns (ok: bool)
      requires cpu < |stats|
      modifies this`stats
      ensures ok == PidMatches(ctrl, visible)
      ensures stats == old(stats)[cpu := if ok then old(stats)[cpu]
                                         else old(stats)[cpu].(filteredPid := old(stats)[cpu].filteredPid + 1)]
    {
      assert stats[cpu := stats[cpu]] == stats;
      if ctrl.targetPid == 0 { return true; }
      if visible.None? || visible.value != ctrl.targetPid % U32 {
        stats := stats[cpu := stats[cpu].(filteredPid := stats[cpu].filteredPid + 1)];
        return false;
      }
      return true;
    }

    /** The counter of an event seen, and of a failed allocation; says whether to go on. */
    method Enter(cpu: nat, ptr: bool) returns (ok: bool)
      requires cpu < |stats|
      modifies this`stats
      ensures ok == (ctrl.enable && ptr)
      ensures var st := old(stats)[cpu];
              stats == old(stats)[cpu := if !ctrl.enable then st
                                         else st.(eventsSeen := st.eventsSeen + 1,
                                                  allocFailed := st.allocFailed + if ptr then 0 else 1)]
    {
      assert stats[cpu := stats[cpu]] == stats;
      if !ctrl.enable { return false; }
      stats := stats[cpu := stats[cpu].(eventsSeen := stats[cpu].eventsSeen + 1)];
      if !ptr {
        stats := stats[cpu := stats[cpu].(allocFailed := stats[cpu].allocFailed + 1)];
        return false;
      }
      return true;
    }

    /** account_alloc */
    method AccountAlloc(cpu: nat, k: Key, inserted: bool)
      requires Valid() && cpu < cpus
      modifies this
      ensures var st := old(stats)[cpu];
              if Holds(old(entries), inserted, k)
              then entries == Account(old(entries), cpus, cpu, k) && stats == old(stats)
              else entries == old(entries)
                   && stats == old(stats)[cpu := st.(mapUpdateFailed := st.mapUpdateFailed + 1)]
    {
      if k !in entries {
        if inserted && |entries.Keys| < MAX_ENTRIES {
          entries := entries[k := Zero(cpus)];
        }
        if k !in entries {
          stats := stats[cpu := stats[cpu].(mapUpdateFailed := stats[cpu].mapUpdateFailed + 1)];
          return;
        }
      }
      var info := entries[k][cpu];
      entries := entries[k := entries[k][cpu := Info(info.count + 1, (info.bytes + k.allocSize) % U64)]];
    }

    /** account_cache_size */
    method AccountCacheSize(cpu: nat, bytes: nat, inserted: bool)
      requires Valid() && cpu < cpus
      modifies this
      ensures var k, st := Key(bytes, CACHE_SIZE, ""), old(stats)[cpu];
              var held := Holds(old(entries), inserted, k);
              && entries == (if held then Account(old(entries), cpus, cpu, k) else old(entries))
              && stats == old(stats)[cpu := st.(sizeFallback := st.sizeFallback + 1,
                                                mapUpdateFailed := st.mapUpdateFailed + if held then 0 else 1)]
    {
      stats := stats[cpu := stats[cpu].(sizeFallback := stats[cpu].sizeFallback + 1)];
      AccountAlloc(cpu, Key(bytes, CACHE_SIZE, ""), inserted);
    }

    /** handle_kmem_cache_alloc */
    method HandleKmemCacheAlloc(e: Probe)
      requires Valid() && e.CacheAlloc? && e.cpu < cpus
      modifies this
      ensures View() == Step(ctrl, old(View()), e) && Valid()
    {
      StepShaped(ctrl, View(), e);
      var ok := Enter(e.cpu, e.ptr);
      if !ok { return; }
      ok := MatchPid(e.cpu, e.visible);
      if !ok { return; }
      if !e.accounted {
        AccountCacheSize(e.cpu, e.bytes, e.inserted);
        return;
      }
      if e.name.None? || |e.name.value| == 0 {
        stats := stats[e.cpu := stats[e.cpu].(nameReadFailed := stats[e.cpu].nameReadFailed + 1)];
        return;
      }
      AccountAlloc(e.cpu, Key(e.size, NAMED_CACHE, Truncated(e.name.value)), e.inserted);
    }

    /** handle_kmem_cache_alloc_node */
    method HandleKmemCacheAllocNode(e: Probe)
      requires Valid() && e.CacheAllocNode? && e.cpu < cpus
      modifies this
      ensures View() == Step(ctrl, old(View()), e) && Valid()
    {
      StepShaped(ctrl, View(), e);
      var ok := Enter(e.cpu, e.ptr);
      if !ok { return; }
      ok := MatchPid(e.cpu, e.visible);
      if !ok { return; }
      AccountCacheSize(e.cpu, e.bytes, e.inserted);
    }

    /** handle_kmalloc and handle_kmalloc_node */
    method HandleKmalloc(e: Probe)
      requires Valid() && (e.Kmalloc? || e.KmallocNode?) && e.cpu < cpus
      modifies this
      ensures View() == Step(ctrl, old(View()), e) && Valid()
    {
      StepShaped(ctrl, View(), e);
      var ok := Enter(e.cpu, e.ptr);
      if !ok { return; }
      ok := MatchPid(e.cpu, e.visible);
      if !ok { return; }
      AccountAlloc(e.cpu, Key(e.bytes, KMALLOC, ""), e.inserted);
    }
  }

  // ---------------------------------------------------------------- every event in one bucket

  function Seen(st: Stats): int { st.eventsSeen }
  function Unbooked(st: Stats): int { st.allocFailed + st.filteredPid + st.nameReadFailed + st.mapUpdateFailed }
  function Counted(x: Info): int { x.count }

  /** The allocations recorded under a key, over all CPUs. */
  function CountOf(s: State, k: Key): int { if k in s.entries then Total(s.entries[k], Counted) else 0 }

  function SumCounts(s: State, order: seq<Key>): int {
    if order == [] then 0 else SumCounts(s, order[..|order| - 1]) + CountOf(s, order[|order| - 1])
  }

  ghost predicate Distinct(order: seq<Key>) { forall i, j :: 0 <= i < j < |order| ==> order[i] != order[j] }

  lemma {:induction false} CountStep(c: Ctrl, s: State, e: Probe, k: Key)
    requires e.cpu < |s.stats| && Shaped(s)
    ensures CountOf(Step(c, s, e), k) == CountOf(s, k) + if Accounts(c, s, e) == Some(k) then 1 else 0
  {
    if Accounts(c, s, e) == Some(k) {
      var copies := Copies(s.entries, |s.stats|, k);
      TotalSet(copies, Counted, e.cpu, Bump(copies[e.cpu], k.allocSize));
      if k !in s.entries { TotalZero(copies, Counted); }
    }
  }

  lemma {:induction false} SumStep(c: Ctrl, s: State, e: Probe, order: seq<Key>)
    requires e.cpu < |s.stats| && Shaped(s) && Distinct(order)
    ensures SumCounts(Step(c, s, e), order)
            == SumCounts(s, order) + if Accounts(c, s, e).Some? && Accounts(c, s, e).value in order then 1 else 0
  {
    if order != [] {
      var n := |order| - 1;
      assert forall k :: k in order <==> k in order[..n] || k == order[n];
      SumStep(c, s, e, order[..n]);
      CountStep(c, s, e, order[n]);
    }
  }

  lemma {:induction false} SumNothing(s: State, order: seq<Key>)
    requires s.entries == map[]
    ensures SumCounts(s, order) == 0
  {
    if order != [] { SumNothing(s, order[..|order| - 1]); }
  }

  lemma {:induction false} BooksStep(c: Ctrl, s: State, e: Probe)
    requires e.cpu < |s.stats| && Shaped(s)
    ensures Total(Step(c, s, e).stats, Seen) - Total(Step(c, s, e).stats, Unbooked)
            == Total(s.stats, Seen) - Total(s.stats, Unbooked) + if Accounts(c, s, e).Some? then 1 else 0
  {
    TotalSet(s.stats, Seen, e.cpu, StepStats(c, s, e));
    TotalSet(s.stats, Unbooked, e.cpu, StepStats(c, s, e));
  }

  /** In every run each event is in exactly one bucket: in whatever order the keys are enumerated, the events
      seen are the failed, filtered, unnamed and refused ones plus the counts of all keys on all CPUs. */
  lemma {:induction false} OneBucketEach(c: Ctrl, cpus: nat, tr: Trace, n: nat, order: seq<Key>)
    requires n <= |tr| && OnCpus(tr, cpus) && Distinct(order)
    requires forall k :: k in RunTo(c, cpus, tr, n).entries ==> k in order
    ensures Total(RunTo(c, cpus, tr, n).stats, Seen)
            == Total(RunTo(c, cpus, tr, n).stats, Unbooked) + SumCounts(RunTo(c, cpus, tr, n), order)
  {
    var s := RunTo(c, cpus, tr, n);
    if n == 0 {
      TotalZero(s.stats, Seen);
      TotalZero(s.stats, Unbooked);
      SumNothing(s, order);
    } else {
      var p, e := RunTo(c, cpus, tr, n - 1), tr[n - 1];
      StepShaped(c, p, e);
      OneBucketEach(c, cpus, tr, n - 1, order);
      SumStep(c, p, e, order);
      BooksStep(c, p, e);
    }
  }

  /** Bytes are count times the size of the key, on every CPU, in 64 bits. */
  ghost predicate Priced(s: State) {
    forall k, i :: k in s.entries && 0 <= i < |s.entries[k]| ==>
      s.entries[k][i].bytes == s.entries[k][i].count * k.allocSize % U64
  }

  lemma {:induction false} AddModLeft(x: int, y: int, m: int)
    requires m > 0
    ensures (x % m + y) % m == (x + y) % m
  {
    var q := x / m;
    assert x == x % m + q * m;
    Bits.ModShift(x % m + y, q, m);
  }

  lemma {:induction false} AddMod(x: int, y: int, m: int)
    requires m > 0
    ensures (x % m + y % m) % m == (x + y) % m
  {
    AddModLeft(y, x % m, m);
    AddModLeft(x, y, m);
  }

  lemma {:induction false} Regroup(a: int, b: int, size: int)
    ensures (a + b) * size == a * size + b * size
  {
  }

  lemma {:induction false} BumpPriced(x: Info, size: nat)
    requires x.bytes == x.count * size % U64
    ensures Bump(x, size).bytes == (x.count + 1) * size % U64
  {
    AddModLeft(x.count * size, size, U64);
    Regroup(x.count, 1, size);
  }

  lemma {:induction false} PricedStep(c: Ctrl, s: State, e: Probe)
    requires e.cpu < |s.stats| && Shaped(s) && Priced(s)
    ensures Priced(Step(c, s, e))
  {
    var a := Accounts(c, s, e);
    if a.Some? {
      var copies := Copies(s.entries, |s.stats|, a.value);
      BumpPriced(copies[e.cpu], a.value.allocSize);
    }
  }

  lemma {:induction false} AlwaysPriced(c: Ctrl, cpus: nat, tr: Trace, n: nat)
    requires n <= |tr| && OnCpus(tr, cpus)
    ensures Priced(RunTo(c, cpus, tr, n))
  {
    if n > 0 {
      AlwaysPriced(c, cpus, tr, n - 1);
      PricedStep(c, RunTo(c, cpus, tr, n - 1), tr[n - 1]);
    }
  }

  // ---------------------------------------------------------------- what a key and its count mean

  /** Event e is a successful allocation while the collector is on, by a process that the filter asks for. */
  predicate Passes(c: Ctrl, e: Probe) {
    c.enable && e.ptr && (c.targetPid == 0 || e.visible == Some(c.targetPid % 0x1_0000_0000))
  }

  /** Where an allocation of event e belongs: an object of a named cache, by the object size and the name, cut off
      after 47 characters; a kmalloc, by its size; or, where the kernel does not tell the cache, by its size. */
  predicate IsKey(e: Probe, k: Key) {
    match k.kind
    case NAMED_CACHE =>
      && e.CacheAlloc? && e.accounted && e.name.Some? && 0 < |k.name| <= 47 && k.allocSize == e.size
      && k.name <= e.name.value && (|k.name| == 47 || k.name == e.name.value)
    case KMALLOC => (e.Kmalloc? || e.KmallocNode?) && k == Key(e.bytes, KMALLOC, "")
    case CACHE_SIZE =>
      (e.CacheAllocNode? || (e.CacheAlloc? && !e.accounted)) && k == Key(e.bytes, CACHE_SIZE, "")
  }

  /** A key says exactly that; an event without one is an object of a cache whose name cannot be read. */
  lemma {:induction false} KeyOfIs(e: Probe, k: Key)
    ensures KeyOf(e) == Some(k) <==> IsKey(e, k)
    ensures KeyOf(e).None? <==> e.CacheAlloc? && e.accounted && (e.name.None? || e.name.value == "")
  {
    if e.CacheAlloc? && e.accounted && e.name.Some? && k.kind == NAMED_CACHE && IsKey(e, k) {
      var name := e.name.value;
      assert k.name == name[..|k.name|];
      assert |name| >= 47 ==> |k.name| == 47;
      assert |name| == 47 ==> name[..47] == name;
    }
  }

  /** Event i is accounted to k: the key has an entry, or the hash has room for it and takes it. */
  ghost predicate AccountedTo(c: Ctrl, cpus: nat, tr: Trace, i: nat, k: Key)
    requires i < |tr| && OnCpus(tr, cpus)
  {
    var m := RunTo(c, cpus, tr, i).entries;
    Passes(c, tr[i]) && IsKey(tr[i], k) && (k in m || (tr[i].inserted && |m.Keys| < 1024))
  }

  lemma {:induction false} AccountsIs(c: Ctrl, cpus: nat, tr: Trace, i: nat, k: Key)
    requires i < |tr| && OnCpus(tr, cpus)
    ensures Accounts(c, RunTo(c, cpus, tr, i), tr[i]) == Some(k) <==> AccountedTo(c, cpus, tr, i, k)
  {
    KeyOfIs(tr[i], k);
  }

  /** The events among the first n that are accounted to k. */
  ghost function Allocations(c: Ctrl, cpus: nat, tr: Trace, n: nat, k: Key): nat
    requires n <= |tr| && OnCpus(tr, cpus)
  {
    if n == 0 then 0
    else Allocations(c, cpus, tr, n - 1, k) + if AccountedTo(c, cpus, tr, n - 1, k) then 1 else 0
  }

  lemma {:induction false} EntryNext(c: Ctrl, cpus: nat, tr: Trace, n: nat, k: Key)
    requires 0 < n <= |tr| && OnCpus(tr, cpus)
    ensures CountOf(RunTo(c, cpus, tr, n), k)
            == CountOf(RunTo(c, cpus, tr, n - 1), k) + if AccountedTo(c, cpus, tr, n - 1, k) then 1 else 0
    ensures k in RunTo(c, cpus, tr, n).entries <==>
            k in RunTo(c, cpus, tr, n - 1).entries || AccountedTo(c, cpus, tr, n - 1, k)
  {
    var r := n - 1;
    var s, e := RunTo(c, cpus, tr, r), tr[r];
    AccountsIs(c, cpus, tr, r, k);
    CountStep(c, s, e, k);
    KeyStep(c, s, e, k);
  }

  lemma {:induction false} CountIsAllocations(c: Ctrl, cpus: nat, tr: Trace, n: nat, k: Key)
    requires n <= |tr| && OnCpus(tr, cpus)
    ensures CountOf(RunTo(c, cpus, tr, n), k) == Allocations(c, cpus, tr, n, k)
  {
    if n > 0 {
      CountIsAllocations(c, cpus, tr, n - 1, k);
      EntryNext(c, cpus, tr, n, k);
    }
  }

  /** A key has an entry iff some event was accounted to it. */
  lemma {:induction false} KeysAreAccounted(c: Ctrl, cpus: nat, tr: Trace, n: nat, k: Key)
    requires n <= |tr| && OnCpus(tr, cpus)
    ensures k in RunTo(c, cpus, tr, n).entries <==> Allocations(c, cpus, tr, n, k) > 0
  {
    if n > 0 {
      KeysAreAccounted(c, cpus, tr, n - 1, k);
      EntryNext(c, cpus, tr, n, k);
    }
  }

  lemma {:induction false} KeyStep(c: Ctrl, s: State, e: Probe, k: Key)
    requires e.cpu < |s.stats| && Shaped(s)
    ensures k in Step(c, s, e).entries <==> k in s.entries || Accounts(c, s, e) == Some(k)
  {
  }

  lemma {:induction false} AllocationsGrow(c: Ctrl, cpus: nat, tr: Trace, m: nat, n: nat, k: Key)
    requires m <= n <= |tr| && OnCpus(tr, cpus)
    ensures Allocations(c, cpus, tr, m, k) <= Allocations(c, cpus, tr, n, k)
  {
    if m < n { AllocationsGrow(c, cpus, tr, m, n - 1, k); }
  }

  // ---------------------------------------------------------------- what the health counters mean

  datatype Sums = Sums(seen: nat, failed: nat, filtered: nat, unnamed: nat, refused: nat, fallback: nat)

  function One(b: bool): nat { if b then 1 else 0 }

  function Plus(a: Sums, b: Sums): Sums {
    Sums(a.seen + b.seen, a.failed + b.failed, a.filtered + b.filtered, a.unnamed + b.unnamed, a.refused + b.refused,
         a.fallback + b.fallback)
  }

  /** The share of event r in the health counters, from the trace: events while the collector is on; failed
      allocations; those of processes the filter does not ask for; objects of caches without a readable name; those
      with a key that gets no entry; and those whose cache the kernel does not tell. */
  ghost function Share(c: Ctrl, cpus: nat, tr: Trace, r: nat): Sums
    requires r < |tr| && OnCpus(tr, cpus)
  {
    var e := tr[r];
    Sums(One(c.enable), One(c.enable && !e.ptr), One(c.enable && e.ptr && !Passes(c, e)),
         One(Passes(c, e) && e.CacheAlloc? && e.accounted && (e.name.None? || e.name.value == "")),
         One(Passes(c, e) && exists k :: IsKey(e, k) && !AccountedTo(c, cpus, tr, r, k)),
         One(Passes(c, e) && (e.CacheAllocNode? || (e.CacheAlloc? && !e.accounted))))
  }

  ghost function SumsTo(c: Ctrl, cpus: nat, tr: Trace, n: nat): Sums
    requires n <= |tr| && OnCpus(tr, cpus)
  {
    if n == 0 then Sums(0, 0, 0, 0, 0, 0) else Plus(SumsTo(c, cpus, tr, n - 1), Share(c, cpus, tr, n - 1))
  }

  function FailedOf(st: Stats): int { st.allocFailed }
  function FilteredOf(st: Stats): int { st.filteredPid }
  function UnnamedOf(st: Stats): int { st.nameReadFailed }
  function RefusedOf(st: Stats): int { st.mapUpdateFailed }
  function FallbackOf(st: Stats): int { st.sizeFallback }

  ghost predicate Tallied(stats: seq<Stats>, x: Sums) {
    && Total(stats, Seen) == x.seen && Total(stats, FailedOf) == x.failed && Total(stats, FilteredOf) == x.filtered
    && Total(stats, UnnamedOf) == x.unnamed && Total(stats, RefusedOf) == x.refused
    && Total(stats, FallbackOf) == x.fallback
  }

  predicate Books(a: Stats, b: Stats, x: Sums) {
    && a.eventsSeen == b.eventsSeen + x.seen && a.allocFailed == b.allocFailed + x.failed
    && a.filteredPid == b.filteredPid + x.filtered && a.nameReadFailed == b.nameReadFailed + x.unnamed
    && a.mapUpdateFailed == b.mapUpdateFailed + x.refused && a.sizeFallback == b.sizeFallback + x.fallback
  }

  lemma {:induction false} BookedTallies(stats: seq<Stats>, sums: Sums, cpu: nat, a: Stats, x: Sums)
    requires Tallied(stats, sums) && cpu < |stats| && Books(a, stats[cpu], x)
    ensures Tallied(stats[cpu := a], Plus(sums, x))
  {
    TotalSet(stats, Seen, cpu, a);
    TotalSet(stats, FailedOf, cpu, a);
    TotalSet(stats, FilteredOf, cpu, a);
    TotalSet(stats, UnnamedOf, cpu, a);
    TotalSet(stats, RefusedOf, cpu, a);
    TotalSet(stats, FallbackOf, cpu, a);
  }

  lemma {:induction false} BooksShare(c: Ctrl, cpus: nat, tr: Trace, r: nat)
    requires r < |tr| && OnCpus(tr, cpus)
    ensures var s := RunTo(c, cpus, tr, r);
            Books(StepStats(c, s, tr[r]), s.stats[tr[r].cpu], Share(c, cpus, tr, r))
  {
    var s, e := RunTo(c, cpus, tr, r), tr[r];
    forall k ensures IsKey(e, k) <==> KeyOf(e) == Some(k) {
      KeyOfIs(e, k);
    }
    if KeyOf(e).Some? {
      AccountsIs(c, cpus, tr, r, KeyOf(e).value);
    } else {
      KeyOfIs(e, Key(0, KMALLOC, ""));
    }
  }

  /** In every run each health counter, summed over CPUs, is the number of events of its kind in the trace. */
  lemma {:induction false} BucketsAreTrace(c: Ctrl, cpus: nat, tr: Trace, n: nat)
    requires n <= |tr| && OnCpus(tr, cpus)
    ensures Tallied(RunTo(c, cpus, tr, n).stats, SumsTo(c, cpus, tr, n))
  {
    if n == 0 {
      var z := BlankStats(cpus);
      TotalZero(z, Seen);
      TotalZero(z, FailedOf);
      TotalZero(z, FilteredOf);
      TotalZero(z, UnnamedOf);
      TotalZero(z, RefusedOf);
      TotalZero(z, FallbackOf);
    } else {
      var r := n - 1;
      BucketsAreTrace(c, cpus, tr, r);
      BooksShare(c, cpus, tr, r);
      var s := RunTo(c, cpus, tr, r);
      BookedTallies(s.stats, SumsTo(c, cpus, tr, r), tr[r].cpu, StepStats(c, s, tr[r]), Share(c, cpus, tr, r));
    }
  }
}
