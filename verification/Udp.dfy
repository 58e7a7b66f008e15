/**
  The UDP send tracker (net/udp_monitor/udp_monitor.bpf.c) and the merge of its per-CPU statistics
  (net/udp_monitor/user.c:91-114).  A thread's send call may nest (an IPv6 socket sending to an IPv4-mapped
  address), may return on another CPU than it entered on, and its context may be evicted from the LRU map.
*/
module Udp {
  import opened Wrappers
  import opened PerCpu

  type Tid = nat
  type Tuple = seq<int>   // addresses and ports, as read by a probe

  const U32: nat := 0x1_0000_0000
  const U64: nat := 0x1_0000_0000_0000_0000

  datatype Ctrl = Ctrl(enable: bool, minLatencyNs: nat, targetPid: int)

  datatype Source = SOCKET | MSG | FLOW

  datatype Ctx = Ctx(startTs: nat, tgid: int, pid: int, comm: string, source: Source, tuple: Tuple)

  datatype Stats = Stats(
    attempted: nat, count: nat, failed: nat, totalNs: nat, totalBytes: int, filteredPid: nat,
    filteredLatency: nat, ringbufDropped: nat, mapUpdateFailed: nat, lookupMissed: nat, nestedCalls: nat,
    flowTuple: nat, fallbackTuple: nat, maxNs: nat, maxPid: int, maxTid: int, maxComm: string)

  predicate Blank(st: Stats) {
    && st.attempted == st.count == st.failed == st.totalNs == st.totalBytes == st.filteredPid == 0
    && st.filteredLatency == st.ringbufDropped == st.mapUpdateFailed == st.lookupMissed == st.nestedCalls == 0
    && st.flowTuple == st.fallbackTuple == st.maxNs == st.maxPid == st.maxTid == 0 && st.maxComm == ""
  }

  function Zeros(cpus: nat): (r: seq<Stats>)
    ensures |r| == cpus && forall i :: 0 <= i < cpus ==> Blank(r[i])
  {
    if cpus == 0 then [] else Zeros(cpus - 1) + [Stats(0, 0, 0, 0, 0, 0, 0, 0, 0, 0, 0, 0, 0, 0, 0, 0, "")]
  }

  datatype Event = Event(ts: nat, latency: nat, ctx: Ctx, result: int)

  /** What becomes of the event of a counted send. */
  datatype Fate = SUBMITTED | FILTERED | DROPPED

  /** How an outermost return ended: without a context, with a failed send, or counted. */
  datatype Outcome = Missed | Failed(ctx: Ctx) | Counted(ctx: Ctx, latency: nat, bytes: int, fate: Fate)

  /** One settlement attempt; the log of these is the observer's record of a run. */
  datatype Settlement = Settlement(tid: Tid, cpu: nat, outcome: Outcome)

  datatype State = State(depth: map<Tid, nat>, start: map<Tid, Ctx>, stats: seq<Stats>,
                         ring: seq<Event>, log: seq<Settlement>, evicted: nat)

  datatype Probe =
    | Enter(tid: Tid, cpu: nat, visible: Option<(int, int)>, now: nat, comm: string,
            source: Source, tuple: Tuple, depthOk: bool, startOk: bool)
    | SendSkb(tid: Tid, flow: Option<Tuple>)
    | Return(tid: Tid, cpu: nat, retval: int, now: nat, room: bool)
    | Evict(tid: Tid)

  type Trace = seq<Probe>

  /** Probes run on one of the possible CPUs, and the clock is positive; contexts start from socket or message. */
  predicate Sane(e: Probe, cpus: nat) {
    match e
    case Enter(_, cpu, _, now, _, source, _, _, _) => cpu < cpus && now > 0 && source != FLOW
    case Return(_, cpu, _, now, _) => cpu < cpus && now > 0
    case _ => true
  }

  /** The PID filter lets the thread through. */
  predicate Admitted(c: Ctrl, visible: Option<(int, int)>) {
    c.enable && visible.Some? && (c.targetPid == 0 || c.targetPid % U32 == visible.value.0)
  }

  /** An outermost entry that gets a context. */
  predicate Opens(c: Ctrl, s: State, e: Probe)
    requires e.Enter?
  {
    Admitted(c, e.visible) && e.tid !in s.depth && e.depthOk && e.startOk
  }

  function CtxOf(e: Probe): Ctx
    requires e.Enter? && e.visible.Some?
  {
    Ctx(e.now, e.visible.value.0, e.visible.value.1, e.comm, e.source, e.tuple)
  }

  function EnterStats(c: Ctrl, st: Stats, nested: bool, e: Probe): Stats
    requires e.Enter?
  {
    if !c.enable then st
    else if !Admitted(c, e.visible) then st.(filteredPid := st.filteredPid + 1)
    else if nested then st.(nestedCalls := st.nestedCalls + 1)
    else if !e.depthOk || !e.startOk then st.(mapUpdateFailed := st.mapUpdateFailed + 1)
    else st.(attempted := st.attempted + 1)
  }

  function EnterStep(c: Ctrl, s: State, e: Probe): State
    requires e.Enter? && Sane(e, |s.stats|)
  {
    s.(depth := if Opens(c, s, e) then s.depth[e.tid := 1]
                else if Admitted(c, e.visible) && e.tid in s.depth then s.depth[e.tid := s.depth[e.tid] + 1]
                else s.depth,
       start := if Opens(c, s, e) then s.start[e.tid := CtxOf(e)] else s.start,
       stats := s.stats[e.cpu := EnterStats(c, s.stats[e.cpu], e.tid in s.depth, e)])
  }

  /** What an outermost return settles; None for inner returns and for returns nobody entered. */
  function Settled(c: Ctrl, s: State, e: Probe): Option<Outcome>
    requires e.Return?
  {
    if e.tid !in s.depth || s.depth[e.tid] > 1 then None
    else if e.tid !in s.start || s.start[e.tid].startTs == 0 then Some(Missed)
    else if !c.enable then None
    else if e.retval < 0 then Some(Failed(s.start[e.tid]))
    else Some(CountedAs(c, s.start[e.tid], e))
  }

  /** A counted send is put into the ring buffer unless it is too quick. */
  predicate Reportable(c: Ctrl, latency: nat) { c.minLatencyNs == 0 || latency >= c.minLatencyNs }

  function FateOf(c: Ctrl, latency: nat, room: bool): Fate {
    if !Reportable(c, latency) then FILTERED else if room then SUBMITTED else DROPPED
  }

  function CountedAs(c: Ctrl, ctx: Ctx, e: Probe): Outcome
    requires e.Return?
  {
    var latency := (e.now - ctx.startTs) % U64;
    Counted(ctx, latency, e.retval, FateOf(c, latency, e.room))
  }

  function CountSend(c: Ctrl, st: Stats, ctx: Ctx, latency: nat, retval: int, room: bool): Stats {
    st.(count := st.count + 1, totalNs := st.totalNs + latency, totalBytes := st.totalBytes + retval,
        flowTuple := if ctx.source == FLOW then st.flowTuple + 1 else st.flowTuple,
        fallbackTuple := if ctx.source == FLOW then st.fallbackTuple else st.fallbackTuple + 1,
        maxNs := if latency > st.maxNs then latency else st.maxNs,
        maxPid := if latency > st.maxNs then ctx.tgid else st.maxPid,
        maxTid := if latency > st.maxNs then ctx.pid else st.maxTid,
        maxComm := if latency > st.maxNs then ctx.comm else st.maxComm,
        filteredLatency := if Reportable(c, latency) then st.filteredLatency else st.filteredLatency + 1,
        ringbufDropped := if Reportable(c, latency) && !room then st.ringbufDropped + 1 else st.ringbufDropped)
  }

  function ReturnStats(c: Ctrl, st: Stats, s: State, e: Probe): Stats
    requires e.Return?
  {
    if e.tid !in s.depth then (if c.enable then st.(lookupMissed := st.lookupMissed + 1) else st)
    else match Settled(c, s, e)
      case None => st
      case Some(Missed) => if c.enable then st.(lookupMissed := st.lookupMissed + 1) else st
      case Some(Failed(_)) => st.(failed := st.failed + 1)
      case Some(Counted(ctx, latency, _, _)) => CountSend(c, st, ctx, latency, e.retval, e.room)
  }

  function ReturnEvents(o: Option<Outcome>, e: Probe): seq<Event>
    requires e.Return?
  {
    if o.Some? && o.value.Counted? && o.value.fate == SUBMITTED
    then [Event(e.now, o.value.latency, o.value.ctx, e.retval)] else []
  }

  function ReturnStep(c: Ctrl, s: State, e: Probe): State
    requires e.Return? && Sane(e, |s.stats|)
  {
    var o := Settled(c, s, e);
    var outermost := e.tid in s.depth && s.depth[e.tid] <= 1;
    s.(depth := if outermost then s.depth - {e.tid}
                else if e.tid in s.depth then s.depth[e.tid := s.depth[e.tid] - 1] else s.depth,
       start := if outermost && o != Some(Missed) then s.start - {e.tid} else s.start,
       stats := s.stats[e.cpu := ReturnStats(c, s.stats[e.cpu], s, e)],
       ring := s.ring + ReturnEvents(o, e),
       log := s.log + if o.Some? then [Settlement(e.tid, e.cpu, o.value)] else [])
  }

  function Step(c: Ctrl, s: State, e: Probe): State
    requires Sane(e, |s.stats|)
  {
    match e
    case Enter(_, _, _, _, _, _, _, _, _) => EnterStep(c, s, e)
    case SendSkb(tid, flow) =>
      if tid in s.start && flow.Some?
      then s.(start := s.start[tid := s.start[tid].(source := FLOW, tuple := flow.value)]) else s
    case Return(_, _, _, _, _) => ReturnStep(c, s, e)
    case Evict(tid) =>
      if tid in s.start then s.(start := s.start - {tid}, evicted := s.evicted + 1) else s
  }

  function Init(cpus: nat): State { State(map[], map[], Zeros(cpus), [], [], 0) }

  ghost predicate SaneTrace(tr: Trace, cpus: nat) { forall i :: 0 <= i < |tr| ==> Sane(tr[i], cpus) }

  function RunTo(c: Ctrl, cpus: nat, tr: Trace, n: nat): (s: State)
    requires n <= |tr| && SaneTrace(tr, cpus)
    ensures |s.stats| == cpus
  {
    if n == 0 then Init(cpus) else Step(c, RunTo(c, cpus, tr, n - 1), tr[n - 1])
  }

  // ---------------------------------------------------------------- the probes as they run

  lemma {:induction false} Unchanged(stats: seq<Stats>, i: nat)
    requires i < |stats|
    ensures stats[i := stats[i]] == stats
  {
  }

  class Monitor {
    const ctrl: Ctrl
    const cpus: nat
    var depth: map<Tid, nat>
    var start: map<Tid, Ctx>
    var stats: seq<Stats>
    var ring: seq<Event>
    ghost var log: seq<Settlement>
    ghost var evicted: nat

    ghost function View(): State
      reads this
    {
      State(depth, start, stats, ring, log, evicted)
    }

    constructor (c: Ctrl, cpus: nat)
      ensures ctrl == c && this.cpus == cpus && View() == Init(cpus)
    {
      ctrl, this.cpus := c, cpus;
      depth, start, stats, ring := map[], map[], Zeros(cpus), [];
      log, evicted := [], 0;
    }

    /** record_udp_send */
    method RecordUdpSend(e: Probe)
      requires e.Enter? && Sane(e, |stats|)
      modifies this
      ensures View() == Step(ctrl, old(View()), e)
    {
      Unchanged(stats, e.cpu);
      if !ctrl.enable { return; }
      var st := stats[e.cpu];
      if e.visible.None? {
        stats := stats[e.cpu := st.(filteredPid := st.filteredPid + 1)];
        return;
      }
      if ctrl.targetPid != 0 && ctrl.targetPid % U32 != e.visible.value.0 {
        stats := stats[e.cpu := st.(filteredPid := st.filteredPid + 1)];
        return;
      }
      if e.tid in depth {
        depth := depth[e.tid := depth[e.tid] + 1];
        stats := stats[e.cpu := st.(nestedCalls := st.nestedCalls + 1)];
        return;
      }
      if !e.depthOk {
        stats := stats[e.cpu := st.(mapUpdateFailed := st.mapUpdateFailed + 1)];
        return;
      }
      depth := depth[e.tid := 1];
      if !e.startOk {
        depth := depth - {e.tid};
        assert depth == old(depth);
        stats := stats[e.cpu := st.(mapUpdateFailed := st.mapUpdateFailed + 1)];
        return;
      }
      start := start[e.tid := Ctx(e.now, e.visible.value.0, e.visible.value.1, e.comm, e.source, e.tuple)];
      stats := stats[e.cpu := st.(attempted := st.attempted + 1)];
    }

    /** trace_udp_send_skb and trace_udp_v6_send_skb */
    method TraceSendSkb(tid: Tid, flow: Option<Tuple>)
      modifies this
      ensures View() == Step(ctrl, old(View()), SendSkb(tid, flow))
    {
      if tid !in start || flow.None? { return; }
      start := start[tid := start[tid].(source := FLOW, tuple := flow.value)];
    }

    /** The statistics and the event of a successful send. */
    method Settle(e: Probe, ctx: Ctx, latency: nat)
      requires e.Return? && Sane(e, |stats|)
      modifies this`stats, this`ring
      ensures stats == old(stats)[e.cpu := CountSend(ctrl, old(stats)[e.cpu], ctx, latency, e.retval, e.room)]
      ensures var o := Counted(ctx, latency, e.retval, FateOf(ctrl, latency, e.room));
              ring == old(ring) + ReturnEvents(Some(o), e)
    {
      var st := stats[e.cpu];
      st := st.(count := st.count + 1, totalNs := st.totalNs + latency, totalBytes := st.totalBytes + e.retval);
      if ctx.source == FLOW {
        st := st.(flowTuple := st.flowTuple + 1);
      } else {
        st := st.(fallbackTuple := st.fallbackTuple + 1);
      }
      if latency > st.maxNs {
        st := st.(maxNs := latency, maxPid := ctx.tgid, maxTid := ctx.pid, maxComm := ctx.comm);
      }
      if ctrl.minLatencyNs != 0 && latency < ctrl.minLatencyNs {
        stats := stats[e.cpu := st.(filteredLatency := st.filteredLatency + 1)];
        return;
      }
      if !e.room {
        stats := stats[e.cpu := st.(ringbufDropped := st.ringbufDropped + 1)];
        return;
      }
      stats := stats[e.cpu := st];
      ring := ring + [Event(e.now, latency, ctx, e.retval)];
    }

    /** finish_udp_send */
    method FinishUdpSend(e: Probe)
      requires e.Return? && Sane(e, |stats|)
      modifies this
      ensures View() == Step(ctrl, old(View()), e)
    {
      Unchanged(stats, e.cpu);
      var st := stats[e.cpu];
      if e.tid !in depth {
        if ctrl.enable { stats := stats[e.cpu := st.(lookupMissed := st.lookupMissed + 1)]; }
        return;
      }
      if depth[e.tid] > 1 {
        depth := depth[e.tid := depth[e.tid] - 1];
        return;
      }
      depth := depth - {e.tid};
      if e.tid !in start || start[e.tid].startTs == 0 {
        if ctrl.enable { stats := stats[e.cpu := st.(lookupMissed := st.lookupMissed + 1)]; }
        log := log + [Settlement(e.tid, e.cpu, Missed)];
        return;
      }
      var snapshot := start[e.tid];
      start := start - {e.tid};
      if !ctrl.enable { return; }
      var latency := (e.now - snapshot.startTs) % U64;
      if e.retval < 0 {
        stats := stats[e.cpu := st.(failed := st.failed + 1)];
        log := log + [Settlement(e.tid, e.cpu, Failed(snapshot))];
        return;
      }
      log := log + [Settlement(e.tid, e.cpu, CountedAs(ctrl, snapshot, e))];
      Settle(e, snapshot, latency);
    }

    /** The LRU map drops a context of its own accord. */
    method EvictContext(tid: Tid)
      modifies this
      ensures View() == Step(ctrl, old(View()), Evict(tid))
    {
      if tid in start {
        start := start - {tid};
        evicted := evicted + 1;
      }
    }
  }

  // ---------------------------------------------------------------- conservation

  /** Attempts on one CPU's books that are not settled there. */
  function Open(st: Stats): int { st.attempted - st.count - st.failed }
  /** Counted sends on one CPU's books that were submitted to the ring buffer. */
  function Submitted(st: Stats): int { st.count - st.filteredLatency - st.ringbufDropped }

  predicate OneSource(st: Stats) { st.count == st.flowTuple + st.fallbackTuple }

  /** Summed over CPUs, every attempt is counted, failed, live or evicted, and every counted send was
      submitted, filtered or dropped; on each CPU a counted send has one tuple source. */
  ghost predicate Balanced(s: State) {
    && Total(s.stats, Open) == |s.start.Keys| + s.evicted
    && Total(s.stats, Submitted) == |s.ring|
    && forall i :: 0 <= i < |s.stats| ==> OneSource(s.stats[i])
  }

  /** Contexts exist only inside send calls, and carry a positive timestamp. */
  ghost predicate Nested(c: Ctrl, s: State) {
    && s.start.Keys <= s.depth.Keys
    && (forall t :: t in s.start ==> s.start[t].startTs > 0)
    && (forall t :: t in s.depth ==> s.depth[t] >= 1)
    && (!c.enable ==> s.depth == map[])
  }

  lemma {:induction false} NestedStep(c: Ctrl, s: State, e: Probe)
    requires Sane(e, |s.stats|) && Nested(c, s)
    ensures Nested(c, Step(c, s, e))
  {
    match e
    case Enter(_, _, _, _, _, _, _, _, _) =>
    case SendSkb(tid, flow) =>
    case Return(_, _, _, _, _) =>
    case Evict(tid) =>
  }

  /** Booking record x on one CPU, with contexts and ring buffer changed to match, keeps the balance. */
  lemma {:induction false} BookedKeeps(s: State, t: State, cpu: nat, x: Stats)
    requires Balanced(s) && cpu < |s.stats| && t.stats == s.stats[cpu := x]
    requires Open(x) - Open(s.stats[cpu]) == |t.start.Keys| + t.evicted - |s.start.Keys| - s.evicted
    requires Submitted(x) - Submitted(s.stats[cpu]) == |t.ring| - |s.ring|
    requires OneSource(s.stats[cpu]) ==> OneSource(x)
    ensures Balanced(t)
  {
    TotalSet(s.stats, Open, cpu, x);
    TotalSet(s.stats, Submitted, cpu, x);
  }

  lemma {:induction false} BalancedEnter(c: Ctrl, s: State, e: Probe)
    requires e.Enter? && Sane(e, |s.stats|) && Nested(c, s) && Balanced(s)
    ensures Balanced(EnterStep(c, s, e))
  {
    var t := EnterStep(c, s, e);
    if Opens(c, s, e) {
      assert e.tid !in s.start && t.start.Keys == s.start.Keys + {e.tid};
    }
    BookedKeeps(s, t, e.cpu, EnterStats(c, s.stats[e.cpu], e.tid in s.depth, e));
  }

  /** An outermost return with a context. */
  predicate Closes(c: Ctrl, s: State, e: Probe)
    requires e.Return?
  {
    Settled(c, s, e).Some? && !Settled(c, s, e).value.Missed?
  }

  lemma {:induction false} ReturnBooks(c: Ctrl, st: Stats, s: State, e: Probe)
    requires e.Return? && (c.enable || s.depth == map[])
    ensures var x := ReturnStats(c, st, s, e);
            && Open(x) == Open(st) - (if Closes(c, s, e) then 1 else 0)
            && Submitted(x) == Submitted(st) + |ReturnEvents(Settled(c, s, e), e)|
            && (OneSource(st) ==> OneSource(x))
  {
  }

  lemma {:induction false} ReturnContexts(c: Ctrl, s: State, e: Probe)
    requires e.Return? && Sane(e, |s.stats|) && Nested(c, s)
    ensures |ReturnStep(c, s, e).start.Keys| == |s.start.Keys| - if Closes(c, s, e) then 1 else 0
  {
    if Closes(c, s, e) {
      assert ReturnStep(c, s, e).start.Keys == s.start.Keys - {e.tid};
    } else {
      assert ReturnStep(c, s, e).start == s.start;
    }
  }

  lemma {:induction false} BalancedReturn(c: Ctrl, s: State, e: Probe)
    requires e.Return? && Sane(e, |s.stats|) && Nested(c, s) && Balanced(s)
    ensures Balanced(ReturnStep(c, s, e))
  {
    ReturnBooks(c, s.stats[e.cpu], s, e);
    ReturnContexts(c, s, e);
    BookedKeeps(s, ReturnStep(c, s, e), e.cpu, ReturnStats(c, s.stats[e.cpu], s, e));
  }

  lemma {:induction false} BalancedStep(c: Ctrl, s: State, e: Probe)
    requires Sane(e, |s.stats|) && Nested(c, s) && Balanced(s)
    ensures Balanced(Step(c, s, e))
  {
    match e
    case Enter(_, _, _, _, _, _, _, _, _) =>
      BalancedEnter(c, s, e);
    case Return(_, _, _, _, _) =>
      BalancedReturn(c, s, e);
    case SendSkb(tid, _) =>
      assert Step(c, s, e).start.Keys == s.start.Keys;
    case Evict(tid) =>
      assert (s.start - {tid}).Keys == s.start.Keys - {tid};
  }

  lemma {:induction false} BlankBooks(st: Stats)
    requires Blank(st)
    ensures Open(st) == 0 && Submitted(st) == 0 && OneSource(st)
  {
  }

  lemma {:induction false} InitBalanced(cpus: nat)
    ensures Balanced(Init(cpus))
  {
    var stats := Zeros(cpus);
    forall i | 0 <= i < cpus ensures Open(stats[i]) == 0 && Submitted(stats[i]) == 0 && OneSource(stats[i]) {
      BlankBooks(stats[i]);
    }
    TotalZero(stats, Open);
    TotalZero(stats, Submitted);
  }

  lemma {:induction false} AlwaysNested(c: Ctrl, cpus: nat, tr: Trace, n: nat)
    requires n <= |tr| && SaneTrace(tr, cpus)
    ensures Nested(c, RunTo(c, cpus, tr, n))
  {
    if n > 0 {
      AlwaysNested(c, cpus, tr, n - 1);
      NestedStep(c, RunTo(c, cpus, tr, n - 1), tr[n - 1]);
    }
  }

  /** Every reachable state is balanced, whatever was evicted, failed or ran on whichever CPU. */
  lemma {:induction false} AlwaysBalanced(c: Ctrl, cpus: nat, tr: Trace, n: nat)
    requires n <= |tr| && SaneTrace(tr, cpus)
    ensures Balanced(RunTo(c, cpus, tr, n))
  {
    if n == 0 {
      InitBalanced(cpus);
    } else {
      AlwaysBalanced(c, cpus, tr, n - 1);
      BalancedNext(c, cpus, tr, n - 1);
    }
  }

  lemma {:induction false} BalancedNext(c: Ctrl, cpus: nat, tr: Trace, r: nat)
    requires r < |tr| && SaneTrace(tr, cpus) && Balanced(RunTo(c, cpus, tr, r))
    ensures Balanced(RunTo(c, cpus, tr, r + 1))
  {
    AlwaysNested(c, cpus, tr, r);
    BalancedStep(c, RunTo(c, cpus, tr, r), tr[r]);
  }

  // ---------------------------------------------------------------- nesting

  /** Entries minus returns of thread t among the first n events. */
  function Brackets(tr: Trace, n: nat, t: Tid): int
    requires n <= |tr|
  {
    if n == 0 then 0
    else Brackets(tr, n - 1, t) + if tr[n - 1].Enter? && tr[n - 1].tid == t then 1
                                  else if tr[n - 1].Return? && tr[n - 1].tid == t then -1 else 0
  }

  ghost predicate WellBracketed(tr: Trace, t: Tid) { forall n :: 0 <= n <= |tr| ==> Brackets(tr, n, t) >= 0 }

  /** Event e is an entry on thread t, of a visible process, while the tracker is on and asks for all processes or for
      that one. */
  predicate Wanted(c: Ctrl, e: Probe, t: Tid) {
    && e.Enter? && e.tid == t && c.enable && e.visible.Some?
    && (c.targetPid == 0 || c.targetPid % 0x1_0000_0000 == e.visible.value.0)
  }

  /** Every entry of the thread passes the filter, and its map updates succeed. */
  ghost predicate Tracked(c: Ctrl, tr: Trace, t: Tid) {
    forall i :: 0 <= i < |tr| && tr[i].Enter? && tr[i].tid == t ==>
      Wanted(c, tr[i], t) && tr[i].depthOk && tr[i].startOk
  }

  /** Returns of thread t that close its outermost bracket. */
  function OuterReturns(tr: Trace, n: nat, t: Tid): nat
    requires n <= |tr|
  {
    if n == 0 then 0
    else OuterReturns(tr, n - 1, t)
         + if tr[n - 1].Return? && tr[n - 1].tid == t && Brackets(tr, n - 1, t) == 1 then 1 else 0
  }

  function Attempts(log: seq<Settlement>, t: Tid): nat {
    if log == [] then 0
    else Attempts(log[..|log| - 1], t) + if log[|log| - 1].tid == t then 1 else 0
  }

  /** The depth recorded for thread t, 0 if none. */
  function DepthOf(s: State, t: Tid): nat { if t in s.depth then s.depth[t] else 0 }

  lemma {:induction false} AttemptsAppend(log: seq<Settlement>, x: Settlement, t: Tid)
    ensures Attempts(log + [x], t) == Attempts(log, t) + if x.tid == t then 1 else 0
  {
    assert (log + [x])[..|log|] == log;
  }

  /** The depth after one more event, and after n of them, from the trace alone. */
  function NextDepth(c: Ctrl, d: nat, e: Probe, t: Tid): nat {
    if Wanted(c, e, t)
    then if d > 0 then d + 1 else if e.depthOk && e.startOk then 1 else 0
    else if e.Return? && e.tid == t && d > 0 then d - 1 else d
  }

  function DepthAt(c: Ctrl, tr: Trace, n: nat, t: Tid): nat
    requires n <= |tr|
  {
    if n == 0 then 0 else NextDepth(c, DepthAt(c, tr, n - 1, t), tr[n - 1], t)
  }

  lemma {:induction false} DepthStep(c: Ctrl, s: State, e: Probe, t: Tid)
    requires Sane(e, |s.stats|) && Nested(c, s)
    ensures DepthOf(Step(c, s, e), t) == NextDepth(c, DepthOf(s, t), e, t)
  {
  }

  /** In every run depth_map is this replay of the trace. */
  lemma {:induction false} DepthIsReplay(c: Ctrl, cpus: nat, tr: Trace, n: nat, t: Tid)
    requires n <= |tr| && SaneTrace(tr, cpus)
    ensures DepthOf(RunTo(c, cpus, tr, n), t) == DepthAt(c, tr, n, t)
    ensures t in RunTo(c, cpus, tr, n).depth <==> DepthAt(c, tr, n, t) > 0
    ensures DepthAt(c, tr, n, t) > 0 ==> c.enable
  {
    AlwaysNested(c, cpus, tr, n);
    if n > 0 {
      DepthIsReplay(c, cpus, tr, n - 1, t);
      AlwaysNested(c, cpus, tr, n - 1);
      DepthStep(c, RunTo(c, cpus, tr, n - 1), tr[n - 1], t);
    }
  }

  lemma {:induction false} DepthAtIsBrackets(c: Ctrl, tr: Trace, n: nat, t: Tid)
    requires n <= |tr| && Tracked(c, tr, t) && WellBracketed(tr, t)
    ensures DepthAt(c, tr, n, t) == Brackets(tr, n, t)
  {
    if n > 0 {
      DepthAtIsBrackets(c, tr, n - 1, t);
      assert Brackets(tr, n, t) >= 0;
    }
  }

  lemma {:induction false} AttemptStep(c: Ctrl, s: State, e: Probe, t: Tid)
    requires Sane(e, |s.stats|) && Nested(c, s) && c.enable
    ensures Attempts(Step(c, s, e).log, t) == Attempts(s.log, t)
            + if e.Return? && e.tid == t && t in s.depth && s.depth[t] == 1 then 1 else 0
  {
    if e.Return? {
      var o := Settled(c, s, e);
      if o.Some? {
        AttemptsAppend(s.log, Settlement(e.tid, e.cpu, o.value), t);
      } else {
        assert s.log + [] == s.log;
      }
    }
  }

  /** For a well-bracketed tracked thread, the recorded depth is the bracket depth at every point. */
  lemma {:induction false} DepthIsBrackets(c: Ctrl, cpus: nat, tr: Trace, n: nat, t: Tid)
    requires n <= |tr| && SaneTrace(tr, cpus) && Tracked(c, tr, t) && WellBracketed(tr, t)
    ensures DepthOf(RunTo(c, cpus, tr, n), t) == Brackets(tr, n, t)
  {
    DepthIsReplay(c, cpus, tr, n, t);
    DepthAtIsBrackets(c, tr, n, t);
  }

  /** One settlement is attempted per outermost call of such a thread, ... */
  lemma {:induction false} OneAttemptPerCall(c: Ctrl, cpus: nat, tr: Trace, n: nat, t: Tid)
    requires n <= |tr| && SaneTrace(tr, cpus) && c.enable && Tracked(c, tr, t) && WellBracketed(tr, t)
    ensures Attempts(RunTo(c, cpus, tr, n).log, t) == OuterReturns(tr, n, t)
  {
    if n > 0 {
      OneAttemptPerCall(c, cpus, tr, n - 1, t);
      DepthIsBrackets(c, cpus, tr, n - 1, t);
      AlwaysNested(c, cpus, tr, n - 1);
      AttemptStep(c, RunTo(c, cpus, tr, n - 1), tr[n - 1], t);
    }
  }

  /** ... and both maps hold the thread only while it is inside a send. */
  lemma {:induction false} NothingLeftBehind(c: Ctrl, cpus: nat, tr: Trace, n: nat, t: Tid)
    requires n <= |tr| && SaneTrace(tr, cpus) && Tracked(c, tr, t) && WellBracketed(tr, t)
    ensures t in RunTo(c, cpus, tr, n).depth <==> Brackets(tr, n, t) > 0
    ensures t in RunTo(c, cpus, tr, n).start ==> Brackets(tr, n, t) > 0
  {
    DepthIsBrackets(c, cpus, tr, n, t);
    AlwaysNested(c, cpus, tr, n);
  }

  // ---------------------------------------------------------------- contexts are a replay of the trace

  predicate IsFlow(e: Probe, t: Tid) { e.SendSkb? && e.tid == t && e.flow.Some? }

  /** Event r opens a context of thread t, or takes it away: an eviction, or the outermost return. */
  predicate OpensAt(c: Ctrl, tr: Trace, r: nat, t: Tid)
    requires r < |tr|
  {
    Wanted(c, tr[r], t) && tr[r].depthOk && tr[r].startOk && DepthAt(c, tr, r, t) == 0
  }

  predicate DropsAt(c: Ctrl, tr: Trace, r: nat, t: Tid)
    requires r < |tr|
  {
    tr[r].tid == t && (tr[r].Evict? || (tr[r].Return? && DepthAt(c, tr, r, t) == 1))
  }

  /** The current context of t, seen from the trace alone: event o opened it, and nothing dropped it since. */
  ghost predicate Since(c: Ctrl, tr: Trace, o: nat, n: nat, t: Tid)
    requires n <= |tr|
  {
    o < n && OpensAt(c, tr, o, t) && forall k :: o < k < n ==> !OpensAt(c, tr, k, t) && !DropsAt(c, tr, k, t)
  }

  function Flowed(x: Ctx, e: Probe, t: Tid): Ctx {
    if IsFlow(e, t) then x.(source := FLOW, tuple := e.flow.value) else x
  }

  /** The context that o opened, with the flow tuples of the send-skb probes since. */
  function CtxAt(c: Ctrl, tr: Trace, o: nat, n: nat, t: Tid): Ctx
    requires o < n <= |tr| && OpensAt(c, tr, o, t)
  {
    if n == o + 1 then CtxOf(tr[o]) else Flowed(CtxAt(c, tr, o, n - 1, t), tr[n - 1], t)
  }

  /** The last send-skb probe on thread t that found a flow between events o and n. */
  ghost predicate LastFlow(tr: Trace, o: nat, k: nat, n: nat, t: Tid)
    requires n <= |tr|
  {
    o < k < n && IsFlow(tr[k], t) && forall j :: k < j < n ==> !IsFlow(tr[j], t)
  }

  ghost predicate FlowSince(tr: Trace, o: nat, n: nat, t: Tid)
    requires n <= |tr|
  {
    exists k :: o < k < n && IsFlow(tr[k], t)
  }

  /** The owner and the time are those of the entry; the tuple is from the flow iff a send-skb probe ran since, else it
      is the entry's own. */
  lemma {:induction false} CtxFacts(c: Ctrl, cpus: nat, tr: Trace, o: nat, n: nat, t: Tid)
    requires o < n <= |tr| && SaneTrace(tr, cpus) && OpensAt(c, tr, o, t)
    ensures var x, e := CtxAt(c, tr, o, n, t), tr[o];
            && x.startTs == e.now > 0 && x.tgid == e.visible.value.0 && x.pid == e.visible.value.1
            && x.comm == e.comm && (x.source == FLOW <==> FlowSince(tr, o, n, t))
            && (x.source != FLOW ==> x.source == e.source && x.tuple == e.tuple)
  {
    if n > o + 1 {
      CtxFacts(c, cpus, tr, o, n - 1, t);
      assert FlowSince(tr, o, n, t) <==> FlowSince(tr, o, n - 1, t) || IsFlow(tr[n - 1], t);
    } else {
      assert Sane(tr[o], cpus);
    }
  }

  /** A tuple from the flow is that of the last send-skb probe. */
  lemma {:induction false} CtxTuple(c: Ctrl, tr: Trace, o: nat, k: nat, n: nat, t: Tid)
    requires n <= |tr| && LastFlow(tr, o, k, n, t) && OpensAt(c, tr, o, t)
    ensures CtxAt(c, tr, o, n, t).tuple == tr[k].flow.value
  {
    if k < n - 1 { CtxTuple(c, tr, o, k, n - 1, t); }
  }

  /** What one step does to the context of t. */
  lemma {:induction false} ContextStep(c: Ctrl, s: State, e: Probe, t: Tid)
    requires Sane(e, |s.stats|) && Nested(c, s)
    ensures var u := Step(c, s, e).start;
            if e.Enter? && e.tid == t && Opens(c, s, e) then t in u && u[t] == CtxOf(e)
            else if e.tid == t && (e.Evict? || (e.Return? && DepthOf(s, t) == 1)) then t !in u
            else (t in u <==> t in s.start) && (t in u ==> u[t] == Flowed(s.start[t], e, t))
  {
  }

  /** Event r turns start_map s into u as far as t is concerned. */
  predicate Moves(c: Ctrl, tr: Trace, r: nat, t: Tid, s: map<Tid, Ctx>, u: map<Tid, Ctx>)
    requires r < |tr|
  {
    if OpensAt(c, tr, r, t) then t in u && u[t] == CtxOf(tr[r])
    else if DropsAt(c, tr, r, t) then t !in u
    else (t in u <==> t in s) && (t in u ==> u[t] == Flowed(s[t], tr[r], t))
  }

  lemma {:induction false} ContextNext(c: Ctrl, cpus: nat, tr: Trace, r: nat, t: Tid)
    requires r < |tr| && SaneTrace(tr, cpus)
    ensures Moves(c, tr, r, t, RunTo(c, cpus, tr, r).start, RunTo(c, cpus, tr, r + 1).start)
  {
    AlwaysNested(c, cpus, tr, r);
    DepthIsReplay(c, cpus, tr, r, t);
    ContextStep(c, RunTo(c, cpus, tr, r), tr[r], t);
  }

  lemma {:induction false} SinceStep(c: Ctrl, tr: Trace, o: nat, n: nat, t: Tid)
    requires 0 < n <= |tr|
    ensures Since(c, tr, o, n, t)
       <==> if OpensAt(c, tr, n - 1, t) then o == n - 1 else Since(c, tr, o, n - 1, t) && !DropsAt(c, tr, n - 1, t)
  {
  }

  /** Map s holds t iff the trace has a current context of t before event n, and it is that context. */
  ghost predicate Replays(c: Ctrl, tr: Trace, n: nat, t: Tid, s: map<Tid, Ctx>)
    requires n <= |tr|
  {
    && (t in s <==> exists o :: Since(c, tr, o, n, t))
    && forall o :: Since(c, tr, o, n, t) ==> s[t] == CtxAt(c, tr, o, n, t)
  }

  lemma {:induction false} ReplayNext(c: Ctrl, tr: Trace, r: nat, t: Tid, s: map<Tid, Ctx>, u: map<Tid, Ctx>)
    requires r < |tr| && Replays(c, tr, r, t, s) && Moves(c, tr, r, t, s, u)
    ensures Replays(c, tr, r + 1, t, u)
  {
    var n := r + 1;
    forall o: nat {:trigger Since(c, tr, o, n, t)} {:trigger Since(c, tr, o, r, t)}
      ensures Since(c, tr, o, n, t)
         <==> if OpensAt(c, tr, r, t) then o == r else Since(c, tr, o, r, t) && !DropsAt(c, tr, r, t)
    {
      SinceStep(c, tr, o, n, t);
    }
    if OpensAt(c, tr, r, t) { assert Since(c, tr, r, n, t); }
  }

  /** In every run start_map is this replay of the trace. */
  lemma {:induction false} ContextIsReplay(c: Ctrl, cpus: nat, tr: Trace, n: nat, t: Tid)
    requires n <= |tr| && SaneTrace(tr, cpus)
    ensures Replays(c, tr, n, t, RunTo(c, cpus, tr, n).start)
  {
    if n > 0 {
      ContextIsReplay(c, cpus, tr, n - 1, t);
      ContextNext(c, cpus, tr, n - 1, t);
      ReplayNext(c, tr, n - 1, t, RunTo(c, cpus, tr, n - 1).start, RunTo(c, cpus, tr, n).start);
    }
  }

  /** A tracked, well-bracketed thread whose context is never evicted has one exactly while it is inside a send. */
  lemma {:induction false} ContextInside(c: Ctrl, cpus: nat, tr: Trace, n: nat, t: Tid)
    requires n <= |tr| && SaneTrace(tr, cpus) && Tracked(c, tr, t) && WellBracketed(tr, t)
    requires forall i :: 0 <= i < n ==> tr[i] != Evict(t)
    ensures t in RunTo(c, cpus, tr, n).start <==> Brackets(tr, n, t) > 0
  {
    if n > 0 {
      ContextInside(c, cpus, tr, n - 1, t);
      ContextNext(c, cpus, tr, n - 1, t);
      InsideNext(c, tr, n - 1, t, RunTo(c, cpus, tr, n - 1).start, RunTo(c, cpus, tr, n).start);
    }
  }

  lemma {:induction false} InsideNext(c: Ctrl, tr: Trace, r: nat, t: Tid, s: map<Tid, Ctx>, u: map<Tid, Ctx>)
    requires r < |tr| && Tracked(c, tr, t) && WellBracketed(tr, t) && tr[r] != Evict(t)
    requires Moves(c, tr, r, t, s, u) && (t in s <==> Brackets(tr, r, t) > 0)
    ensures t in u <==> Brackets(tr, r + 1, t) > 0
  {
    DepthAtIsBrackets(c, tr, r, t);
    assert Brackets(tr, r + 1, t) >= 0;
  }

  // ---------------------------------------------------------------- what is settled, from the trace alone

  /** What an outermost return r settles about the context that o opened. */
  function OutcomeSince(c: Ctrl, tr: Trace, o: nat, r: nat): Outcome
    requires o < r < |tr| && tr[r].Return? && OpensAt(c, tr, o, tr[r].tid)
  {
    var e, ctx := tr[r], CtxAt(c, tr, o, r, tr[r].tid);
    var latency := (e.now - tr[o].now) % 0x1_0000_0000_0000_0000;
    if e.retval < 0 then Failed(ctx)
    else
      var fate := if c.minLatencyNs > 0 && latency < c.minLatencyNs then FILTERED
                  else if e.room then SUBMITTED else DROPPED;
      Counted(ctx, latency, e.retval, fate)
  }

  ghost predicate Live(c: Ctrl, tr: Trace, n: nat, t: Tid)
    requires n <= |tr|
  {
    exists o :: Since(c, tr, o, n, t)
  }

  /** Every outermost return is settled, with its context if that is still there. */
  ghost function Due(c: Ctrl, tr: Trace, r: nat): (x: Option<Outcome>)
    requires r < |tr|
    ensures x.Some? <==> tr[r].Return? && DepthAt(c, tr, r, tr[r].tid) == 1
    ensures x.Some? ==> (x.value.Missed? <==> !Live(c, tr, r, tr[r].tid))
  {
    var e := tr[r];
    if !e.Return? || DepthAt(c, tr, r, e.tid) != 1 then None
    else if Live(c, tr, r, e.tid) then (var o :| Since(c, tr, o, r, e.tid); Some(OutcomeSince(c, tr, o, r)))
    else Some(Missed)
  }

  ghost function DueTo(c: Ctrl, tr: Trace, n: nat): seq<Settlement>
    requires n <= |tr|
  {
    if n == 0 then []
    else DueTo(c, tr, n - 1)
         + if Due(c, tr, n - 1).Some? then NewEntries(tr[n - 1], Due(c, tr, n - 1)) else []
  }

  /** The events that reach the ring buffer: the counted sends that are slow enough and find room. */
  ghost function RingTo(c: Ctrl, tr: Trace, n: nat): seq<Event>
    requires n <= |tr|
  {
    if n == 0 then []
    else
      var x, e := Due(c, tr, n - 1), tr[n - 1];
      RingTo(c, tr, n - 1) + if x.Some? && x.value.Counted? && x.value.fate == SUBMITTED
                             then [Event(e.now, x.value.latency, x.value.ctx, e.retval)] else []
  }

  lemma {:induction false} SinceUnique(c: Ctrl, tr: Trace, o: nat, o': nat, n: nat, t: Tid)
    requires n <= |tr| && Since(c, tr, o, n, t) && Since(c, tr, o', n, t)
    ensures o == o'
  {
    assert OpensAt(c, tr, o, t) && OpensAt(c, tr, o', t);
  }

  lemma {:induction false} DueAt(c: Ctrl, tr: Trace, o: nat, r: nat)
    requires r < |tr| && tr[r].Return? && Since(c, tr, o, r, tr[r].tid) && DepthAt(c, tr, r, tr[r].tid) == 1
    ensures Due(c, tr, r) == Some(OutcomeSince(c, tr, o, r))
  {
    forall o' | Since(c, tr, o', r, tr[r].tid) ensures o' == o {
      SinceUnique(c, tr, o, o', r, tr[r].tid);
    }
  }

  lemma {:induction false} SettledIsDue(c: Ctrl, cpus: nat, tr: Trace, r: nat)
    requires r < |tr| && SaneTrace(tr, cpus) && tr[r].Return?
    ensures Settled(c, RunTo(c, cpus, tr, r), tr[r]) == Due(c, tr, r)
  {
    var t := tr[r].tid;
    DepthIsReplay(c, cpus, tr, r, t);
    ContextIsReplay(c, cpus, tr, r, t);
    if o :| DepthAt(c, tr, r, t) == 1 && Since(c, tr, o, r, t) {
      DueAt(c, tr, o, r);
      CtxFacts(c, cpus, tr, o, r, t);
    }
  }

  /** In every run the settlements and the ring buffer are exactly the due ones, in order. */
  lemma {:induction false} LogIsDue(c: Ctrl, cpus: nat, tr: Trace, n: nat)
    requires n <= |tr| && SaneTrace(tr, cpus)
    ensures RunTo(c, cpus, tr, n).log == DueTo(c, tr, n) && RunTo(c, cpus, tr, n).ring == RingTo(c, tr, n)
  {
    if n > 0 {
      LogIsDue(c, cpus, tr, n - 1);
      if tr[n - 1].Return? { SettledIsDue(c, cpus, tr, n - 1); }
    }
  }

  /** Every settled send has its history: the entry o that opened its context and the return r of the same
      thread, whose times give the latency; its tuple is from the flow iff a send-skb probe ran in between. */
  lemma {:induction false} SettlementOrigin(c: Ctrl, cpus: nat, tr: Trace, n: nat, p: nat) returns (o: nat, r: nat)
    requires n <= |tr| && SaneTrace(tr, cpus)
    requires p < |RunTo(c, cpus, tr, n).log| && !RunTo(c, cpus, tr, n).log[p].outcome.Missed?
    ensures r < n && tr[r].Return? && Since(c, tr, o, r, tr[r].tid)
    ensures RunTo(c, cpus, tr, n).log[p] == Settlement(tr[r].tid, tr[r].cpu, OutcomeSince(c, tr, o, r))
    ensures OutcomeSince(c, tr, o, r).ctx.source == FLOW <==> FlowSince(tr, o, r, tr[r].tid)
  {
    LogIsDue(c, cpus, tr, n);
    o, r := DueOrigin(c, tr, n, p);
    CtxFacts(c, cpus, tr, o, r, tr[r].tid);
  }

  lemma {:induction false} DueOrigin(c: Ctrl, tr: Trace, n: nat, p: nat) returns (o: nat, r: nat)
    requires n <= |tr| && p < |DueTo(c, tr, n)| && !DueTo(c, tr, n)[p].outcome.Missed?
    ensures r < n && tr[r].Return? && Since(c, tr, o, r, tr[r].tid)
    ensures DueTo(c, tr, n)[p] == Settlement(tr[r].tid, tr[r].cpu, OutcomeSince(c, tr, o, r))
  {
    if p < |DueTo(c, tr, n - 1)| {
      o, r := DueOrigin(c, tr, n - 1, p);
    } else {
      r := n - 1;
      o :| Since(c, tr, o, r, tr[r].tid);
      DueAt(c, tr, o, r);
    }
  }

  /** An outermost return of a tracked, well-bracketed thread whose context was not evicted settles as counted or
      failed, never as missed. */
  lemma {:induction false} NeverMissed(c: Ctrl, cpus: nat, tr: Trace, r: nat, t: Tid)
    requires r < |tr| && SaneTrace(tr, cpus) && Tracked(c, tr, t) && WellBracketed(tr, t)
    requires forall i :: 0 <= i < r ==> tr[i] != Evict(t)
    requires tr[r].Return? && tr[r].tid == t && Brackets(tr, r, t) == 1
    ensures var x := Due(c, tr, r); x.Some? && (if tr[r].retval < 0 then x.value.Failed? else x.value.Counted?)
  {
    DepthAtIsBrackets(c, tr, r, t);
    ContextInside(c, cpus, tr, r, t);
    ContextIsReplay(c, cpus, tr, r, t);
  }

  ghost predicate NoMisses(log: seq<Settlement>, t: Tid) {
    forall p :: 0 <= p < |log| && log[p].tid == t ==> !log[p].outcome.Missed?
  }

  lemma {:induction false} NoMissesAppend(log: seq<Settlement>, more: seq<Settlement>, t: Tid)
    requires NoMisses(log, t) && NoMisses(more, t)
    ensures NoMisses(log + more, t)
  {
  }

  /** So in the whole run of such a thread every outermost call is counted or failed. */
  lemma {:induction false} NoneMissed(c: Ctrl, cpus: nat, tr: Trace, n: nat, t: Tid)
    requires n <= |tr| && SaneTrace(tr, cpus) && Tracked(c, tr, t) && WellBracketed(tr, t)
    requires forall i :: 0 <= i < n ==> tr[i] != Evict(t)
    ensures RunTo(c, cpus, tr, n).log == DueTo(c, tr, n) && NoMisses(DueTo(c, tr, n), t)
  {
    LogIsDue(c, cpus, tr, n);
    if n > 0 {
      NoneMissed(c, cpus, tr, n - 1, t);
      var last := Due(c, tr, n - 1);
      if last.Some? {
        if tr[n - 1].tid == t {
          DepthAtIsBrackets(c, tr, n - 1, t);
          NeverMissed(c, cpus, tr, n - 1, t);
        }
        NoMissesAppend(DueTo(c, tr, n - 1), NewEntries(tr[n - 1], last), t);
      } else {
        NoMissesAppend(DueTo(c, tr, n - 1), [], t);
      }
    }
  }

  // ---------------------------------------------------------------- what the other counters mean in the trace

  datatype Sums = Sums(attempted: nat, filteredPid: nat, nested: nat, refused: nat, missed: nat, evicted: nat)

  function One(b: bool): nat { if b then 1 else 0 }

  function PlusSums(a: Sums, b: Sums): Sums {
    Sums(a.attempted + b.attempted, a.filteredPid + b.filteredPid, a.nested + b.nested, a.refused + b.refused,
         a.missed + b.missed, a.evicted + b.evicted)
  }

  /** The share of event e when its thread is at depth d and has a context or not. */
  function ShareOf(c: Ctrl, e: Probe, d: nat, live: bool): Sums {
    var admitted := Wanted(c, e, e.tid);
    Sums(One(admitted && d == 0 && e.depthOk && e.startOk), One(e.Enter? && c.enable && !admitted),
         One(admitted && d > 0), One(admitted && d == 0 && !(e.depthOk && e.startOk)),
         One(e.Return? && c.enable && (d == 0 || (d == 1 && !live))), One(e.Evict? && live))
  }

  ghost function SumsTo(c: Ctrl, tr: Trace, n: nat): Sums
    requires n <= |tr|
  {
    if n == 0 then Sums(0, 0, 0, 0, 0, 0)
    else
      var r, t := n - 1, tr[n - 1].tid;
      PlusSums(SumsTo(c, tr, r), ShareOf(c, tr[r], DepthAt(c, tr, r, t), Live(c, tr, r, t)))
  }

  function AttemptedOf(st: Stats): int { st.attempted }
  function FilteredPidOf(st: Stats): int { st.filteredPid }
  function NestedOf(st: Stats): int { st.nestedCalls }
  function RefusedOf(st: Stats): int { st.mapUpdateFailed }
  function MissedOf(st: Stats): int { st.lookupMissed }

  ghost predicate Tallied(s: State, x: Sums) {
    && Total(s.stats, AttemptedOf) == x.attempted && Total(s.stats, FilteredPidOf) == x.filteredPid
    && Total(s.stats, NestedOf) == x.nested && Total(s.stats, RefusedOf) == x.refused
    && Total(s.stats, MissedOf) == x.missed && s.evicted == x.evicted
  }

  predicate BooksShare(x: Stats, y: Stats, t: Sums) {
    && x.attempted == y.attempted + t.attempted && x.filteredPid == y.filteredPid + t.filteredPid
    && x.nestedCalls == y.nestedCalls + t.nested && x.mapUpdateFailed == y.mapUpdateFailed + t.refused
    && x.lookupMissed == y.lookupMissed + t.missed
  }

  lemma {:induction false} StepBooks(c: Ctrl, s: State, e: Probe)
    requires Sane(e, |s.stats|) && Nested(c, s)
    ensures var t, x := Step(c, s, e), ShareOf(c, e, DepthOf(s, e.tid), e.tid in s.start);
            && t.evicted == s.evicted + x.evicted
            && (if e.SendSkb? || e.Evict?
                then t.stats == s.stats && x.attempted == x.filteredPid == x.nested == x.refused == x.missed == 0
                else t.stats == s.stats[e.cpu := t.stats[e.cpu]] && BooksShare(t.stats[e.cpu], s.stats[e.cpu], x))
  {
  }

  lemma {:induction false} BookedTallies(s: State, t: State, sums: Sums, cpu: nat, x: Sums)
    requires Tallied(s, sums) && cpu < |s.stats| == |t.stats| && t.stats == s.stats[cpu := t.stats[cpu]]
    requires BooksShare(t.stats[cpu], s.stats[cpu], x) && t.evicted == s.evicted + x.evicted
    ensures Tallied(t, PlusSums(sums, x))
  {
    var y := t.stats[cpu];
    TotalSet(s.stats, AttemptedOf, cpu, y);
    TotalSet(s.stats, FilteredPidOf, cpu, y);
    TotalSet(s.stats, NestedOf, cpu, y);
    TotalSet(s.stats, RefusedOf, cpu, y);
    TotalSet(s.stats, MissedOf, cpu, y);
  }

  lemma {:induction false} InitTallied(cpus: nat)
    ensures Tallied(Init(cpus), Sums(0, 0, 0, 0, 0, 0))
  {
    var z := Zeros(cpus);
    TotalZero(z, AttemptedOf);
    TotalZero(z, FilteredPidOf);
    TotalZero(z, NestedOf);
    TotalZero(z, RefusedOf);
    TotalZero(z, MissedOf);
  }

  lemma {:induction false} TalliesStep(c: Ctrl, cpus: nat, tr: Trace, r: nat, sums: Sums)
    requires r < |tr| && SaneTrace(tr, cpus) && Tallied(RunTo(c, cpus, tr, r), sums)
    ensures var t := tr[r].tid;
            var x := ShareOf(c, tr[r], DepthAt(c, tr, r, t), Live(c, tr, r, t));
            Tallied(RunTo(c, cpus, tr, r + 1), PlusSums(sums, x))
  {
    var s, e := RunTo(c, cpus, tr, r), tr[r];
    AlwaysNested(c, cpus, tr, r);
    DepthIsReplay(c, cpus, tr, r, e.tid);
    ContextIsReplay(c, cpus, tr, r, e.tid);
    StepBooks(c, s, e);
    if e.Enter? || e.Return? {
      BookedTallies(s, Step(c, s, e), sums, e.cpu, ShareOf(c, e, DepthOf(s, e.tid), e.tid in s.start));
    }
  }

  /** In every run attempts are the entries that open a context, evictions those that hit a current one, and the
      filtered, nested, refused and missed calls are the events of these kinds in the trace. */
  lemma {:induction false} TotalsAreTrace(c: Ctrl, cpus: nat, tr: Trace, n: nat)
    requires n <= |tr| && SaneTrace(tr, cpus)
    ensures Tallied(RunTo(c, cpus, tr, n), SumsTo(c, tr, n))
  {
    if n == 0 {
      InitTallied(cpus);
    } else {
      TotalsAreTrace(c, cpus, tr, n - 1);
      TalliesStep(c, cpus, tr, n - 1, SumsTo(c, tr, n - 1));
    }
  }

  /** The send-skb probe of a nested call does find the outer context and overwrites its tuple. */
  lemma {:induction false} NestedFlowOverwrites(c: Ctrl, cpus: nat, outer: Probe, inner: Probe, flow: Tuple)
    requires outer.Enter? && inner.Enter? && inner.tid == outer.tid && Sane(outer, cpus) && Sane(inner, cpus)
    requires Admitted(c, outer.visible) && outer.depthOk && outer.startOk && Admitted(c, inner.visible)
    ensures var tr := [outer, inner, SendSkb(outer.tid, Some(flow))];
            && SaneTrace(tr, cpus)
            && outer.tid in RunTo(c, cpus, tr, 3).depth && outer.tid in RunTo(c, cpus, tr, 3).start
            && RunTo(c, cpus, tr, 3).depth[outer.tid] == 2
            && RunTo(c, cpus, tr, 3).start[outer.tid] == CtxOf(outer).(source := FLOW, tuple := flow)
  {
    var tr := [outer, inner, SendSkb(outer.tid, Some(flow))];
    var s1 := RunTo(c, cpus, tr, 1);
    assert s1 == EnterStep(c, RunTo(c, cpus, tr, 0), outer);
    var s2 := RunTo(c, cpus, tr, 2);
    assert s2 == EnterStep(c, s1, inner) && s2.start == s1.start;
  }

  // ---------------------------------------------------------------- sums over the settlements

  /** The shares of one settlement in the counters. */
  function Sends(x: Settlement): int { if x.outcome.Counted? then 1 else 0 }
  function Failures(x: Settlement): int { if x.outcome.Failed? then 1 else 0 }
  function Latency(x: Settlement): int { if x.outcome.Counted? then x.outcome.latency else 0 }
  function Bytes(x: Settlement): int { if x.outcome.Counted? then x.outcome.bytes else 0 }

  function Flows(x: Settlement): int { if x.outcome.Counted? && x.outcome.ctx.source == FLOW then 1 else 0 }
  function Fallbacks(x: Settlement): int { if x.outcome.Counted? && x.outcome.ctx.source != FLOW then 1 else 0 }
  function Quick(x: Settlement): int { if x.outcome.Counted? && x.outcome.fate == FILTERED then 1 else 0 }
  function Drops(x: Settlement): int { if x.outcome.Counted? && x.outcome.fate == DROPPED then 1 else 0 }

  function CountOf(st: Stats): int { st.count }
  function FailedOf(st: Stats): int { st.failed }
  function NsOf(st: Stats): int { st.totalNs }
  function BytesOf(st: Stats): int { st.totalBytes }
  function FlowsOf(st: Stats): int { st.flowTuple }
  function FallbacksOf(st: Stats): int { st.fallbackTuple }
  function QuickOf(st: Stats): int { st.filteredLatency }
  function DropsOf(st: Stats): int { st.ringbufDropped }

  /** Summed over CPUs, the counters are the number of sends and failures, of sends with and without a flow tuple, of
      filtered and dropped events, and the sums of latencies and bytes, over all settlements. */
  ghost predicate Exact(s: State) {
    && Total(s.stats, CountOf) == Total(s.log, Sends) && Total(s.stats, FailedOf) == Total(s.log, Failures)
    && Total(s.stats, NsOf) == Total(s.log, Latency) && Total(s.stats, BytesOf) == Total(s.log, Bytes)
    && Total(s.stats, FlowsOf) == Total(s.log, Flows) && Total(s.stats, FallbacksOf) == Total(s.log, Fallbacks)
    && Total(s.stats, QuickOf) == Total(s.log, Quick) && Total(s.stats, DropsOf) == Total(s.log, Drops)
  }

  /** Record x on one CPU differs from y by the share of the settlements in new. */
  predicate Books(x: Stats, y: Stats, new_: seq<Settlement>) {
    |new_| <= 1 &&
    if new_ == []
    then && x.count == y.count && x.failed == y.failed
         && x.totalNs == y.totalNs && x.totalBytes == y.totalBytes
         && x.flowTuple == y.flowTuple && x.fallbackTuple == y.fallbackTuple
         && x.filteredLatency == y.filteredLatency && x.ringbufDropped == y.ringbufDropped
    else && x.count == y.count + Sends(new_[0]) && x.failed == y.failed + Failures(new_[0])
         && x.totalNs == y.totalNs + Latency(new_[0]) && x.totalBytes == y.totalBytes + Bytes(new_[0])
         && x.flowTuple == y.flowTuple + Flows(new_[0]) && x.fallbackTuple == y.fallbackTuple + Fallbacks(new_[0])
         && x.filteredLatency == y.filteredLatency + Quick(new_[0])
         && x.ringbufDropped == y.ringbufDropped + Drops(new_[0])
  }

  lemma {:induction false} TotalLog(log: seq<Settlement>, new_: seq<Settlement>, f: Settlement -> int)
    requires |new_| <= 1
    ensures Total(log + new_, f) == Total(log, f) + if new_ == [] then 0 else f(new_[0])
  {
    if new_ == [] {
      assert log + new_ == log;
    } else {
      assert (log + new_)[..|log|] == log;
    }
  }

  lemma {:induction false} BookedExact(s: State, t: State, cpu: nat, x: Stats, new_: seq<Settlement>)
    requires Exact(s) && cpu < |s.stats| && t.stats == s.stats[cpu := x] && t.log == s.log + new_
    requires Books(x, s.stats[cpu], new_)
    ensures Exact(t)
  {
    TotalSet(s.stats, CountOf, cpu, x);
    TotalSet(s.stats, FailedOf, cpu, x);
    TotalSet(s.stats, NsOf, cpu, x);
    TotalSet(s.stats, BytesOf, cpu, x);
    TotalSet(s.stats, FlowsOf, cpu, x);
    TotalSet(s.stats, FallbacksOf, cpu, x);
    TotalSet(s.stats, QuickOf, cpu, x);
    TotalSet(s.stats, DropsOf, cpu, x);
    TotalLog(s.log, new_, Sends);
    TotalLog(s.log, new_, Failures);
    TotalLog(s.log, new_, Latency);
    TotalLog(s.log, new_, Bytes);
    TotalLog(s.log, new_, Flows);
    TotalLog(s.log, new_, Fallbacks);
    TotalLog(s.log, new_, Quick);
    TotalLog(s.log, new_, Drops);
  }

  function NewEntries(e: Probe, o: Option<Outcome>): seq<Settlement>
    requires e.Return?
  {
    if o.Some? then [Settlement(e.tid, e.cpu, o.value)] else []
  }

  lemma {:induction false} ReturnBooked(c: Ctrl, st: Stats, s: State, e: Probe)
    requires e.Return? && (c.enable || s.depth == map[])
    ensures Books(ReturnStats(c, st, s, e), st, NewEntries(e, Settled(c, s, e)))
  {
  }

  lemma {:induction false} ExactStep(c: Ctrl, s: State, e: Probe)
    requires Sane(e, |s.stats|) && Nested(c, s) && Exact(s)
    ensures Exact(Step(c, s, e))
  {
    match e
    case Enter(_, _, _, _, _, _, _, _, _) =>
      assert s.log + [] == s.log;
      BookedExact(s, EnterStep(c, s, e), e.cpu, EnterStats(c, s.stats[e.cpu], e.tid in s.depth, e), []);
    case Return(_, _, _, _, _) =>
      ReturnBooked(c, s.stats[e.cpu], s, e);
      BookedExact(s, ReturnStep(c, s, e), e.cpu, ReturnStats(c, s.stats[e.cpu], s, e), NewEntries(e, Settled(c, s, e)));
    case _ =>
  }

  lemma {:induction false} ExactInit(cpus: nat)
    ensures Exact(Init(cpus))
  {
    var stats := Zeros(cpus);
    TotalZero(stats, CountOf);
    TotalZero(stats, FailedOf);
    TotalZero(stats, NsOf);
    TotalZero(stats, BytesOf);
    TotalZero(stats, FlowsOf);
    TotalZero(stats, FallbacksOf);
    TotalZero(stats, QuickOf);
    TotalZero(stats, DropsOf);
  }

  /** In every run the counters are exact, whatever the threshold and the ring buffer do. */
  lemma {:induction false} AlwaysExact(c: Ctrl, cpus: nat, tr: Trace, n: nat)
    requires n <= |tr| && SaneTrace(tr, cpus)
    ensures Exact(RunTo(c, cpus, tr, n))
  {
    if n == 0 {
      ExactInit(cpus);
    } else {
      AlwaysExact(c, cpus, tr, n - 1);
      AlwaysNested(c, cpus, tr, n - 1);
      ExactStep(c, RunTo(c, cpus, tr, n - 1), tr[n - 1]);
    }
  }

  // ---------------------------------------------------------------- the merged report

  /** One pass of the merge loop of print_stats. */
  function Add(s: Stats, v: Stats): Stats {
    Stats(s.attempted + v.attempted, s.count + v.count, s.failed + v.failed, s.totalNs + v.totalNs,
          s.totalBytes + v.totalBytes, s.filteredPid + v.filteredPid, s.filteredLatency + v.filteredLatency,
          s.ringbufDropped + v.ringbufDropped, s.mapUpdateFailed + v.mapUpdateFailed,
          s.lookupMissed + v.lookupMissed, s.nestedCalls + v.nestedCalls, s.flowTuple + v.flowTuple,
          s.fallbackTuple + v.fallbackTuple, if v.maxNs > s.maxNs then v.maxNs else s.maxNs,
          if v.maxNs > s.maxNs then v.maxPid else s.maxPid, if v.maxNs > s.maxNs then v.maxTid else s.maxTid,
          if v.maxNs > s.maxNs then v.maxComm else s.maxComm)
  }

  /** The sum of the first n records, from the blank record. */
  function Merged(zero: Stats, stats: seq<Stats>, n: nat): Stats
    requires n <= |stats|
  {
    if n == 0 then zero else Add(Merged(zero, stats, n - 1), stats[n - 1])
  }

  /** The merge loop of print_stats (net/udp_monitor/user.c:91-114). */
  method MergeStats(stats: seq<Stats>) returns (s: Stats)
    ensures forall zero :: Blank(zero) ==> s == Merged(zero, stats, |stats|)
  {
    var blank := Zeros(1);
    ghost var zero := blank[0];
    s := blank[0];
    var cpu := 0;
    while cpu < |stats|
      invariant 0 <= cpu <= |stats| && s == Merged(zero, stats, cpu)
    {
      var v := stats[cpu];
      var t := s.(
        attempted := s.attempted + v.attempted, count := s.count + v.count, failed := s.failed + v.failed,
        totalNs := s.totalNs + v.totalNs, totalBytes := s.totalBytes + v.totalBytes,
        filteredPid := s.filteredPid + v.filteredPid, filteredLatency := s.filteredLatency + v.filteredLatency,
        ringbufDropped := s.ringbufDropped + v.ringbufDropped, mapUpdateFailed := s.mapUpdateFailed + v.mapUpdateFailed,
        lookupMissed := s.lookupMissed + v.lookupMissed, nestedCalls := s.nestedCalls + v.nestedCalls,
        flowTuple := s.flowTuple + v.flowTuple, fallbackTuple := s.fallbackTuple + v.fallbackTuple);
      if v.maxNs > s.maxNs {
        t := t.(maxNs := v.maxNs, maxPid := v.maxPid, maxTid := v.maxTid, maxComm := v.maxComm);
      }
      s := t;
      cpu := cpu + 1;
    }
  }

  /** Field by field, the merged record is the sum over the CPUs. */
  ghost predicate SumsUp(m: Stats, stats: seq<Stats>) {
    && m.count == Total(stats, CountOf) && m.failed == Total(stats, FailedOf)
    && m.totalNs == Total(stats, NsOf) && m.totalBytes == Total(stats, BytesOf)
    && m.flowTuple == Total(stats, FlowsOf) && m.fallbackTuple == Total(stats, FallbacksOf)
    && m.filteredLatency == Total(stats, QuickOf) && m.ringbufDropped == Total(stats, DropsOf)
    && m.attempted == Total(stats, AttemptedOf) && m.filteredPid == Total(stats, FilteredPidOf)
    && m.nestedCalls == Total(stats, NestedOf) && m.mapUpdateFailed == Total(stats, RefusedOf)
    && m.lookupMissed == Total(stats, MissedOf)
  }

  lemma {:induction false} AddSums(m: Stats, stats: seq<Stats>, v: Stats)
    requires SumsUp(m, stats)
    ensures SumsUp(Add(m, v), stats + [v])
  {
    assert (stats + [v])[..|stats|] == stats;
  }

  lemma {:induction false} MergedTotals(zero: Stats, stats: seq<Stats>, n: nat)
    requires Blank(zero) && n <= |stats|
    ensures SumsUp(Merged(zero, stats, n), stats[..n])
  {
    if n > 0 {
      MergedTotals(zero, stats, n - 1);
      AddSums(Merged(zero, stats, n - 1), stats[..n - 1], stats[n - 1]);
      assert stats[..n] == stats[..n - 1] + [stats[n - 1]];
    }
  }

  /** x is a counted send whose latency and owner are the maximum recorded in st. */
  predicate IsMax(st: Stats, x: Settlement) {
    x.outcome.Counted? && x.outcome.latency == st.maxNs
    && x.outcome.ctx.tgid == st.maxPid && x.outcome.ctx.pid == st.maxTid && x.outcome.ctx.comm == st.maxComm
  }

  /** The maximum in st bounds every counted send settled on the given CPU, and a positive one is real. */
  ghost predicate MaxOn(log: seq<Settlement>, st: Stats, cpu: nat) {
    && (forall p :: 0 <= p < |log| && log[p].cpu == cpu && log[p].outcome.Counted? ==>
          log[p].outcome.latency <= st.maxNs)
    && (st.maxNs > 0 ==> exists p :: 0 <= p < |log| && IsMax(st, log[p]))
  }

  ghost predicate AllMaxes(s: State) { forall i :: 0 <= i < |s.stats| ==> MaxOn(s.log, s.stats[i], i) }

  predicate SameMax(a: Stats, b: Stats) {
    a.maxNs == b.maxNs && a.maxPid == b.maxPid && a.maxTid == b.maxTid && a.maxComm == b.maxComm
  }

  /** Appending to the log, with the CPU's maximum updated to match. */
  lemma {:induction false} MaxAppend(log: seq<Settlement>, st: Stats, cpu: nat, x: Settlement, st': Stats)
    requires MaxOn(log, st, cpu)
    requires if x.cpu == cpu && x.outcome.Counted? && x.outcome.latency > st.maxNs
             then IsMax(st', x) else SameMax(st, st')
    ensures MaxOn(log + [x], st', cpu)
  {
    var log' := log + [x];
    if st'.maxNs > 0 {
      if SameMax(st, st') {
        var p :| 0 <= p < |log| && IsMax(st, log[p]);
        assert IsMax(st', log'[p]);
      } else {
        assert IsMax(st', log'[|log|]);
      }
    }
  }

  lemma {:induction false} MaxSame(log: seq<Settlement>, st: Stats, cpu: nat, st': Stats)
    requires MaxOn(log, st, cpu) && SameMax(st, st')
    ensures MaxOn(log, st', cpu)
  {
    if st'.maxNs > 0 {
      var p :| 0 <= p < |log| && IsMax(st, log[p]);
      assert IsMax(st', log[p]);
    }
  }

  lemma {:induction false} MaxStep(c: Ctrl, s: State, e: Probe)
    requires Sane(e, |s.stats|) && AllMaxes(s)
    ensures AllMaxes(Step(c, s, e))
  {
    var s' := Step(c, s, e);
    forall i | 0 <= i < |s'.stats| ensures MaxOn(s'.log, s'.stats[i], i) {
      assert MaxOn(s.log, s.stats[i], i);
      if e.Return? && Settled(c, s, e).Some? {
        MaxAppend(s.log, s.stats[i], i, Settlement(e.tid, e.cpu, Settled(c, s, e).value), s'.stats[i]);
      } else {
        assert s'.log == s.log;
        MaxSame(s.log, s.stats[i], i, s'.stats[i]);
      }
    }
  }

  lemma {:induction false} AlwaysMaxes(c: Ctrl, cpus: nat, tr: Trace, n: nat)
    requires n <= |tr| && SaneTrace(tr, cpus)
    ensures AllMaxes(RunTo(c, cpus, tr, n))
  {
    if n > 0 {
      AlwaysMaxes(c, cpus, tr, n - 1);
      MaxStep(c, RunTo(c, cpus, tr, n - 1), tr[n - 1]);
    }
  }

  lemma {:induction false} MergedMax(zero: Stats, log: seq<Settlement>, stats: seq<Stats>, n: nat)
    requires Blank(zero) && n <= |stats| && forall i :: 0 <= i < n ==> MaxOn(log, stats[i], i)
    ensures var m := Merged(zero, stats, n);
            forall p :: 0 <= p < |log| && log[p].cpu < n && log[p].outcome.Counted? ==>
              log[p].outcome.latency <= m.maxNs
    ensures Merged(zero, stats, n).maxNs > 0 ==> exists p :: 0 <= p < |log| && IsMax(Merged(zero, stats, n), log[p])
  {
    if n > 0 {
      MergedMax(zero, log, stats, n - 1);
      var a, v, m := Merged(zero, stats, n - 1), stats[n - 1], Merged(zero, stats, n);
      if m.maxNs > 0 {
        if v.maxNs > a.maxNs {
          var p :| 0 <= p < |log| && IsMax(v, log[p]);
          assert IsMax(m, log[p]);
        } else {
          var p :| 0 <= p < |log| && IsMax(a, log[p]);
          assert IsMax(m, log[p]);
        }
      }
    }
  }

  lemma {:induction false} LogOnCpus(c: Ctrl, cpus: nat, tr: Trace, n: nat)
    requires n <= |tr| && SaneTrace(tr, cpus)
    ensures forall p :: 0 <= p < |RunTo(c, cpus, tr, n).log| ==> RunTo(c, cpus, tr, n).log[p].cpu < cpus
  {
    if n > 0 { LogOnCpus(c, cpus, tr, n - 1); }
  }

  /** What the printed report says about the settlements, in whatever order they came. */
  ghost predicate Reports(m: Stats, log: seq<Settlement>) {
    && m.count == Total(log, Sends) && m.failed == Total(log, Failures)
    && m.totalNs == Total(log, Latency) && m.totalBytes == Total(log, Bytes)
    && m.flowTuple == Total(log, Flows) && m.fallbackTuple == Total(log, Fallbacks)
    && m.filteredLatency == Total(log, Quick) && m.ringbufDropped == Total(log, Drops)
    && (forall p :: 0 <= p < |log| && log[p].outcome.Counted? ==> log[p].outcome.latency <= m.maxNs)
    && (m.maxNs > 0 ==> exists p :: 0 <= p < |log| && IsMax(m, log[p]))
  }

  /** The printed report of any run.  Sends, failures, latencies, bytes, tuple sources, filtered and dropped events are
      those of the settlements that the trace makes due, and the maximum is one real send of maximal latency with its
      own ids.  Attempts, filtered, nested, refused and missed calls are the events of these kinds in the trace.  And
      attempts = counted + failed + live + evicted; counted = flow + fallback = submitted + filtered + dropped. */
  lemma {:induction false} MergedReport(c: Ctrl, cpus: nat, tr: Trace, n: nat, zero: Stats)
    requires Blank(zero) && n <= |tr| && SaneTrace(tr, cpus)
    ensures var s := RunTo(c, cpus, tr, n);
            var m, x := Merged(zero, s.stats, cpus), SumsTo(c, tr, n);
            && Reports(m, DueTo(c, tr, n))
            && m.attempted == x.attempted && m.filteredPid == x.filteredPid && m.nestedCalls == x.nested
            && m.mapUpdateFailed == x.refused && m.lookupMissed == x.missed
            && m.attempted == m.count + m.failed + |s.start.Keys| + x.evicted
            && m.count == m.flowTuple + m.fallbackTuple == |RingTo(c, tr, n)| + m.filteredLatency + m.ringbufDropped
  {
    var s := RunTo(c, cpus, tr, n);
    AlwaysBalanced(c, cpus, tr, n);
    AlwaysMaxes(c, cpus, tr, n);
    LogOnCpus(c, cpus, tr, n);
    LogIsDue(c, cpus, tr, n);
    TotalsAreTrace(c, cpus, tr, n);
    AlwaysExact(c, cpus, tr, n);
    MergedTotals(zero, s.stats, cpus);
    MergedMax(zero, s.log, s.stats, cpus);
    assert s.stats[..cpus] == s.stats;
    BooksSplit(s.stats);
    SourcesAdd(s.log);
  }

  lemma {:induction false} BooksSplit(stats: seq<Stats>)
    ensures Total(stats, Open) == Total(stats, AttemptedOf) - Total(stats, CountOf) - Total(stats, FailedOf)
    ensures Total(stats, Submitted) == Total(stats, CountOf) - Total(stats, QuickOf) - Total(stats, DropsOf)
  {
    if stats != [] { BooksSplit(stats[..|stats| - 1]); }
  }

  lemma {:induction false} SourcesAdd(log: seq<Settlement>)
    ensures Total(log, Sends) == Total(log, Flows) + Total(log, Fallbacks)
  {
    if log != [] { SourcesAdd(log[..|log| - 1]); }
  }
}
