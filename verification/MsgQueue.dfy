/**
  The POSIX message-queue lifecycle tracker (ipc/msgqueue/msgqueue.bpf.c).

  Eight probes fire on any thread and CPU.  They carry the metadata of one kernel
  message, keyed by its address, through three LRU maps and classify its delivery
  as QUEUED or DIRECT.  A run is any sequence of probe firings and LRU evictions;
  whether a map update or a ring-buffer reservation succeeds is part of the event.
*/
module MsgQueue {
  import opened Wrappers

  type Tid = nat   // pid_tgid of a kernel thread
  type Key = nat   // address of a struct msg_msg

  const U64: nat := 0x1_0000_0000_0000_0000

  /** ERR_PTR values occupy the last 4095 addresses. */
  predicate ValidMsgPtr(p: Key) { p != 0 && p < U64 - 4095 }

  /** An unsigned 64-bit difference. */
  function Elapsed(now: nat, since: nat): (r: int)
    ensures 0 <= r < 0x1_0000_0000_0000_0000
    ensures since <= now < since + 0x1_0000_0000_0000_0000 ==> r == now - since
  {
    (now - since) % U64
  }

  datatype Ctrl = Ctrl(enable: bool, minDelayNs: nat, targetPid: int)
  datatype Meta = Meta(msgLen: nat, senderPid: int, mqdes: int, prio: nat, comm: string)
  datatype SendCtx = SendCtx(msgKey: Key, meta: Meta)
  datatype RecvCtx = RecvCtx(pid: int, mqdes: int, comm: string)
  datatype QueuedMsg = QueuedMsg(enqueueNs: nat, meta: Meta)
  datatype Kind = QUEUED | DIRECT

  /** A ring-buffer record: the sender's and the receiver's halves side by side. */
  datatype Event = Event(ts: nat, residence: int, meta: Meta, receiver: RecvCtx, kind: Kind)

  datatype Stats = Stats(queuedCount: nat, queuedTotalNs: int, queuedMaxNs: int, directCount: nat,
                         unmatched: nat, trackingDrop: nat, ringbufDrop: nat)

  /** One message reported to the statistics; the log of these is the observer's record of a run. */
  datatype Delivery = Delivery(key: Key, kind: Kind, residence: int, meta: Meta, receiver: RecvCtx, ts: nat, room: bool)

  /** What the probes put out: counters, ring-buffer records, and the log of reports. */
  datatype Output = Output(stats: Stats, ring: seq<Event>, log: seq<Delivery>)

  datatype State = State(
    sends: map<Tid, SendCtx>, recvs: map<Tid, RecvCtx>,
    pending: map<Key, Meta>, queued: map<Key, QueuedMsg>, direct: map<Key, Meta>,
    out: Output)

  /** `ok` tells whether the probe's map update succeeds, `room` whether the ring buffer has space. */
  datatype Probe =
    | SendEnter(tid: Tid, tgid: int, mqdes: int, msgLen: nat, prio: nat, comm: string, ok: bool)
    | LoadMsgExit(tid: Tid, msg: Key, ok: bool)
    | MsgInsertExit(msg: Key, ret: int, now: nat, ok: bool)
    | RecvEnter(tid: Tid, tgid: int, mqdes: int, comm: string, ok: bool)
    | StoreMsg(tid: Tid, msg: Key, now: nat, room: bool)
    | FreeMsg(tid: Tid, msg: Key, now: nat, room: bool)
    | SendExit(tid: Tid, ret: int, ok: bool)
    | RecvExit(tid: Tid)
    | EvictPending(msg: Key)
    | EvictQueued(msg: Key)
    | EvictDirect(msg: Key)

  type Trace = seq<Probe>

  function Init(): State {
    State(map[], map[], map[], map[], map[], Output(Stats(0, 0, 0, 0, 0, 0, 0), [], []))
  }

  predicate PidMatches(c: Ctrl, senderPid: int, receiverPid: int) {
    c.targetPid == 0 || c.targetPid == senderPid || c.targetPid == receiverPid
  }

  function Max(a: int, b: int): (r: int)
    ensures r >= a && r >= b && (r == a || r == b)
  {
    if a >= b then a else b
  }

  function CountDrop(o: Output): Output {
    o.(stats := o.stats.(trackingDrop := o.stats.trackingDrop + 1))
  }

  function Emit(o: Output, e: Event, room: bool): Output {
    if room then o.(ring := o.ring + [e])
    else o.(stats := o.stats.(ringbufDrop := o.stats.ringbufDrop + 1))
  }

  function SubmitQueued(c: Ctrl, o: Output, k: Key, q: QueuedMsg, r: RecvCtx, now: nat, room: bool): Output {
    if !c.enable || !PidMatches(c, q.meta.senderPid, r.pid) then o
    else
      var residence := Elapsed(now, q.enqueueNs);
      var o1 := o.(
        log := o.log + [Delivery(k, QUEUED, residence, q.meta, r, now, room)],
        stats := o.stats.(queuedCount := o.stats.queuedCount + 1,
                          queuedTotalNs := o.stats.queuedTotalNs + residence,
                          queuedMaxNs := Max(o.stats.queuedMaxNs, residence)));
      if c.minDelayNs != 0 && residence < c.minDelayNs then o1
      else Emit(o1, Event(now, residence, q.meta, r, QUEUED), room)
  }

  function SubmitDirect(c: Ctrl, o: Output, k: Key, m: Meta, r: RecvCtx, now: nat, room: bool): Output {
    if !c.enable || !PidMatches(c, m.senderPid, r.pid) then o
    else
      var o1 := o.(log := o.log + [Delivery(k, DIRECT, 0, m, r, now, room)],
                   stats := o.stats.(directCount := o.stats.directCount + 1));
      if c.minDelayNs != 0 then o1
      else Emit(o1, Event(now, 0, m, r, DIRECT), room)
  }

  function Consume(c: Ctrl, s: State, tid: Tid, k: Key, countUnmatched: bool, now: nat, room: bool): State {
    if k == 0 then s
    else if k in s.queued then
      s.(queued := s.queued - {k},
         out := if tid in s.recvs then SubmitQueued(c, s.out, k, s.queued[k], s.recvs[tid], now, room) else s.out)
    else if k in s.direct then
      s.(direct := s.direct - {k},
         out := if tid in s.recvs then SubmitDirect(c, s.out, k, s.direct[k], s.recvs[tid], now, room) else s.out)
    else if k in s.pending && tid in s.recvs then
      s.(pending := s.pending - {k},
         out := SubmitDirect(c, s.out, k, s.pending[k], s.recvs[tid], now, room))
    else if tid in s.recvs && countUnmatched && c.enable
            && (c.targetPid == 0 || c.targetPid == s.recvs[tid].pid) then
      s.(out := s.out.(stats := s.out.stats.(unmatched := s.out.stats.unmatched + 1)))
    else s
  }

  function Insert(s: State, k: Key, now: nat, ok: bool): State
    requires k in s.pending
  {
    s.(pending := s.pending - {k},
       queued := if ok then s.queued[k := QueuedMsg(now, s.pending[k])] else s.queued,
       out := if ok then s.out else CountDrop(s.out))
  }

  function Return(s: State, tid: Tid, ret: int, ok: bool): State
    requires tid in s.sends
  {
    var k := s.sends[tid].msgKey;
    if k == 0 || k !in s.pending then s.(sends := s.sends - {tid})
    else s.(sends := s.sends - {tid}, pending := s.pending - {k},
            direct := if ret == 0 && ok then s.direct[k := s.pending[k]] else s.direct,
            out := if ret == 0 && !ok then CountDrop(s.out) else s.out)
  }

  /** One atomic probe firing or one LRU eviction. */
  function Step(c: Ctrl, s: State, e: Probe): State {
    match e
    case SendEnter(tid, tgid, mqdes, msgLen, prio, comm, ok) =>
      if !c.enable || tgid == 0 then s
      else if ok then s.(sends := s.sends[tid := SendCtx(0, Meta(msgLen, tgid, mqdes, prio, comm))])
      else s.(out := CountDrop(s.out))
    case LoadMsgExit(tid, k, ok) =>
      if !ValidMsgPtr(k) || tid !in s.sends then s
      else if !ok then s.(out := CountDrop(s.out))
      else s.(pending := s.pending[k := s.sends[tid].meta],
              sends := s.sends[tid := s.sends[tid].(msgKey := k)])
    case MsgInsertExit(k, ret, now, ok) =>
      if ret != 0 || k == 0 || k !in s.pending then s else Insert(s, k, now, ok)
    case RecvEnter(tid, tgid, mqdes, comm, ok) =>
      if !c.enable || tgid == 0 then s
      else if ok then s.(recvs := s.recvs[tid := RecvCtx(tgid, mqdes, comm)])
      else s.(out := CountDrop(s.out))
    case StoreMsg(tid, k, now, room) => Consume(c, s, tid, k, true, now, room)
    case FreeMsg(tid, k, now, room) => Consume(c, s, tid, k, false, now, room)
    case SendExit(tid, ret, ok) => if tid !in s.sends then s else Return(s, tid, ret, ok)
    case RecvExit(tid) => s.(recvs := s.recvs - {tid})
    case EvictPending(k) => s.(pending := s.pending - {k})
    case EvictQueued(k) => s.(queued := s.queued - {k})
    case EvictDirect(k) => s.(direct := s.direct - {k})
  }

  /** The state after the first n events of a trace. */
  function RunTo(c: Ctrl, tr: Trace, n: nat): State
    requires n <= |tr|
  {
    if n == 0 then Init() else Step(c, RunTo(c, tr, n - 1), tr[n - 1])
  }

  // ---------------------------------------------------------------- the probes as they run

  /** The BPF object: five maps and the statistics, updated in place by the probes. */
  class Tracker {
    const ctrl: Ctrl
    var sends: map<Tid, SendCtx>
    var recvs: map<Tid, RecvCtx>
    var pending: map<Key, Meta>
    var queued: map<Key, QueuedMsg>
    var direct: map<Key, Meta>
    var stats: Stats
    var ring: seq<Event>
    ghost var log: seq<Delivery>

    ghost function View(): State
      reads this
    {
      State(sends, recvs, pending, queued, direct, Output(stats, ring, log))
    }

    constructor (c: Ctrl)
      ensures ctrl == c && View() == Init()
    {
      ctrl := c;
      sends, recvs, pending, queued, direct := map[], map[], map[], map[], map[];
      stats, ring, log := Stats(0, 0, 0, 0, 0, 0, 0), [], [];
    }

    /** The bounded retry loop, run without interference (MaxUpdate treats interference). */
    method StatsUpdateMax(candidate: int)
      modifies this`stats
      ensures stats == old(stats).(queuedMaxNs := Max(old(stats.queuedMaxNs), candidate))
    {
      var i, done := 0, false;
      while i < 16 && !done
        decreases 16 - i, !done
        invariant !done ==> i == 0 && stats == old(stats)
        invariant done ==> stats == old(stats).(queuedMaxNs := Max(old(stats.queuedMaxNs), candidate))
      {
        var seen := stats.queuedMaxNs;
        if candidate <= seen {
          done := true;
        } else if stats.queuedMaxNs == seen {
          stats := stats.(queuedMaxNs := candidate);
          done := true;
        } else {
          i := i + 1;
        }
      }
    }

    method MqSendEnter(tid: Tid, tgid: int, mqdes: int, msgLen: nat, prio: nat, comm: string, ok: bool)
      modifies this
      ensures View() == Step(ctrl, old(View()), SendEnter(tid, tgid, mqdes, msgLen, prio, comm, ok))
    {
      if !ctrl.enable { return; }
      if tgid == 0 { return; }
      if ok {
        sends := sends[tid := SendCtx(0, Meta(msgLen, tgid, mqdes, prio, comm))];
      } else {
        stats := stats.(trackingDrop := stats.trackingDrop + 1);
      }
    }

    method MqLoadMsgExit(tid: Tid, msg: Key, ok: bool)
      modifies this
      ensures View() == Step(ctrl, old(View()), LoadMsgExit(tid, msg, ok))
    {
      if !ValidMsgPtr(msg) { return; }
      if tid !in sends { return; }
      if !ok {
        stats := stats.(trackingDrop := stats.trackingDrop + 1);
        return;
      }
      pending := pending[msg := sends[tid].meta];
      sends := sends[tid := sends[tid].(msgKey := msg)];
    }

    method MqMsgInsertExit(msg: Key, ret: int, now: nat, ok: bool)
      modifies this
      ensures View() == Step(ctrl, old(View()), MsgInsertExit(msg, ret, now, ok))
    {
      if ret != 0 || msg == 0 { return; }
      if msg !in pending { return; }
      if ok {
        queued := queued[msg := QueuedMsg(now, pending[msg])];
      } else {
        stats := stats.(trackingDrop := stats.trackingDrop + 1);
      }
      pending := pending - {msg};
    }

    method MqRecvEnter(tid: Tid, tgid: int, mqdes: int, comm: string, ok: bool)
      modifies this
      ensures View() == Step(ctrl, old(View()), RecvEnter(tid, tgid, mqdes, comm, ok))
    {
      if !ctrl.enable { return; }
      if tgid == 0 { return; }
      if ok {
        recvs := recvs[tid := RecvCtx(tgid, mqdes, comm)];
      } else {
        stats := stats.(trackingDrop := stats.trackingDrop + 1);
      }
    }

    method SubmitQueuedEvent(ghost key: Key, q: QueuedMsg, receiver: RecvCtx, now: nat, room: bool)
      modifies this
      ensures View() == old(View()).(out := SubmitQueued(ctrl, old(View()).out, key, q, receiver, now, room))
    {
      if !ctrl.enable { return; }
      if !PidMatches(ctrl, q.meta.senderPid, receiver.pid) { return; }
      var residence := Elapsed(now, q.enqueueNs);
      log := log + [Delivery(key, QUEUED, residence, q.meta, receiver, now, room)];
      stats := stats.(queuedCount := stats.queuedCount + 1);
      stats := stats.(queuedTotalNs := stats.queuedTotalNs + residence);
      StatsUpdateMax(residence);
      if ctrl.minDelayNs != 0 && residence < ctrl.minDelayNs { return; }
      if !room {
        stats := stats.(ringbufDrop := stats.ringbufDrop + 1);
        return;
      }
      ring := ring + [Event(now, residence, q.meta, receiver, QUEUED)];
    }

    method SubmitDirectEvent(ghost key: Key, m: Meta, receiver: RecvCtx, now: nat, room: bool)
      modifies this
      ensures View() == old(View()).(out := SubmitDirect(ctrl, old(View()).out, key, m, receiver, now, room))
    {
      if !ctrl.enable || !PidMatches(ctrl, m.senderPid, receiver.pid) { return; }
      log := log + [Delivery(key, DIRECT, 0, m, receiver, now, room)];
      stats := stats.(directCount := stats.directCount + 1);
      if ctrl.minDelayNs != 0 { return; }
      if !room {
        stats := stats.(ringbufDrop := stats.ringbufDrop + 1);
        return;
      }
      ring := ring + [Event(now, 0, m, receiver, DIRECT)];
    }

    /** Shared by the store_msg and the free_msg probe. */
    method ConsumeMessage(tid: Tid, msg: Key, countUnmatched: bool, now: nat, room: bool)
      modifies this
      ensures View() == Consume(ctrl, old(View()), tid, msg, countUnmatched, now, room)
    {
      if msg == 0 { return; }
      var tracked := tid in recvs;
      if msg in queued {
        var copy := queued[msg];
        queued := queued - {msg};
        if tracked { SubmitQueuedEvent(msg, copy, recvs[tid], now, room); }
        return;
      }
      if msg in direct {
        var copy := direct[msg];
        direct := direct - {msg};
        if tracked { SubmitDirectEvent(msg, copy, recvs[tid], now, room); }
        return;
      }
      if msg in pending && tracked {
        var copy := pending[msg];
        pending := pending - {msg};
        SubmitDirectEvent(msg, copy, recvs[tid], now, room);
        return;
      }
      if tracked && countUnmatched {
        if ctrl.enable && (ctrl.targetPid == 0 || ctrl.targetPid == recvs[tid].pid) {
          stats := stats.(unmatched := stats.unmatched + 1);
        }
      }
    }

    method MqStoreMsgEnter(tid: Tid, msg: Key, now: nat, room: bool)
      modifies this
      ensures View() == Step(ctrl, old(View()), StoreMsg(tid, msg, now, room))
    {
      ConsumeMessage(tid, msg, true, now, room);
    }

    method MqFreeMsgEnter(tid: Tid, msg: Key, now: nat, room: bool)
      modifies this
      ensures View() == Step(ctrl, old(View()), FreeMsg(tid, msg, now, room))
    {
      ConsumeMessage(tid, msg, false, now, room);
    }

    method MqSendExit(tid: Tid, ret: int, ok: bool)
      modifies this
      ensures View() == Step(ctrl, old(View()), SendExit(tid, ret, ok))
    {
      if tid !in sends { return; }
      var k := sends[tid].msgKey;
      if k != 0 {
        if k in pending {
          var copy := pending[k];
          if ret == 0 {
            if ok {
              direct := direct[k := copy];
            } else {
              stats := stats.(trackingDrop := stats.trackingDrop + 1);
            }
          }
          pending := pending - {k};
        }
      }
      sends := sends - {tid};
    }

    method MqRecvExit(tid: Tid)
      modifies this
      ensures View() == Step(ctrl, old(View()), RecvExit(tid))
    {
      recvs := recvs - {tid};
    }

    /** An LRU map drops an entry of its own accord. */
    method Evict(e: Probe)
      requires e.EvictPending? || e.EvictQueued? || e.EvictDirect?
      modifies this
      ensures View() == Step(ctrl, old(View()), e)
    {
      match e
      case EvictPending(k) => pending := pending - {k};
      case EvictQueued(k) => queued := queued - {k};
      case EvictDirect(k) => direct := direct - {k};
    }
  }

  // ---------------------------------------------------------------- what a trace says

  predicate IsInsert(e: Probe, k: Key) { e.MsgInsertExit? && e.msg == k && e.ret == 0 }

  predicate IsConsume(e: Probe, k: Key) { (e.StoreMsg? || e.FreeMsg?) && e.msg == k }

  predicate IsEviction(e: Probe, k: Key) { (e.EvictPending? || e.EvictQueued? || e.EvictDirect?) && e.msg == k }

  predicate IsAddress(k: Key) { 0 < k < 0x1_0000_0000_0000_0000 - 4095 }

  /** Event e opens the send, or the receive, context of thread t. */
  predicate OpensSend(c: Ctrl, e: Probe, t: Tid) { e.SendEnter? && e.tid == t && c.enable && e.tgid != 0 && e.ok }
  predicate OpensRecv(c: Ctrl, e: Probe, t: Tid) { e.RecvEnter? && e.tid == t && c.enable && e.tgid != 0 && e.ok }

  /** Thread t is inside the send call that it entered at event o. */
  ghost predicate SendSince(c: Ctrl, tr: Trace, o: nat, n: nat, t: Tid)
    requires n <= |tr|
  {
    && o < n && OpensSend(c, tr[o], t)
    && forall j :: o < j < n ==> !OpensSend(c, tr[j], t) && !(tr[j].SendExit? && tr[j].tid == t)
  }

  ghost predicate RecvSince(c: Ctrl, tr: Trace, o: nat, n: nat, t: Tid)
    requires n <= |tr|
  {
    && o < n && OpensRecv(c, tr[o], t)
    && forall j :: o < j < n ==> !OpensRecv(c, tr[j], t) && tr[j] != RecvExit(t)
  }

  /** The event at which t entered the send call it is in. */
  ghost function Sender(c: Ctrl, tr: Trace, n: nat, t: Tid): (r: Option<nat>)
    requires n <= |tr|
    ensures match r case Some(o) => SendSince(c, tr, o, n, t) case None => forall o :: !SendSince(c, tr, o, n, t)
  {
    if n == 0 then None
    else if OpensSend(c, tr[n - 1], t) then Some(n - 1)
    else if tr[n - 1].SendExit? && tr[n - 1].tid == t then None
    else Unended(c, tr, n, t); Sender(c, tr, n - 1, t)
  }

  lemma {:induction false} Unended(c: Ctrl, tr: Trace, n: nat, t: Tid)
    requires 0 < n <= |tr|
    ensures !OpensSend(c, tr[n - 1], t) && !(tr[n - 1].SendExit? && tr[n - 1].tid == t) ==>
              forall o :: SendSince(c, tr, o, n, t) <==> SendSince(c, tr, o, n - 1, t)
    ensures !OpensRecv(c, tr[n - 1], t) && tr[n - 1] != RecvExit(t) ==>
              forall o :: RecvSince(c, tr, o, n, t) <==> RecvSince(c, tr, o, n - 1, t)
  {
  }

  /** The event at which t entered the receive call it is in. */
  ghost function Receiver(c: Ctrl, tr: Trace, n: nat, t: Tid): (r: Option<nat>)
    requires n <= |tr|
    ensures match r case Some(o) => RecvSince(c, tr, o, n, t) case None => forall o :: !RecvSince(c, tr, o, n, t)
  {
    if n == 0 then None
    else if OpensRecv(c, tr[n - 1], t) then Some(n - 1)
    else if tr[n - 1] == RecvExit(t) then None
    else Unended(c, tr, n, t); Receiver(c, tr, n - 1, t)
  }

  /** The sender's, and the receiver's, half of a report, as its entry gives it. */
  function MetaOf(e: Probe): Meta
    requires e.SendEnter?
  {
    Meta(e.msgLen, e.tgid, e.mqdes, e.prio, e.comm)
  }

  function RecvOf(e: Probe): RecvCtx
    requires e.RecvEnter?
  {
    RecvCtx(e.tgid, e.mqdes, e.comm)
  }

  /** Event e is a load_msg return on thread t whose message was recorded. */
  predicate Notes(e: Probe, t: Tid) { e.LoadMsgExit? && e.tid == t && IsAddress(e.msg) && e.ok }

  /** The message of the last load that t recorded between events o and n; 0 if there is none. */
  function NotedKey(tr: Trace, o: nat, n: nat, t: Tid): Key
    requires n <= |tr|
  {
    if n <= o + 1 then 0 else if Notes(tr[n - 1], t) then tr[n - 1].msg else NotedKey(tr, o, n - 1, t)
  }

  /** Event i is a load_msg return of message k inside a tracked send call, recorded successfully. */
  ghost predicate IsLoad(c: Ctrl, tr: Trace, i: nat, k: Key) {
    i < |tr| && tr[i].LoadMsgExit? && Notes(tr[i], tr[i].tid) && tr[i].msg == k && Sender(c, tr, i, tr[i].tid).Some?
  }

  ghost function LoadMeta(c: Ctrl, tr: Trace, i: nat, k: Key): Meta
    requires IsLoad(c, tr, i, k)
  {
    MetaOf(tr[Sender(c, tr, i, tr[i].tid).value])
  }

  /** Event i is the return of the send call that loaded message k. */
  ghost predicate IsReturn(c: Ctrl, tr: Trace, i: nat, k: Key) {
    && i < |tr| && tr[i].SendExit?
    && (var o := Sender(c, tr, i, tr[i].tid); o.Some? && NotedKey(tr, o.value, i, tr[i].tid) == k)
  }

  /** The same two, seen in state s. */
  predicate LoadsFor(s: State, e: Probe, k: Key) {
    e.LoadMsgExit? && Notes(e, e.tid) && e.msg == k && e.tid in s.sends
  }
  predicate ReturnsFor(s: State, e: Probe, k: Key) { e.SendExit? && e.tid in s.sends && s.sends[e.tid].msgKey == k }

  /** Consuming a message, inserting it or returning for it does not touch other calls. */
  lemma {:induction false} CallsKept(c: Ctrl, s: State, tid: Tid, k: Key, u: bool, now: nat, room: bool, ok: bool)
    ensures var t := Consume(c, s, tid, k, u, now, room); t.sends == s.sends && t.recvs == s.recvs
    ensures k in s.pending ==> var t := Insert(s, k, now, ok); t.sends == s.sends && t.recvs == s.recvs
  {
  }

  /** What one step does to the send context of thread t, and to its receive context. */
  lemma {:induction false} SendStep(c: Ctrl, s: State, e: Probe, t: Tid)
    ensures var u := Step(c, s, e).sends;
            if OpensSend(c, e, t) then t in u && u[t] == SendCtx(0, MetaOf(e))
            else if e.SendExit? && e.tid == t then t !in u
            else (t in u <==> t in s.sends)
                 && (t in u ==> u[t] == if Notes(e, t) then s.sends[t].(msgKey := e.msg) else s.sends[t])
  {
    match e
    case StoreMsg(tid, m, now, room) => CallsKept(c, s, tid, m, true, now, room, true);
    case FreeMsg(tid, m, now, room) => CallsKept(c, s, tid, m, false, now, room, true);
    case MsgInsertExit(m, ret, now, ok) => CallsKept(c, s, 0, m, false, now, false, ok);
    case SendExit(tid, ret, ok) => if tid in s.sends { assert Return(s, tid, ret, ok).sends == s.sends - {tid}; }
    case _ =>
  }

  lemma {:induction false} RecvStep(c: Ctrl, s: State, e: Probe, t: Tid)
    ensures var u := Step(c, s, e).recvs;
            if OpensRecv(c, e, t) then t in u && u[t] == RecvOf(e)
            else if e == RecvExit(t) then t !in u
            else (t in u <==> t in s.recvs) && (t in u ==> u[t] == s.recvs[t])
  {
    match e
    case StoreMsg(tid, m, now, room) => CallsKept(c, s, tid, m, true, now, room, true);
    case FreeMsg(tid, m, now, room) => CallsKept(c, s, tid, m, false, now, room, true);
    case MsgInsertExit(m, ret, now, ok) => CallsKept(c, s, 0, m, false, now, false, ok);
    case _ =>
  }

  /** The two call maps hold what the trace says. */
  ghost predicate Replays(c: Ctrl, tr: Trace, n: nat, t: Tid, sends: map<Tid, SendCtx>, recvs: map<Tid, RecvCtx>)
    requires n <= |tr|
  {
    && (match Sender(c, tr, n, t)
        case Some(o) => t in sends && sends[t] == SendCtx(NotedKey(tr, o, n, t), MetaOf(tr[o]))
        case None => t !in sends)
    && (match Receiver(c, tr, n, t)
        case Some(o) => t in recvs && recvs[t] == RecvOf(tr[o])
        case None => t !in recvs)
  }

  /** In every run a thread has a send context iff it is inside a tracked send call, with the metadata of that call's
      own entry and the message it loaded last; and a receive context iff it is inside a tracked receive call, with
      that entry's own process, descriptor and name. */
  lemma {:induction false} CallsAreReplay(c: Ctrl, tr: Trace, n: nat, t: Tid)
    requires n <= |tr|
    ensures Replays(c, tr, n, t, RunTo(c, tr, n).sends, RunTo(c, tr, n).recvs)
  {
    if n > 0 {
      CallsAreReplay(c, tr, n - 1, t);
      SendStep(c, RunTo(c, tr, n - 1), tr[n - 1], t);
      RecvStep(c, RunTo(c, tr, n - 1), tr[n - 1], t);
      Unended(c, tr, n, t);
    }
  }

  /** Loads and returns of the trace are what the state shows. */
  lemma {:induction false} SeenInState(c: Ctrl, tr: Trace, i: nat, k: Key)
    requires i < |tr|
    ensures IsLoad(c, tr, i, k) <==> LoadsFor(RunTo(c, tr, i), tr[i], k)
    ensures IsReturn(c, tr, i, k) <==> ReturnsFor(RunTo(c, tr, i), tr[i], k)
    ensures IsLoad(c, tr, i, k) ==> LoadMeta(c, tr, i, k) == RunTo(c, tr, i).sends[tr[i].tid].meta
  {
    if tr[i].LoadMsgExit? || tr[i].SendExit? { CallsAreReplay(c, tr, i, tr[i].tid); }
  }

  /** Neither inserted nor returned strictly between events l and n. */
  ghost predicate Undecided(c: Ctrl, tr: Trace, k: Key, l: nat, n: nat)
    requires n <= |tr|
  {
    forall j :: l < j < n ==> !Decided(c, tr, j, k)
  }

  ghost predicate Decided(c: Ctrl, tr: Trace, j: nat, k: Key)
    requires j < |tr|
  {
    IsInsert(tr[j], k) || IsReturn(c, tr, j, k)
  }

  function CountKey(log: seq<Delivery>, k: Key): nat {
    if log == [] then 0
    else CountKey(log[..|log| - 1], k) + if log[|log| - 1].key == k then 1 else 0
  }

  /** Number of tracked loads of message k among the first n events. */
  ghost function Loads(c: Ctrl, tr: Trace, n: nat, k: Key): nat
    requires n <= |tr|
  {
    if n == 0 then 0 else Loads(c, tr, n - 1, k) + if IsLoad(c, tr, n - 1, k) then 1 else 0
  }

  function B(b: bool): nat { if b then 1 else 0 }

  /** Map entries and reports that exist for message k. */
  function Tokens(s: State, k: Key): nat {
    B(k in s.pending) + B(k in s.queued) + B(k in s.direct) + CountKey(s.out.log, k)
  }

  // ---------------------------------------------------------------- at most one report per load

  lemma {:induction false} CountAppend(log: seq<Delivery>, d: Delivery, k: Key)
    ensures CountKey(log + [d], k) == CountKey(log, k) + B(d.key == k)
  {
    assert (log + [d])[..|log|] == log;
  }

  lemma {:induction false} SubmittedLog(c: Ctrl, o: Output, m: Key, q: QueuedMsg, r: RecvCtx, now: nat, room: bool,
                                        k: Key)
    ensures CountKey(SubmitQueued(c, o, m, q, r, now, room).log, k) <= CountKey(o.log, k) + B(m == k)
    ensures CountKey(SubmitDirect(c, o, m, q.meta, r, now, room).log, k) <= CountKey(o.log, k) + B(m == k)
  {
    CountAppend(o.log, Delivery(m, QUEUED, Elapsed(now, q.enqueueNs), q.meta, r, now, room), k);
    CountAppend(o.log, Delivery(m, DIRECT, 0, q.meta, r, now, room), k);
  }

  lemma {:induction false} TokensConsumed(c: Ctrl, s: State, tid: Tid, m: Key, u: bool, now: nat, room: bool, k: Key)
    ensures Tokens(Consume(c, s, tid, m, u, now, room), k) <= Tokens(s, k)
  {
    if tid in s.recvs {
      var r := s.recvs[tid];
      if m in s.queued {
        SubmittedLog(c, s.out, m, s.queued[m], r, now, room, k);
      } else if m in s.direct {
        SubmittedLog(c, s.out, m, QueuedMsg(0, s.direct[m]), r, now, room, k);
      } else if m in s.pending {
        SubmittedLog(c, s.out, m, QueuedMsg(0, s.pending[m]), r, now, room, k);
      }
    }
  }

  lemma {:induction false} TokensMoved(s: State, tid: Tid, m: Key, ret: int, now: nat, ok: bool, k: Key)
    ensures m in s.pending ==> Tokens(Insert(s, m, now, ok), k) <= Tokens(s, k)
    ensures tid in s.sends ==> Tokens(Return(s, tid, ret, ok), k) <= Tokens(s, k)
  {
  }

  lemma {:induction false} TokensStep(c: Ctrl, s: State, e: Probe, k: Key)
    ensures Tokens(Step(c, s, e), k) <= Tokens(s, k) + B(LoadsFor(s, e, k))
  {
    match e
    case StoreMsg(tid, m, now, room) => TokensConsumed(c, s, tid, m, true, now, room, k);
    case FreeMsg(tid, m, now, room) => TokensConsumed(c, s, tid, m, false, now, room, k);
    case MsgInsertExit(m, ret, now, ok) => TokensMoved(s, 0, m, 0, now, ok, k);
    case SendExit(tid, ret, ok) => TokensMoved(s, tid, 0, ret, 0, ok, k);
    case _ =>
  }

  lemma {:induction false} TokensNext(c: Ctrl, tr: Trace, n: nat, k: Key)
    requires 0 < n <= |tr|
    ensures Tokens(RunTo(c, tr, n), k) + Loads(c, tr, n - 1, k) <= Tokens(RunTo(c, tr, n - 1), k) + Loads(c, tr, n, k)
  {
    TokensStep(c, RunTo(c, tr, n - 1), tr[n - 1], k);
    SeenInState(c, tr, n - 1, k);
  }

  lemma {:induction false} TokensBoundedByLoads(c: Ctrl, tr: Trace, n: nat, k: Key)
    requires n <= |tr|
    ensures Tokens(RunTo(c, tr, n), k) <= Loads(c, tr, n, k)
  {
    if n > 0 {
      TokensBoundedByLoads(c, tr, n - 1, k);
      TokensNext(c, tr, n, k);
    }
  }

  /** The same from any moment m on: what is added since is bounded by the loads since. */
  lemma {:induction false} TokensSince(c: Ctrl, tr: Trace, m: nat, n: nat, k: Key)
    requires m <= n <= |tr|
    ensures Tokens(RunTo(c, tr, n), k) + Loads(c, tr, m, k) <= Tokens(RunTo(c, tr, m), k) + Loads(c, tr, n, k)
  {
    if m < n {
      TokensSince(c, tr, m, n - 1, k);
      TokensNext(c, tr, n, k);
    }
  }

  predicate Vacant(s: State, k: Key) { k !in s.pending && k !in s.queued && k !in s.direct }

  /** At moment m address k is in no map, and up to event n it is handed out at most once more.  What became of
      k before m, and what is done to other addresses, does not matter. */
  ghost predicate Fresh(c: Ctrl, tr: Trace, m: nat, n: nat, k: Key)
    requires m <= n <= |tr|
  {
    Vacant(RunTo(c, tr, m), k) && Loads(c, tr, n, k) <= Loads(c, tr, m, k) + 1
  }

  /** With a fresh identity a message is in at most one map, is reported at most once, and once reported it is
      in no map: whatever the interleaving, the evictions and the failures. */
  lemma {:induction false} AtMostOnce(c: Ctrl, tr: Trace, m: nat, n: nat, k: Key)
    requires m <= n <= |tr| && Fresh(c, tr, m, n, k)
    ensures var s := RunTo(c, tr, n);
            B(k in s.pending) + B(k in s.queued) + B(k in s.direct) + CountKey(s.out.log, k)
            <= CountKey(RunTo(c, tr, m).out.log, k) + 1
  {
    TokensSince(c, tr, m, n, k);
  }

  // ---------------------------------------------------------------- where entries and reports come from

  predicate SameEntries(a: State, b: State, k: Key) {
    && (k in a.pending <==> k in b.pending) && (k in a.pending ==> a.pending[k] == b.pending[k])
    && (k in a.queued <==> k in b.queued) && (k in a.queued ==> a.queued[k] == b.queued[k])
    && (k in a.direct <==> k in b.direct) && (k in a.direct ==> a.direct[k] == b.direct[k])
  }

  /** In state s, event e takes the pending entry of k away, ... */
  predicate Takes(s: State, e: Probe, k: Key) {
    || IsInsert(e, k) || ReturnsFor(s, e, k) || e == EvictPending(k)
    || (IsConsume(e, k) && e.tid in s.recvs && k !in s.queued && k !in s.direct)
  }

  /** ... puts the message into the queued map, ... */
  predicate Queues(s: State, e: Probe, k: Key) { IsInsert(e, k) && e.ok && k in s.pending }
  predicate Unqueues(e: Probe, k: Key) { IsConsume(e, k) || e == EvictQueued(k) }

  /** ... or into the direct map. */
  predicate Directs(s: State, e: Probe, k: Key) { ReturnsFor(s, e, k) && e.ret == 0 && e.ok && k in s.pending }
  predicate Undirects(s: State, e: Probe, k: Key) { (IsConsume(e, k) && k !in s.queued) || e == EvictDirect(k) }

  lemma {:induction false} ConsumePending(c: Ctrl, s: State, tid: Tid, m: Key, u: bool, now: nat, room: bool)
    ensures var t := Consume(c, s, tid, m, u, now, room).pending;
            t == if m != 0 && tid in s.recvs && m !in s.queued && m !in s.direct then s.pending - {m} else s.pending
  {
    assert m !in s.pending ==> s.pending - {m} == s.pending;
  }

  lemma {:induction false} ConsumeQueued(c: Ctrl, s: State, tid: Tid, m: Key, u: bool, now: nat, room: bool)
    ensures Consume(c, s, tid, m, u, now, room).queued == if m == 0 then s.queued else s.queued - {m}
  {
    assert m !in s.queued ==> s.queued - {m} == s.queued;
  }

  lemma {:induction false} ConsumeDirect(c: Ctrl, s: State, tid: Tid, m: Key, u: bool, now: nat, room: bool)
    ensures Consume(c, s, tid, m, u, now, room).direct
            == if m == 0 || m in s.queued then s.direct else s.direct - {m}
  {
    assert m !in s.direct ==> s.direct - {m} == s.direct;
  }

  lemma {:induction false} MovedPending(s: State, tid: Tid, m: Key, ret: int, now: nat, ok: bool)
    ensures m in s.pending ==> Insert(s, m, now, ok).pending == s.pending - {m}
    ensures tid in s.sends ==>
              Return(s, tid, ret, ok).pending
              == if s.sends[tid].msgKey == 0 then s.pending else s.pending - {s.sends[tid].msgKey}
  {
    if tid in s.sends && s.sends[tid].msgKey !in s.pending {
      assert s.pending - {s.sends[tid].msgKey} == s.pending;
    }
  }

  /** The entry of k in `u` is what event e makes of its entry in state s. */
  predicate PendingAfter(s: State, e: Probe, k: Key, u: map<Key, Meta>) {
    && (k in u <==> LoadsFor(s, e, k) || (k in s.pending && !Takes(s, e, k)))
    && (k in u ==> u[k] == if LoadsFor(s, e, k) then s.sends[e.tid].meta else s.pending[k])
  }

  lemma {:induction false} PendingConsume(c: Ctrl, s: State, e: Probe, u: bool, k: Key)
    requires k != 0 && (e.StoreMsg? || e.FreeMsg?)
    ensures PendingAfter(s, e, k, Consume(c, s, e.tid, e.msg, u, e.now, e.room).pending)
  {
    ConsumePending(c, s, e.tid, e.msg, u, e.now, e.room);
  }

  lemma {:induction false} PendingStep(c: Ctrl, s: State, e: Probe, k: Key)
    requires k != 0
    ensures PendingAfter(s, e, k, Step(c, s, e).pending)
  {
    match e
    case StoreMsg(_, _, _, _) => PendingConsume(c, s, e, true, k);
    case FreeMsg(_, _, _, _) => PendingConsume(c, s, e, false, k);
    case MsgInsertExit(m, ret, now, ok) => if m in s.pending { MovedPending(s, 0, m, 0, now, ok); }
    case SendExit(tid, ret, ok) => if tid in s.sends { MovedPending(s, tid, 0, ret, 0, ok); }
    case _ =>
  }

  lemma {:induction false} QueuedStep(c: Ctrl, s: State, e: Probe, k: Key)
    requires k != 0
    ensures var u := Step(c, s, e).queued;
            && (k in u <==> Queues(s, e, k) || (k in s.queued && !Unqueues(e, k)))
            && (k in u ==> u[k] == if Queues(s, e, k) then QueuedMsg(e.now, s.pending[k]) else s.queued[k])
  {
    match e
    case StoreMsg(tid, m, now, room) => ConsumeQueued(c, s, tid, m, true, now, room);
    case FreeMsg(tid, m, now, room) => ConsumeQueued(c, s, tid, m, false, now, room);
    case _ =>
  }

  lemma {:induction false} DirectStep(c: Ctrl, s: State, e: Probe, k: Key)
    requires k != 0
    ensures var u := Step(c, s, e).direct;
            && (k in u <==> Directs(s, e, k) || (k in s.direct && !Undirects(s, e, k)))
            && (k in u ==> u[k] == if Directs(s, e, k) then s.pending[k] else s.direct[k])
  {
    match e
    case StoreMsg(tid, m, now, room) => ConsumeDirect(c, s, tid, m, true, now, room);
    case FreeMsg(tid, m, now, room) => ConsumeDirect(c, s, tid, m, false, now, room);
    case _ =>
  }

  /** Event j of the run ends a pending entry of k; it starts or ends a queued one; it starts or ends a direct one. */
  ghost predicate TakesAt(c: Ctrl, tr: Trace, j: nat, k: Key) {
    j < |tr| && (IsInsert(tr[j], k) || IsReturn(c, tr, j, k) || tr[j] == EvictPending(k)
                 || (IsConsume(tr[j], k) && Receiver(c, tr, j, tr[j].tid).Some?
                     && k !in RunTo(c, tr, j).queued && k !in RunTo(c, tr, j).direct))
  }

  ghost predicate QueuesAt(c: Ctrl, tr: Trace, j: nat, k: Key) {
    j < |tr| && IsInsert(tr[j], k) && tr[j].ok && k in RunTo(c, tr, j).pending
  }

  ghost predicate DirectsAt(c: Ctrl, tr: Trace, j: nat, k: Key) {
    IsReturn(c, tr, j, k) && tr[j].ret == 0 && tr[j].ok && k in RunTo(c, tr, j).pending
  }

  ghost predicate UndirectsAt(c: Ctrl, tr: Trace, j: nat, k: Key) {
    j < |tr| && ((IsConsume(tr[j], k) && k !in RunTo(c, tr, j).queued) || tr[j] == EvictDirect(k))
  }

  /** Event l loaded k, and since then it was neither loaded again nor taken away. */
  ghost predicate PendingSince(c: Ctrl, tr: Trace, l: nat, n: nat, k: Key) {
    && l < n <= |tr| && IsLoad(c, tr, l, k)
    && forall j :: l < j < n ==> !IsLoad(c, tr, j, k) && !TakesAt(c, tr, j, k)
  }

  ghost predicate QueuedSince(c: Ctrl, tr: Trace, i: nat, n: nat, k: Key) {
    && i < n <= |tr| && QueuesAt(c, tr, i, k)
    && forall j :: i < j < n ==> !QueuesAt(c, tr, j, k) && !Unqueues(tr[j], k)
  }

  ghost predicate DirectSince(c: Ctrl, tr: Trace, i: nat, n: nat, k: Key) {
    && i < n <= |tr| && DirectsAt(c, tr, i, k)
    && forall j :: i < j < n ==> !DirectsAt(c, tr, j, k) && !UndirectsAt(c, tr, j, k)
  }

  lemma {:induction false} PendingNext(c: Ctrl, tr: Trace, n: nat, k: Key)
    requires 0 < n <= |tr|
    ensures forall x :: PendingSince(c, tr, x, n, k) <==>
                          if IsLoad(c, tr, n - 1, k) then x == n - 1
                          else PendingSince(c, tr, x, n - 1, k) && !TakesAt(c, tr, n - 1, k)
  {
  }

  lemma {:induction false} QueuedNext(c: Ctrl, tr: Trace, n: nat, k: Key)
    requires 0 < n <= |tr|
    ensures forall x :: QueuedSince(c, tr, x, n, k) <==>
                          if QueuesAt(c, tr, n - 1, k) then x == n - 1
                          else QueuedSince(c, tr, x, n - 1, k) && !Unqueues(tr[n - 1], k)
  {
  }

  lemma {:induction false} DirectNext(c: Ctrl, tr: Trace, n: nat, k: Key)
    requires 0 < n <= |tr|
    ensures forall x :: DirectSince(c, tr, x, n, k) <==>
                          if DirectsAt(c, tr, n - 1, k) then x == n - 1
                          else DirectSince(c, tr, x, n - 1, k) && !UndirectsAt(c, tr, n - 1, k)
  {
  }

  lemma {:induction false} EventsSeen(c: Ctrl, tr: Trace, j: nat, k: Key)
    requires j < |tr|
    ensures TakesAt(c, tr, j, k) <==> Takes(RunTo(c, tr, j), tr[j], k)
    ensures QueuesAt(c, tr, j, k) <==> Queues(RunTo(c, tr, j), tr[j], k)
    ensures DirectsAt(c, tr, j, k) <==> Directs(RunTo(c, tr, j), tr[j], k)
    ensures UndirectsAt(c, tr, j, k) <==> Undirects(RunTo(c, tr, j), tr[j], k)
  {
    SeenInState(c, tr, j, k);
    if IsConsume(tr[j], k) { CallsAreReplay(c, tr, j, tr[j].tid); }
  }

  lemma {:induction false} ZeroStep(c: Ctrl, s: State, e: Probe)
    requires Vacant(s, 0)
    ensures Vacant(Step(c, s, e), 0)
  {
    match e
    case LoadMsgExit(tid, k, ok) =>
    case MsgInsertExit(k, ret, now, ok) =>
    case SendExit(tid, ret, ok) =>
    case StoreMsg(tid, m, now, room) => ConsumeShrinks(c, s, tid, m, true, now, room);
    case FreeMsg(tid, m, now, room) => ConsumeShrinks(c, s, tid, m, false, now, room);
    case _ =>
  }

  lemma {:induction false} ConsumeShrinks(c: Ctrl, s: State, tid: Tid, m: Key, u: bool, now: nat, room: bool)
    requires Vacant(s, 0)
    ensures Vacant(Consume(c, s, tid, m, u, now, room), 0)
  {
    ConsumePending(c, s, tid, m, u, now, room);
    ConsumeQueued(c, s, tid, m, u, now, room);
    ConsumeDirect(c, s, tid, m, u, now, room);
  }

  lemma {:induction false} NeverZero(c: Ctrl, tr: Trace, n: nat)
    requires n <= |tr|
    ensures Vacant(RunTo(c, tr, n), 0)
  {
    if n > 0 {
      NeverZero(c, tr, n - 1);
      ZeroStep(c, RunTo(c, tr, n - 1), tr[n - 1]);
    }
  }

  /** In every run, with any reuse of addresses, the pending map holds k iff some load of it still stands, ... */
  lemma {:induction false} PendingOrigin(c: Ctrl, tr: Trace, n: nat, k: Key) returns (l: nat)
    requires n <= |tr|
    ensures k in RunTo(c, tr, n).pending <==> PendingSince(c, tr, l, n, k)
    ensures forall x :: PendingSince(c, tr, x, n, k) ==> x == l
    ensures k in RunTo(c, tr, n).pending ==>
              LoadMeta(c, tr, l, k) == RunTo(c, tr, n).pending[k] && Undecided(c, tr, k, l, n)
  {
    NeverZero(c, tr, n);
    l := 0;
    if n > 0 && k != 0 {
      l := PendingOrigin(c, tr, n - 1, k);
      SeenInState(c, tr, n - 1, k);
      EventsSeen(c, tr, n - 1, k);
      PendingStep(c, RunTo(c, tr, n - 1), tr[n - 1], k);
      if IsLoad(c, tr, n - 1, k) { l := n - 1; }
      PendingNext(c, tr, n, k);
    }
  }

  /** ... the queued map iff some insert of a pending k still stands, ... */
  lemma {:induction false} QueuedOrigin(c: Ctrl, tr: Trace, n: nat, k: Key) returns (l: nat, i: nat)
    requires n <= |tr|
    ensures k in RunTo(c, tr, n).queued <==> QueuedSince(c, tr, i, n, k)
    ensures forall x :: QueuedSince(c, tr, x, n, k) ==> x == i
    ensures k in RunTo(c, tr, n).queued ==>
              && PendingSince(c, tr, l, i, k) && Undecided(c, tr, k, l, i)
              && RunTo(c, tr, n).queued[k] == QueuedMsg(tr[i].now, LoadMeta(c, tr, l, k))
  {
    NeverZero(c, tr, n);
    l, i := 0, 0;
    forall x | 0 <= x < n ensures !QueuesAt(c, tr, x, 0) {
      NeverZero(c, tr, x);
    }
    if n > 0 && k != 0 {
      l, i := QueuedOrigin(c, tr, n - 1, k);
      EventsSeen(c, tr, n - 1, k);
      QueuedStep(c, RunTo(c, tr, n - 1), tr[n - 1], k);
      if QueuesAt(c, tr, n - 1, k) {
        i := n - 1;
        l := PendingOrigin(c, tr, i, k);
      }
      QueuedNext(c, tr, n, k);
    }
  }

  /** ... and the direct map iff some successful return for a pending k still stands. */
  lemma {:induction false} DirectOrigin(c: Ctrl, tr: Trace, n: nat, k: Key) returns (l: nat, i: nat)
    requires n <= |tr|
    ensures k in RunTo(c, tr, n).direct <==> DirectSince(c, tr, i, n, k)
    ensures forall x :: DirectSince(c, tr, x, n, k) ==> x == i
    ensures k in RunTo(c, tr, n).direct ==>
              && PendingSince(c, tr, l, i, k) && Undecided(c, tr, k, l, i)
              && RunTo(c, tr, n).direct[k] == LoadMeta(c, tr, l, k)
  {
    NeverZero(c, tr, n);
    l, i := 0, 0;
    forall x | 0 <= x < n ensures !DirectsAt(c, tr, x, 0) {
      NeverZero(c, tr, x);
    }
    if n > 0 && k != 0 {
      l, i := DirectOrigin(c, tr, n - 1, k);
      EventsSeen(c, tr, n - 1, k);
      DirectStep(c, RunTo(c, tr, n - 1), tr[n - 1], k);
      if DirectsAt(c, tr, n - 1, k) {
        i := n - 1;
        l := PendingOrigin(c, tr, i, k);
      }
      DirectNext(c, tr, n, k);
    }
  }

  /** Event x consumes d.key on a thread inside a tracked receive call, whose entry gives the receiver, and the PID
      filter lets the pair through. */
  ghost predicate ReportedAt(c: Ctrl, tr: Trace, x: nat, d: Delivery) {
    && x < |tr| && IsConsume(tr[x], d.key) && c.enable && d.ts == tr[x].now && d.room == tr[x].room
    && (var r := Receiver(c, tr, x, tr[x].tid); r.Some? && d.receiver == RecvOf(tr[r.value]))
    && (c.targetPid == 0 || c.targetPid == d.meta.senderPid || c.targetPid == d.receiver.pid)
  }

  /** The report that consuming event e adds to the log, if any. */
  function Reported(c: Ctrl, s: State, e: Probe): seq<Delivery> {
    if !(e.StoreMsg? || e.FreeMsg?) || e.msg == 0 || !c.enable || e.tid !in s.recvs then []
    else
      var k, r := e.msg, s.recvs[e.tid];
      var ds := if k in s.queued then
                  var q := s.queued[k];
                  [Delivery(k, QUEUED, Elapsed(e.now, q.enqueueNs), q.meta, r, e.now, e.room)]
                else if k in s.direct then [Delivery(k, DIRECT, 0, s.direct[k], r, e.now, e.room)]
                else if k in s.pending then [Delivery(k, DIRECT, 0, s.pending[k], r, e.now, e.room)]
                else [];
      if ds != [] && PidMatches(c, ds[0].meta.senderPid, r.pid) then ds else []
  }

  lemma {:induction false} SubmitLogs(c: Ctrl, o: Output, k: Key, q: QueuedMsg, r: RecvCtx, now: nat, room: bool)
    ensures SubmitQueued(c, o, k, q, r, now, room).log == o.log
            + if c.enable && PidMatches(c, q.meta.senderPid, r.pid)
              then [Delivery(k, QUEUED, Elapsed(now, q.enqueueNs), q.meta, r, now, room)] else []
    ensures SubmitDirect(c, o, k, q.meta, r, now, room).log == o.log
            + if c.enable && PidMatches(c, q.meta.senderPid, r.pid)
              then [Delivery(k, DIRECT, 0, q.meta, r, now, room)] else []
  {
  }

  lemma {:induction false} ConsumeLog(c: Ctrl, s: State, e: Probe, u: bool)
    requires e.StoreMsg? || e.FreeMsg?
    ensures Consume(c, s, e.tid, e.msg, u, e.now, e.room).out.log == s.out.log + Reported(c, s, e)
  {
    assert s.out.log + [] == s.out.log;
    if e.msg != 0 && e.tid in s.recvs {
      var k, r := e.msg, s.recvs[e.tid];
      if k in s.queued {
        SubmitLogs(c, s.out, k, s.queued[k], r, e.now, e.room);
      } else if k in s.direct {
        SubmitLogs(c, s.out, k, QueuedMsg(0, s.direct[k]), r, e.now, e.room);
      } else if k in s.pending {
        SubmitLogs(c, s.out, k, QueuedMsg(0, s.pending[k]), r, e.now, e.room);
      }
    }
  }

  /** A step extends the log by at most one report, and only by consuming the reported message. */
  lemma {:induction false} LogGrowth(c: Ctrl, s: State, e: Probe)
    ensures Step(c, s, e).out.log == s.out.log + Reported(c, s, e)
  {
    match e
    case StoreMsg(_, _, _, _) => ConsumeLog(c, s, e, true);
    case FreeMsg(_, _, _, _) => ConsumeLog(c, s, e, false);
    case _ => assert s.out.log + [] == s.out.log;
  }

  /** The history of report d: `l` is the load that recorded the sender, `x` the consuming probe that made the report,
      and `i` the event that decided the delivery. */
  ghost predicate History(c: Ctrl, tr: Trace, d: Delivery, l: nat, i: nat, x: nat) {
    && l < i <= x < |tr| && IsLoad(c, tr, l, d.key) && LoadMeta(c, tr, l, d.key) == d.meta
    && ReportedAt(c, tr, x, d) && Undecided(c, tr, d.key, l, i)
    && (d.kind == QUEUED ==>
          && i < x && IsInsert(tr[i], d.key) && tr[i].ok
          && d.residence == (tr[x].now - tr[i].now) % 0x1_0000_0000_0000_0000)
    && (d.kind == DIRECT ==>
          d.residence == 0 && (i == x || (IsReturn(c, tr, i, d.key) && tr[i].ret == 0 && tr[i].ok)))
  }

  lemma {:induction false} ReportMade(c: Ctrl, tr: Trace, x: nat, d: Delivery) returns (l: nat, i: nat)
    requires x < |tr| && Reported(c, RunTo(c, tr, x), tr[x]) == [d]
    ensures History(c, tr, d, l, i, x)
  {
    var s, k := RunTo(c, tr, x), tr[x].msg;
    CallsAreReplay(c, tr, x, tr[x].tid);
    if k in s.queued {
      l, i := QueuedOrigin(c, tr, x, k);
    } else if k in s.direct {
      l, i := DirectOrigin(c, tr, x, k);
    } else {
      l := PendingOrigin(c, tr, x, k);
      i := x;
    }
  }

  /** Every report has a complete history: for QUEUED a successful msg_insert before the sender returned, for DIRECT
      the sender's successful return or the consumption itself, with no msg_insert in between. */
  lemma {:induction false} DeliveryOrigin(c: Ctrl, tr: Trace, n: nat, p: nat) returns (l: nat, i: nat, x: nat)
    requires n <= |tr| && p < |RunTo(c, tr, n).out.log|
    ensures x < n && History(c, tr, RunTo(c, tr, n).out.log[p], l, i, x)
    ensures |RunTo(c, tr, x).out.log| == p < |RunTo(c, tr, x + 1).out.log|
  {
    var s := RunTo(c, tr, n - 1);
    LogGrowth(c, s, tr[n - 1]);
    if p < |s.out.log| {
      l, i, x := DeliveryOrigin(c, tr, n - 1, p);
    } else {
      x := n - 1;
      l, i := ReportMade(c, tr, x, RunTo(c, tr, n).out.log[p]);
    }
  }

  // ---------------------------------------------------------------- exactly one report

  /** From the load up to event x the message is not consumed, not evicted, and no map update for it fails. */
  ghost predicate Undisturbed(c: Ctrl, tr: Trace, k: Key, l: nat, x: nat)
    requires x <= |tr|
  {
    forall j :: l < j < x ==> UndisturbedAt(c, tr, k, j)
  }

  ghost predicate UndisturbedAt(c: Ctrl, tr: Trace, k: Key, j: nat)
    requires j < |tr|
  {
    && !IsConsume(tr[j], k) && !IsEviction(tr[j], k)
    && (IsInsert(tr[j], k) ==> tr[j].ok)
    && (IsReturn(c, tr, j, k) ==> tr[j].ret == 0 && tr[j].ok)
  }

  lemma {:induction false} LoadsMonotone(c: Ctrl, tr: Trace, l: nat, n: nat, k: Key)
    requires l <= n <= |tr|
    ensures Loads(c, tr, l, k) <= Loads(c, tr, n, k)
  {
    if l < n { LoadsMonotone(c, tr, l, n - 1, k); }
  }

  /** An event that neither consumes, evicts nor loads k touches its entries only by inserting k or
      returning for it, and only while k is pending. */
  lemma {:induction false} EntriesKept(c: Ctrl, s: State, e: Probe, k: Key)
    requires k != 0 && !IsConsume(e, k) && !IsEviction(e, k)
    requires !LoadsFor(s, e, k)
    requires (!IsInsert(e, k) && !ReturnsFor(s, e, k)) || k !in s.pending
    ensures SameEntries(s, Step(c, s, e), k)
  {
    PendingStep(c, s, e, k);
    QueuedStep(c, s, e, k);
    DirectStep(c, s, e, k);
  }

  /** In state s, message k is where event i put it: still pending if i is undecided, else in the map that the
      msg_insert or the sender's return chose. */
  ghost predicate Placed(c: Ctrl, tr: Trace, s: State, m: Meta, k: Key, i: nat, undecided: bool)
    requires undecided || i < |tr|
  {
    if undecided then k in s.pending && s.pending[k] == m && k !in s.queued && k !in s.direct
    else if IsInsert(tr[i], k) then k in s.queued && s.queued[k] == QueuedMsg(tr[i].now, m)
    else IsReturn(c, tr, i, k) && k in s.direct && s.direct[k] == m && k !in s.queued
  }

  /** The event that decides the path of a pending message. */
  lemma {:induction false} Decides(c: Ctrl, tr: Trace, k: Key, i: nat, m: Meta)
    requires i < |tr| && k != 0 && Placed(c, tr, RunTo(c, tr, i), m, k, i, true)
    requires IsInsert(tr[i], k) || IsReturn(c, tr, i, k)
    requires tr[i].ok && (IsReturn(c, tr, i, k) ==> tr[i].ret == 0)
    ensures Placed(c, tr, RunTo(c, tr, i + 1), m, k, i, false)
  {
    var s, e := RunTo(c, tr, i), tr[i];
    SeenInState(c, tr, i, k);
    assert RunTo(c, tr, i + 1) == if e.MsgInsertExit? then Insert(s, k, e.now, true) else Return(s, e.tid, 0, true);
  }

  /** The map entries of message k. */
  function Entries(s: State, k: Key): nat { B(k in s.pending) + B(k in s.queued) + B(k in s.direct) }

  lemma {:induction false} CountPrefix(a: seq<Delivery>, b: seq<Delivery>, k: Key)
    requires a <= b
    ensures CountKey(a, k) <= CountKey(b, k)
  {
    if a != b {
      CountPrefix(a, b[..|b| - 1], k);
    }
  }

  lemma {:induction false} OneEntry(c: Ctrl, tr: Trace, m: nat, n: nat, k: Key)
    requires m <= n <= |tr| && Fresh(c, tr, m, n, k)
    ensures Entries(RunTo(c, tr, n), k) <= 1
  {
    TokensSince(c, tr, m, n, k);
    LogMonotone(c, tr, m, n);
    CountPrefix(RunTo(c, tr, m).out.log, RunTo(c, tr, n).out.log, k);
  }

  lemma {:induction false} JustLoaded(c: Ctrl, tr: Trace, k: Key, l: nat)
    requires IsLoad(c, tr, l, k) && Entries(RunTo(c, tr, l + 1), k) <= 1
    ensures Placed(c, tr, RunTo(c, tr, l + 1), LoadMeta(c, tr, l, k), k, l, true)
  {
    SeenInState(c, tr, l, k);
    assert k in RunTo(c, tr, l + 1).pending;
  }

  /** Any other event leaves the message where it is. */
  lemma {:induction false} Stays(c: Ctrl, tr: Trace, s: State, m: Meta, k: Key, i: nat, undecided: bool, e: Probe)
    requires (undecided || i < |tr|) && Placed(c, tr, s, m, k, i, undecided) && Entries(s, k) <= 1
    requires k != 0 && !IsConsume(e, k) && !IsEviction(e, k) && !LoadsFor(s, e, k)
    requires undecided ==> !IsInsert(e, k) && !ReturnsFor(s, e, k)
    ensures Placed(c, tr, Step(c, s, e), m, k, i, undecided)
  {
    EntriesKept(c, s, e, k);
  }

  /** Where an undisturbed message is kept between its only load and event n; `i` is the event that
      decided its path, or n when nothing has. */
  lemma {:induction false} Held(c: Ctrl, tr: Trace, k: Key, m: nat, l: nat, n: nat) returns (i: nat)
    requires m <= l < n <= |tr| && IsLoad(c, tr, l, k) && Fresh(c, tr, m, n, k) && Undisturbed(c, tr, k, l, n)
    ensures l < i <= n && Undecided(c, tr, k, l, i)
    ensures Placed(c, tr, RunTo(c, tr, n), LoadMeta(c, tr, l, k), k, i, i == n)
  {
    if n == l + 1 {
      i := n;
      OneEntry(c, tr, m, n, k);
      JustLoaded(c, tr, k, l);
    } else {
      OnlyLoad(c, tr, k, m, l, n);
      assert UndisturbedAt(c, tr, k, n - 1);
      i := Held(c, tr, k, m, l, n - 1);
      if i == n - 1 && (IsInsert(tr[i], k) || IsReturn(c, tr, i, k)) {
        Decides(c, tr, k, i, LoadMeta(c, tr, l, k));
      } else {
        OneEntry(c, tr, m, n - 1, k);
        SeenInState(c, tr, n - 1, k);
        Stays(c, tr, RunTo(c, tr, n - 1), LoadMeta(c, tr, l, k), k, i, i == n - 1, tr[n - 1]);
        i := if i < n - 1 then i else n;
      }
    }
  }

  lemma {:induction false} OnlyLoad(c: Ctrl, tr: Trace, k: Key, m: nat, l: nat, n: nat)
    requires m <= l && l + 1 < n <= |tr| && IsLoad(c, tr, l, k) && Fresh(c, tr, m, n, k)
    ensures !IsLoad(c, tr, n - 1, k) && Fresh(c, tr, m, n - 1, k)
  {
    LoadsMonotone(c, tr, m, l, k);
    LoadsMonotone(c, tr, l + 1, n - 1, k);
  }

  lemma {:induction false} LogNext(c: Ctrl, tr: Trace, n: nat)
    requires 0 < n <= |tr|
    ensures RunTo(c, tr, n - 1).out.log <= RunTo(c, tr, n).out.log
  {
    LogGrowth(c, RunTo(c, tr, n - 1), tr[n - 1]);
  }

  lemma {:induction false} LogMonotone(c: Ctrl, tr: Trace, m: nat, n: nat)
    requires m <= n <= |tr|
    ensures RunTo(c, tr, m).out.log <= RunTo(c, tr, n).out.log
  {
    if m < n {
      LogMonotone(c, tr, m, n - 1);
      LogNext(c, tr, n);
    }
  }

  /** A report of k at or after position n raises the count; two raise it twice. */
  lemma {:induction false} CountedOnce(log: seq<Delivery>, n: nat, p: nat, k: Key)
    requires n <= p < |log| && log[p].key == k
    ensures CountKey(log, k) >= CountKey(log[..n], k) + 1
  {
    var rest := log[..|log| - 1];
    assert n <= |rest| && rest[..n] == log[..n];
    if p < |log| - 1 { CountedOnce(rest, n, p, k); } else { CountPrefix(log[..n], rest, k); }
  }

  lemma {:induction false} CountedTwice(log: seq<Delivery>, n: nat, p: nat, q: nat, k: Key)
    requires n <= p < q < |log| && log[p].key == k && log[q].key == k
    ensures CountKey(log, k) >= CountKey(log[..n], k) + 2
  {
    var rest := log[..|log| - 1];
    assert rest[..n] == log[..n];
    if q == |log| - 1 { CountedOnce(rest, n, p, k); } else { CountedTwice(rest, n, p, q, k); }
  }

  lemma {:induction false} OneKeyOnly(log: seq<Delivery>, n: nat, p: nat, q: nat, k: Key)
    requires n <= p < |log| && n <= q < |log| && p != q && CountKey(log, k) <= CountKey(log[..n], k) + 1
    ensures log[p].key != k || log[q].key != k
  {
    if log[p].key == k && log[q].key == k {
      CountedTwice(log, n, if p < q then p else q, if p < q then q else p, k);
    }
  }

  /** Event x consumes the message that l loaded on a thread inside a tracked receive call, and the PID filter is off,
      or asks for the sender or for the receiver. */
  ghost predicate ReceivedBy(c: Ctrl, tr: Trace, l: nat, x: nat, k: Key)
    requires IsLoad(c, tr, l, k) && x < |tr| && IsConsume(tr[x], k)
  {
    var r := Receiver(c, tr, x, tr[x].tid);
    r.Some? && (c.targetPid == 0 || c.targetPid == LoadMeta(c, tr, l, k).senderPid || c.targetPid == tr[r.value].tgid)
  }

  /** A message that was loaded in a tracked send, not disturbed, and consumed on a thread with a receive
      context that passes the PID filter is reported exactly once since the vacant moment m, although both
      store_msg and free_msg consume it.  It is QUEUED iff a msg_insert came before its sender's return,
      and then its residence is consume time minus insert time. */
  lemma {:induction false} ExactlyOnce(c: Ctrl, tr: Trace, k: Key, m: nat, l: nat, x: nat, n: nat) returns (p: nat)
    requires m <= l < x < n <= |tr| && Fresh(c, tr, m, n, k) && c.enable && IsLoad(c, tr, l, k)
    requires IsConsume(tr[x], k) && Undisturbed(c, tr, k, l, x) && ReceivedBy(c, tr, l, x, k)
    ensures var log := RunTo(c, tr, n).out.log;
            var before := |RunTo(c, tr, m).out.log|;
            && before <= p < |log| && log[p].key == k && log[p].meta == LoadMeta(c, tr, l, k)
            && log[p].receiver == RecvOf(tr[Receiver(c, tr, x, tr[x].tid).value])
            && log[p].ts == tr[x].now && log[p].room == tr[x].room
            && (forall q :: before <= q < |log| && q != p ==> log[q].key != k)
            && (log[p].kind == QUEUED <==> exists i :: l < i < x && IsInsert(tr[i], k) && Undecided(c, tr, k, l, i))
            && (forall i :: l < i < x && IsInsert(tr[i], k) && Undecided(c, tr, k, l, i)
                            ==> log[p].residence == (tr[x].now - tr[i].now) % 0x1_0000_0000_0000_0000)
            && (log[p].kind == DIRECT ==> log[p].residence == 0)
  {
    LoadsMonotone(c, tr, x, n, k);
    var i := Held(c, tr, k, m, l, x);
    p := ReportedNext(c, tr, k, l, x, i);
    LogMonotone(c, tr, m, x);
    LogMonotone(c, tr, x + 1, n);
    OnlyReport(c, tr, k, m, n, p);
    forall j | l < j < x && IsInsert(tr[j], k) && Undecided(c, tr, k, l, j) ensures j == i {
      assert Decided(c, tr, j, k) && (i < x ==> Decided(c, tr, i, k));
    }
  }

  /** Consuming a message that is where event i put it reports it as i decided. */
  lemma {:induction false} ReportedNext(c: Ctrl, tr: Trace, k: Key, l: nat, x: nat, i: nat) returns (p: nat)
    requires l < i <= x < |tr| && c.enable && k != 0 && IsLoad(c, tr, l, k) && IsConsume(tr[x], k)
    requires Placed(c, tr, RunTo(c, tr, x), LoadMeta(c, tr, l, k), k, i, i == x)
    requires ReceivedBy(c, tr, l, x, k)
    ensures p == |RunTo(c, tr, x).out.log| < |RunTo(c, tr, x + 1).out.log|
    ensures var d := RunTo(c, tr, x + 1).out.log[p];
            && d.key == k && d.meta == LoadMeta(c, tr, l, k)
            && d.receiver == RecvOf(tr[Receiver(c, tr, x, tr[x].tid).value])
            && d.ts == tr[x].now && d.room == tr[x].room
            && (if i < x && IsInsert(tr[i], k)
                then d.kind == QUEUED && d.residence == (tr[x].now - tr[i].now) % 0x1_0000_0000_0000_0000
                else d.kind == DIRECT && d.residence == 0)
  {
    var s := RunTo(c, tr, x);
    p := |s.out.log|;
    LogGrowth(c, s, tr[x]);
    CallsAreReplay(c, tr, x, tr[x].tid);
    assert Reported(c, s, tr[x]) != [];
    assert RunTo(c, tr, x + 1).out.log[p] == Reported(c, s, tr[x])[0];
  }

  lemma {:induction false} OnlyReport(c: Ctrl, tr: Trace, k: Key, m: nat, n: nat, p: nat)
    requires m <= n <= |tr| && Fresh(c, tr, m, n, k)
    requires |RunTo(c, tr, m).out.log| <= p < |RunTo(c, tr, n).out.log| && RunTo(c, tr, n).out.log[p].key == k
    ensures var log := RunTo(c, tr, n).out.log;
            forall q :: |RunTo(c, tr, m).out.log| <= q < |log| && q != p ==> log[q].key != k
  {
    var before, log := RunTo(c, tr, m).out.log, RunTo(c, tr, n).out.log;
    TokensSince(c, tr, m, n, k);
    LogMonotone(c, tr, m, n);
    assert log[..|before|] == before;
    forall q | |before| <= q < |log| && q != p ensures log[q].key != k {
      OneKeyOnly(log, |before|, p, q, k);
    }
  }

  /** Between events l and x no msg_insert of message k follows a return of its sender. */
  ghost predicate InsertsFirst(c: Ctrl, tr: Trace, k: Key, l: nat, x: nat)
    requires x <= |tr|
  {
    forall i, j :: l < j < i < x && IsInsert(tr[i], k) ==> !IsReturn(c, tr, j, k)
  }

  lemma {:induction false} FirstDecision(c: Ctrl, tr: Trace, k: Key, l: nat, i: nat, x: nat)
    requires l < i <= x < |tr| && Undecided(c, tr, k, l, i) && (i == x || IsReturn(c, tr, i, k))
    ensures forall y :: l < y < x && IsInsert(tr[y], k) ==> !Undecided(c, tr, k, l, y)
    ensures InsertsFirst(c, tr, k, l, x) ==> forall y :: l < y < x ==> !IsInsert(tr[y], k)
  {
    forall y | l < y < x && IsInsert(tr[y], k) ensures !Undecided(c, tr, k, l, y) && !InsertsFirst(c, tr, k, l, x) {
      assert Decided(c, tr, y, k) && (i < x ==> Decided(c, tr, i, k));
    }
  }

  /** The reported kind tells how the message was delivered, in every run: with l the load behind report p and x the
      event that made it, QUEUED means that between the two the message was inserted before anything else decided its
      path.  Where no insert comes after the sender's return, that is whether it was inserted at all. */
  lemma {:induction false} KindTellsInsertion(c: Ctrl, tr: Trace, n: nat, p: nat) returns (l: nat, x: nat)
    requires n <= |tr| && p < |RunTo(c, tr, n).out.log|
    ensures var d := RunTo(c, tr, n).out.log[p];
            && l < x < n && IsLoad(c, tr, l, d.key) && LoadMeta(c, tr, l, d.key) == d.meta
            && ReportedAt(c, tr, x, d) && |RunTo(c, tr, x).out.log| == p < |RunTo(c, tr, x + 1).out.log|
            && (d.kind == QUEUED
                <==> exists i :: l < i < x && IsInsert(tr[i], d.key) && Undecided(c, tr, d.key, l, i))
            && (InsertsFirst(c, tr, d.key, l, x) ==>
                  (d.kind == QUEUED <==> exists i :: l < i < x && IsInsert(tr[i], d.key)))
  {
    var i;
    l, i, x := DeliveryOrigin(c, tr, n, p);
    var d := RunTo(c, tr, n).out.log[p];
    if d.kind == DIRECT { FirstDecision(c, tr, d.key, l, i, x); }
  }

  // ---------------------------------------------------------------- the statistics are exact

  function CountKind(log: seq<Delivery>, kind: Kind): nat {
    if log == [] then 0
    else CountKind(log[..|log| - 1], kind) + B(log[|log| - 1].kind == kind)
  }

  function SumResidence(log: seq<Delivery>): int {
    if log == [] then 0
    else SumResidence(log[..|log| - 1])
         + if log[|log| - 1].kind == QUEUED then log[|log| - 1].residence else 0
  }

  /** m is the largest residence of a queued message, or 0 if there is none. */
  ghost predicate IsLargest(log: seq<Delivery>, m: int) {
    && m >= 0 && (forall p :: 0 <= p < |log| && log[p].kind == QUEUED ==> log[p].residence <= m)
    && (m > 0 ==> exists p :: 0 <= p < |log| && log[p].kind == QUEUED && log[p].residence == m)
  }

  predicate Above(c: Ctrl, d: Delivery) { c.minDelayNs == 0 || d.residence >= c.minDelayNs }

  /** The reports that reach the residence threshold and find room, as the ring buffer shows them, ... */
  function Shown(c: Ctrl, log: seq<Delivery>): seq<Event> {
    if log == [] then []
    else
      var d := log[|log| - 1];
      Shown(c, log[..|log| - 1])
      + if Above(c, d) && d.room then [Event(d.ts, d.residence, d.meta, d.receiver, d.kind)] else []
  }

  /** ... and the number of those that find none. */
  function Unshown(c: Ctrl, log: seq<Delivery>): nat {
    if log == [] then 0 else Unshown(c, log[..|log| - 1]) + B(Above(c, log[|log| - 1]) && !log[|log| - 1].room)
  }

  ghost predicate Tallied(c: Ctrl, o: Output) {
    && o.stats.queuedCount == CountKind(o.log, QUEUED)
    && o.stats.directCount == CountKind(o.log, DIRECT)
    && o.stats.queuedTotalNs == SumResidence(o.log)
    && IsLargest(o.log, o.stats.queuedMaxNs)
    && o.ring == Shown(c, o.log) && o.stats.ringbufDrop == Unshown(c, o.log)
  }

  /** The report's share in each of the totals. */
  lemma {:induction false} LogAppend(c: Ctrl, log: seq<Delivery>, d: Delivery)
    ensures CountKind(log + [d], QUEUED) == CountKind(log, QUEUED) + B(d.kind == QUEUED)
    ensures CountKind(log + [d], DIRECT) == CountKind(log, DIRECT) + B(d.kind == DIRECT)
    ensures SumResidence(log + [d]) == SumResidence(log) + if d.kind == QUEUED then d.residence else 0
    ensures Shown(c, log + [d]) == Shown(c, log) + if Above(c, d) && d.room
                                                   then [Event(d.ts, d.residence, d.meta, d.receiver, d.kind)] else []
    ensures Unshown(c, log + [d]) == Unshown(c, log) + B(Above(c, d) && !d.room)
  {
    assert (log + [d])[..|log|] == log;
  }

  lemma {:induction false} LargestAppend(log: seq<Delivery>, d: Delivery, m: int)
    requires IsLargest(log, m) && d.residence >= 0
    ensures IsLargest(log + [d], if d.kind == QUEUED && d.residence > m then d.residence else m)
  {
    var ds := log + [d];
    assert ds[|log|] == d;
    if m > 0 {
      var p :| 0 <= p < |log| && log[p].kind == QUEUED && log[p].residence == m;
      assert ds[p] == log[p];
    }
  }

  lemma {:induction false} TalliedSubmitQueued(c: Ctrl, o: Output, k: Key, q: QueuedMsg, r: RecvCtx, now: nat,
                                               room: bool)
    requires Tallied(c, o)
    ensures Tallied(c, SubmitQueued(c, o, k, q, r, now, room))
  {
    var d := Delivery(k, QUEUED, Elapsed(now, q.enqueueNs), q.meta, r, now, room);
    LogAppend(c, o.log, d);
    LargestAppend(o.log, d, o.stats.queuedMaxNs);
  }

  lemma {:induction false} TalliedSubmitDirect(c: Ctrl, o: Output, k: Key, m: Meta, r: RecvCtx, now: nat, room: bool)
    requires Tallied(c, o)
    ensures Tallied(c, SubmitDirect(c, o, k, m, r, now, room))
  {
    var d := Delivery(k, DIRECT, 0, m, r, now, room);
    LogAppend(c, o.log, d);
    LargestAppend(o.log, d, o.stats.queuedMaxNs);
  }

  /** Counters that are not totals of the log do not matter. */
  lemma {:induction false} TalliedSame(c: Ctrl, o: Output, p: Output)
    requires Tallied(c, o) && p.log == o.log && p.ring == o.ring
    requires p.stats.(unmatched := 0, trackingDrop := 0) == o.stats.(unmatched := 0, trackingDrop := 0)
    ensures Tallied(c, p)
  {
  }

  lemma {:induction false} TalliedConsume(c: Ctrl, s: State, tid: Tid, k: Key, u: bool, now: nat, room: bool)
    requires Tallied(c, s.out)
    ensures Tallied(c, Consume(c, s, tid, k, u, now, room).out)
  {
    if tid in s.recvs {
      if k in s.queued {
        TalliedSubmitQueued(c, s.out, k, s.queued[k], s.recvs[tid], now, room);
      } else if k in s.direct {
        TalliedSubmitDirect(c, s.out, k, s.direct[k], s.recvs[tid], now, room);
      } else if k in s.pending {
        TalliedSubmitDirect(c, s.out, k, s.pending[k], s.recvs[tid], now, room);
      } else {
        TalliedSame(c, s.out, Consume(c, s, tid, k, u, now, room).out);
      }
    }
  }

  /** Other events put nothing out but a counted drop. */
  lemma {:induction false} OutputKept(c: Ctrl, s: State, e: Probe)
    requires !e.StoreMsg? && !e.FreeMsg?
    ensures Step(c, s, e).out == s.out || Step(c, s, e).out == CountDrop(s.out)
  {
  }

  lemma {:induction false} TalliedStep(c: Ctrl, s: State, e: Probe)
    requires Tallied(c, s.out)
    ensures Tallied(c, Step(c, s, e).out)
  {
    match e
    case StoreMsg(tid, m, now, room) => TalliedConsume(c, s, tid, m, true, now, room);
    case FreeMsg(tid, m, now, room) => TalliedConsume(c, s, tid, m, false, now, room);
    case _ => OutputKept(c, s, e); TalliedSame(c, s.out, CountDrop(s.out));
  }

  /** In every run the counters are the exact number, sum and maximum over all reports, whatever the
      residence threshold; the ring buffer shows the reports above the threshold that found room, and the others above
      it are counted as drops. */
  lemma {:induction false} StatisticsExact(c: Ctrl, tr: Trace, n: nat)
    requires n <= |tr|
    ensures Tallied(c, RunTo(c, tr, n).out)
  {
    if n > 0 {
      StatisticsExact(c, tr, n - 1);
      TalliedStep(c, RunTo(c, tr, n - 1), tr[n - 1]);
    }
  }

  /** The map update of event j fails, when one is due. */
  ghost predicate DropsAt(c: Ctrl, tr: Trace, j: nat)
    requires j < |tr|
  {
    match tr[j]
    case SendEnter(_, tgid, _, _, _, _, ok) => c.enable && tgid != 0 && !ok
    case RecvEnter(_, tgid, _, _, ok) => c.enable && tgid != 0 && !ok
    case LoadMsgExit(t, k, ok) => IsAddress(k) && !ok && Sender(c, tr, j, t).Some?
    case MsgInsertExit(k, ret, _, ok) => ret == 0 && !ok && k in RunTo(c, tr, j).pending
    case SendExit(_, ret, ok) => ret == 0 && !ok && exists k :: k in RunTo(c, tr, j).pending && IsReturn(c, tr, j, k)
    case _ => false
  }

  /** Event j stores a message that no map knows, on a thread inside a tracked receive call that the PID filter lets
      through. */
  ghost predicate UnmatchedAt(c: Ctrl, tr: Trace, j: nat)
    requires j < |tr|
  {
    && tr[j].StoreMsg? && tr[j].msg != 0 && c.enable && Vacant(RunTo(c, tr, j), tr[j].msg)
    && (var r := Receiver(c, tr, j, tr[j].tid); r.Some? && (c.targetPid == 0 || c.targetPid == tr[r.value].tgid))
  }

  ghost function DropsTo(c: Ctrl, tr: Trace, n: nat): nat
    requires n <= |tr|
  {
    if n == 0 then 0 else DropsTo(c, tr, n - 1) + B(DropsAt(c, tr, n - 1))
  }

  ghost function UnmatchedTo(c: Ctrl, tr: Trace, n: nat): nat
    requires n <= |tr|
  {
    if n == 0 then 0 else UnmatchedTo(c, tr, n - 1) + B(UnmatchedAt(c, tr, n - 1))
  }

  predicate DropsIn(c: Ctrl, s: State, e: Probe) {
    match e
    case SendEnter(_, tgid, _, _, _, _, ok) => c.enable && tgid != 0 && !ok
    case RecvEnter(_, tgid, _, _, ok) => c.enable && tgid != 0 && !ok
    case LoadMsgExit(t, k, ok) => IsAddress(k) && !ok && t in s.sends
    case MsgInsertExit(k, ret, _, ok) => ret == 0 && !ok && k in s.pending
    case SendExit(t, ret, ok) => ret == 0 && !ok && t in s.sends && s.sends[t].msgKey in s.pending
    case _ => false
  }

  predicate UnmatchedIn(c: Ctrl, s: State, e: Probe) {
    && e.StoreMsg? && e.msg != 0 && c.enable && Vacant(s, e.msg)
    && e.tid in s.recvs && (c.targetPid == 0 || c.targetPid == s.recvs[e.tid].pid)
  }

  lemma {:induction false} CountersStep(c: Ctrl, s: State, e: Probe)
    requires 0 !in s.pending
    ensures var a, b := s.out.stats, Step(c, s, e).out.stats;
            && b.trackingDrop == a.trackingDrop + B(DropsIn(c, s, e))
            && b.unmatched == a.unmatched + B(UnmatchedIn(c, s, e))
  {
    match e
    case StoreMsg(tid, m, now, room) => ConsumeCounters(c, s, tid, m, true, now, room);
    case FreeMsg(tid, m, now, room) => ConsumeCounters(c, s, tid, m, false, now, room);
    case SendExit(tid, ret, ok) =>
    case MsgInsertExit(m, ret, now, ok) =>
    case _ =>
  }

  lemma {:induction false} ConsumeCounters(c: Ctrl, s: State, tid: Tid, k: Key, u: bool, now: nat, room: bool)
    ensures var a, b := s.out.stats, Consume(c, s, tid, k, u, now, room).out.stats;
            && b.trackingDrop == a.trackingDrop
            && b.unmatched == a.unmatched + B(u && k != 0 && c.enable && Vacant(s, k) && tid in s.recvs
                                              && (c.targetPid == 0 || c.targetPid == s.recvs[tid].pid))
  {
    if tid in s.recvs {
      if k in s.queued {
        SubmitKeeps(c, s.out, k, s.queued[k], s.recvs[tid], now, room);
      } else if k in s.direct {
        SubmitKeeps(c, s.out, k, QueuedMsg(0, s.direct[k]), s.recvs[tid], now, room);
      } else if k in s.pending {
        SubmitKeeps(c, s.out, k, QueuedMsg(0, s.pending[k]), s.recvs[tid], now, room);
      }
    }
  }

  lemma {:induction false} SubmitKeeps(c: Ctrl, o: Output, k: Key, q: QueuedMsg, r: RecvCtx, now: nat, room: bool)
    ensures var p := SubmitQueued(c, o, k, q, r, now, room).stats;
            p.trackingDrop == o.stats.trackingDrop && p.unmatched == o.stats.unmatched
    ensures var p := SubmitDirect(c, o, k, q.meta, r, now, room).stats;
            p.trackingDrop == o.stats.trackingDrop && p.unmatched == o.stats.unmatched
  {
  }

  /** In every run the two remaining counters are numbers of events: map updates that were due and failed, and stores
      of messages that no map knew. */
  lemma {:induction false} CountersAreTrace(c: Ctrl, tr: Trace, n: nat)
    requires n <= |tr|
    ensures RunTo(c, tr, n).out.stats.trackingDrop == DropsTo(c, tr, n)
    ensures RunTo(c, tr, n).out.stats.unmatched == UnmatchedTo(c, tr, n)
  {
    if n > 0 {
      CountersAreTrace(c, tr, n - 1);
      NeverZero(c, tr, n - 1);
      CountersSeen(c, tr, n - 1);
      CountersStep(c, RunTo(c, tr, n - 1), tr[n - 1]);
    }
  }

  lemma {:induction false} CountersSeen(c: Ctrl, tr: Trace, j: nat)
    requires j < |tr|
    ensures DropsAt(c, tr, j) <==> DropsIn(c, RunTo(c, tr, j), tr[j])
    ensures UnmatchedAt(c, tr, j) <==> UnmatchedIn(c, RunTo(c, tr, j), tr[j])
  {
    var s, e := RunTo(c, tr, j), tr[j];
    if e.LoadMsgExit? || e.StoreMsg? || e.SendExit? { CallsAreReplay(c, tr, j, e.tid); }
    if e.SendExit? && e.tid in s.sends { SeenInState(c, tr, j, s.sends[e.tid].msgKey); }
  }

  function Delivered(st: Stats): nat { st.queuedCount + st.directCount + st.unmatched }

  lemma {:induction false} SubmitCounts(c: Ctrl, o: Output, k: Key, q: QueuedMsg, r: RecvCtx, now: nat, room: bool)
    requires c.enable && c.targetPid == 0
    ensures Delivered(SubmitQueued(c, o, k, q, r, now, room).stats) == Delivered(o.stats) + 1
    ensures Delivered(SubmitDirect(c, o, k, q.meta, r, now, room).stats) == Delivered(o.stats) + 1
  {
  }

  /** With no PID filter, each store_msg on a tracked receiver adds one to exactly one of the three
      delivery counters. */
  lemma {:induction false} StoreCountedOnce(c: Ctrl, s: State, e: Probe)
    requires c.enable && c.targetPid == 0 && e.StoreMsg? && e.msg != 0 && e.tid in s.recvs
    ensures Delivered(Step(c, s, e).out.stats) == Delivered(s.out.stats) + 1
  {
    var k, r := e.msg, s.recvs[e.tid];
    if k in s.queued {
      SubmitCounts(c, s.out, k, s.queued[k], r, e.now, e.room);
    } else if k in s.direct {
      SubmitCounts(c, s.out, k, QueuedMsg(0, s.direct[k]), r, e.now, e.room);
    } else if k in s.pending {
      SubmitCounts(c, s.out, k, QueuedMsg(0, s.pending[k]), r, e.now, e.room);
    }
  }

  // ---------------------------------------------------------------- the hand-over race

  function WithoutTs(ring: seq<Event>): seq<Event> {
    seq(|ring|, i requires 0 <= i < |ring| => ring[i].(ts := 0))
  }

  function Timeless(log: seq<Delivery>): seq<Delivery> {
    seq(|log|, i requires 0 <= i < |log| => log[i].(ts := 0))
  }

  /** Equal up to the timestamps of ring-buffer records and of the log. */
  ghost predicate SameUpToTime(a: State, b: State) {
    && a.(out := a.out.(ring := [], log := [])) == b.(out := b.out.(ring := [], log := []))
    && WithoutTs(a.out.ring) == WithoutTs(b.out.ring) && Timeless(a.out.log) == Timeless(b.out.log)
  }

  /** The state after the sender's return alone, and after the receiver's store_msg alone. */
  lemma {:induction false} HandOverHalves(c: Ctrl, s: State, tx: Tid, rx: Tid, k: Key, t: nat, ok: bool, room: bool)
    requires k != 0 && tx in s.sends && s.sends[tx].msgKey == k
    requires k in s.pending && k !in s.queued && k !in s.direct
    ensures Step(c, s, SendExit(tx, 0, ok)) ==
            s.(sends := s.sends - {tx}, pending := s.pending - {k},
               direct := if ok then s.direct[k := s.pending[k]] else s.direct,
               out := if ok then s.out else CountDrop(s.out))
    ensures Step(c, s, StoreMsg(rx, k, t, room)) ==
            if rx !in s.recvs then s
            else s.(pending := s.pending - {k},
                    out := SubmitDirect(c, s.out, k, s.pending[k], s.recvs[rx], t, room))
  {
  }

  lemma {:induction false} SubmitDirectTime(c: Ctrl, o: Output, k: Key, m: Meta, r: RecvCtx, t1: nat, t2: nat,
                                            room: bool)
    ensures var a, b := SubmitDirect(c, o, k, m, r, t1, room), SubmitDirect(c, o, k, m, r, t2, room);
            && a.(ring := [], log := []) == b.(ring := [], log := [])
            && WithoutTs(a.ring) == WithoutTs(b.ring) && Timeless(a.log) == Timeless(b.log)
  {
  }

  /** A direct hand-over: the sender's successful return and the receiver's store_msg may come in either
      order.  The two orders agree exactly when the receiver is tracked and the sender's map update
      succeeds, or neither; a tracked receiver is otherwise not reported, and an untracked one leaves a
      stale `direct` entry. */
  lemma {:induction false} HandOverCommutes(c: Ctrl, s: State, tx: Tid, rx: Tid, k: Key, t1: nat, t2: nat, ok: bool,
                                            room: bool)
    requires k != 0 && tx in s.sends && s.sends[tx].msgKey == k
    requires k in s.pending && k !in s.queued && k !in s.direct
    ensures var send := SendExit(tx, 0, ok);
            SameUpToTime(Step(c, Step(c, s, send), StoreMsg(rx, k, t1, room)),
                         Step(c, Step(c, s, StoreMsg(rx, k, t2, room)), send))
            <==> (ok <==> rx in s.recvs)
  {
    var send := SendExit(tx, 0, ok);
    HandOverHalves(c, s, tx, rx, k, t2, ok, room);
    var s1, s2 := Step(c, s, send), Step(c, s, StoreMsg(rx, k, t2, room));
    var a, b := Step(c, s1, StoreMsg(rx, k, t1, room)), Step(c, s2, send);
    assert s.direct[k := s.pending[k]] - {k} == s.direct;
    if rx in s.recvs {
      SubmitDirectTime(c, s.out, k, s.pending[k], s.recvs[rx], t1, t2, room);
      assert b == s2.(sends := s.sends - {tx});
      if ok {
        assert a == s1.(direct := s.direct,
                        out := SubmitDirect(c, s.out, k, s.pending[k], s.recvs[rx], t1, room));
      } else {
        assert a.out.stats.trackingDrop == s.out.stats.trackingDrop + 1;
        assert b.out.stats.trackingDrop == s.out.stats.trackingDrop;
      }
    } else {
      assert b == s1;
      if ok { assert k in b.direct && k !in a.direct; } else { assert a == s1; }
    }
  }

  /** The excluded side is reachable: a receiver without a receive context that stores the message before its
      sender returns leaves a stale `direct` entry; after the return it would not. */
  lemma {:induction false} StaleDirect(c: Ctrl, tx: Tid, rx: Tid, k: Key, tgid: int, now: nat)
    returns (before: Trace, after: Trace)
    requires c.enable && tgid != 0 && ValidMsgPtr(k)
    ensures |before| == |after| == 4 && before[..2] == after[..2]
    ensures before[2] == after[3] == StoreMsg(rx, k, now, true) && before[3] == after[2] == SendExit(tx, 0, true)
    ensures k in RunTo(c, before, 4).direct && k !in RunTo(c, after, 4).direct
    ensures RunTo(c, before, 4).out.log == RunTo(c, after, 4).out.log == []
  {
    var enter, load := SendEnter(tx, tgid, 0, 0, 0, "", true), LoadMsgExit(tx, k, true);
    var store, exit := StoreMsg(rx, k, now, true), SendExit(tx, 0, true);
    before, after := [enter, load, store, exit], [enter, load, exit, store];
    var s := Step(c, Step(c, Init(), enter), load);
    assert s.pending.Keys == {k} && s.sends[tx].msgKey == k && rx !in s.recvs;
    TwoMore(c, before, s);
    TwoMore(c, after, s);
    assert Step(c, s, store) == s;
  }

  lemma {:induction false} TwoMore(c: Ctrl, tr: Trace, s: State)
    requires |tr| == 4 && s == Step(c, Step(c, Init(), tr[0]), tr[1])
    ensures RunTo(c, tr, 4) == Step(c, Step(c, s, tr[2]), tr[3])
  {
    assert RunTo(c, tr, 1) == Step(c, RunTo(c, tr, 0), tr[0]);
    assert RunTo(c, tr, 2) == s;
    assert RunTo(c, tr, 3) == Step(c, s, tr[2]);
  }
}
