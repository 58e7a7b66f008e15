/**
  The TCP session tracker (net/tcp_monitor/tcp_monitor.bpf.c).  Five probes share one LRU map from socket
  addresses to sessions; sockets are freed and their addresses used again, probes run on any CPU, the map may
  evict a session or refuse to store one, and the ring buffer may be full.
*/
module Tcp {
  import opened Wrappers
  import opened PerCpu

  type Sk = nat

  const U32: nat := 0x1_0000_0000
  const U64: nat := 0x1_0000_0000_0000_0000
  const AF_INET: int := 2
  const AF_INET6: int := 10

  datatype Ctrl = Ctrl(enable: bool, minLatencyNs: nat, targetPid: int)

  /** Address family, ports and addresses of a socket. */
  datatype Sock = Sock(af: int, sport: int, dport: int, saddr4: int, daddr4: int, saddr6: seq<int>, daddr6: seq<int>)

  const NoSock: Sock := Sock(0, 0, 0, 0, 0, [], [])

  datatype Sess = Sess(startTs: nat, tgid: int, tid: int, comm: string, retrans: nat, reported: bool, sock: Sock)

  /** save_sock: family and ports are the socket's, and so are the addresses of its family; the addresses of the other
      family stay as they were. */
  function SaveSock(old_: Sock, sk: Sock): (r: Sock)
    ensures r.af == sk.af && r.sport == sk.sport && r.dport == sk.dport
    ensures sk.af == 2 ==> r == sk.(saddr6 := old_.saddr6, daddr6 := old_.daddr6)
    ensures sk.af == 10 ==> r == sk.(saddr4 := old_.saddr4, daddr4 := old_.daddr4)
    ensures sk.af != 2 && sk.af != 10 ==> r == old_.(af := sk.af, sport := sk.sport, dport := sk.dport)
  {
    Sock(sk.af, sk.sport, sk.dport,
         if sk.af == AF_INET then sk.saddr4 else old_.saddr4, if sk.af == AF_INET then sk.daddr4 else old_.daddr4,
         if sk.af == AF_INET6 then sk.saddr6 else old_.saddr6, if sk.af == AF_INET6 then sk.daddr6 else old_.daddr6)
  }

  /** Number, sum and maximum of a kind of latency. */
  datatype Tally = Tally(count: nat, totalNs: nat, maxNs: nat)

  function Noted(t: Tally, ns: nat): Tally {
    Tally(t.count + 1, t.totalNs + ns, if ns > t.maxNs then ns else t.maxNs)
  }

  datatype Stats = Stats(attempted: nat, hs: Tally, cl: Tally, rtCount: nat, filteredLatency: nat, dropped: nat,
                         mapUpdateFailed: nat, untracked: nat, hsMaxSock: Sock, hsMaxComm: string)

  predicate Blank(st: Stats) {
    && st.attempted == st.rtCount == st.filteredLatency == st.dropped == st.mapUpdateFailed == st.untracked == 0
    && st.hs.count == st.hs.totalNs == st.hs.maxNs == st.cl.count == st.cl.totalNs == st.cl.maxNs == 0
  }

  function Zeros(cpus: nat): (r: seq<Stats>)
    ensures |r| == cpus && forall i :: 0 <= i < cpus ==> Blank(r[i])
  {
    if cpus == 0 then [] else Zeros(cpus - 1) + [Stats(0, Tally(0, 0, 0), Tally(0, 0, 0), 0, 0, 0, 0, 0, NoSock, "")]
  }

  datatype Kind = HANDSHAKE | RETRANSMIT | CLOSE

  datatype Event = Event(kind: Kind, ts: nat, latency: nat, state: int, retrans: nat,
                         tgid: int, tid: int, comm: string, sock: Sock)

  /** One counted handshake, retransmission or close: on which CPU, whether the ring buffer had room, and the
      event; the log of these is the observer's record of a run. */
  datatype Report = Report(cpu: nat, room: bool, event: Event)

  /** lost: stored sessions that went away without a close report; unsettled: those that went away, closed or
      not, before their handshake was settled. */
  datatype State = State(sess: map<Sk, Sess>, stats: seq<Stats>, ring: seq<Event>, log: seq<Report>,
                         lost: nat, unsettled: nat)

  datatype Probe =
    | Connect(sk: Sk, cpu: nat, visible: Option<(int, int)>, now: nat, comm: string, stored: bool)
    | ConnectRet(sk: Sk, ret: int, sock: Sock)
    | Finish(sk: Sk, cpu: nat, now: nat, sock: Sock, state: int, room: bool)
    | Retransmit(sk: Sk, cpu: nat, now: nat, sock: Sock, state: int, room: bool)
    | Close(sk: Sk, cpu: nat, now: nat, state: int, room: bool)
    | Evict(sk: Sk)

  type Trace = seq<Probe>

  predicate OnCpu(e: Probe, cpus: nat) {
    match e
    case Connect(_, cpu, _, _, _, _) => cpu < cpus
    case Finish(_, cpu, _, _, _, _) => cpu < cpus
    case Retransmit(_, cpu, _, _, _, _) => cpu < cpus
    case Close(_, cpu, _, _, _) => cpu < cpus
    case _ => true
  }

  /** session_allowed */
  predicate Allowed(c: Ctrl, tgid: int) { c.enable && (c.targetPid == 0 || c.targetPid % U32 == tgid) }

  /** A connect whose caller passes the filter. */
  predicate Tracked(c: Ctrl, e: Probe) { e.Connect? && e.visible.Some? && Allowed(c, e.visible.value.0) }

  function Opened(e: Probe): Sess
    requires e.Connect? && e.visible.Some?
  {
    Sess(e.now, e.visible.value.0, e.visible.value.1, e.comm, 0, false, NoSock)
  }

  /** How many sessions of socket sk there are, and how many of them have no settled handshake. */
  function Held(m: map<Sk, Sess>, sk: Sk): nat { if sk in m then 1 else 0 }
  function Pending(m: map<Sk, Sess>, sk: Sk): nat { if sk in m && !m[sk].reported then 1 else 0 }

  /** An unsigned 64-bit difference. */
  function Elapsed(now: nat, since: nat): (r: nat)
    ensures r < 0x1_0000_0000_0000_0000 && (since <= now < since + 0x1_0000_0000_0000_0000 ==> r == now - since)
  {
    (now - since) % U64
  }

  predicate TooQuick(c: Ctrl, latency: nat) { c.minLatencyNs != 0 && latency < c.minLatencyNs }

  function Room(st: Stats, room: bool): Stats { if room then st else st.(dropped := st.dropped + 1) }

  function Publish(ring: seq<Event>, room: bool, v: Event): seq<Event> { if room then ring + [v] else ring }

  // ---------------------------------------------------------------- one step per probe

  function ConnectStep(c: Ctrl, s: State, e: Probe): State
    requires e.Connect? && OnCpu(e, |s.stats|)
  {
    if !Tracked(c, e) then s
    else
      var st := s.stats[e.cpu];
      s.(sess := if e.stored then s.sess[e.sk := Opened(e)] else s.sess,
         stats := s.stats[e.cpu := st.(attempted := st.attempted + 1,
                                       mapUpdateFailed := st.mapUpdateFailed + if e.stored then 0 else 1)],
         lost := s.lost + if e.stored then Held(s.sess, e.sk) else 0,
         unsettled := s.unsettled + if e.stored then Pending(s.sess, e.sk) else 0)
  }

  /** Sessions removed without a report, by a failed connect or by the LRU policy. */
  function Forget(s: State, sk: Sk): State {
    s.(sess := s.sess - {sk}, lost := s.lost + Held(s.sess, sk), unsettled := s.unsettled + Pending(s.sess, sk))
  }

  function ConnectRetStep(s: State, e: Probe): State
    requires e.ConnectRet?
  {
    if e.ret < 0 then Forget(s, e.sk)
    else if e.sk in s.sess then s.(sess := s.sess[e.sk := s.sess[e.sk].(sock := SaveSock(s.sess[e.sk].sock, e.sock))])
    else s
  }

  function Untracked(c: Ctrl, s: State, cpu: nat): State
    requires cpu < |s.stats|
  {
    if c.targetPid != 0 then s
    else s.(stats := s.stats[cpu := s.stats[cpu].(untracked := s.stats[cpu].untracked + 1)])
  }

  /** The session after its handshake is settled. */
  function Settled(c: Ctrl, x: Sess, e: Probe): Sess
    requires e.Finish?
  {
    x.(reported := true, sock := if TooQuick(c, Elapsed(e.now, x.startTs)) then x.sock else SaveSock(x.sock, e.sock))
  }

  function HandshakeStats(st: Stats, x: Sess, latency: nat): Stats {
    st.(hs := Noted(st.hs, latency),
        hsMaxSock := if latency > st.hs.maxNs then x.sock else st.hsMaxSock,
        hsMaxComm := if latency > st.hs.maxNs then x.comm else st.hsMaxComm)
  }

  function FinishStep(c: Ctrl, s: State, e: Probe): State
    requires e.Finish? && OnCpu(e, |s.stats|)
  {
    if !c.enable then s
    else if e.sk !in s.sess then Untracked(c, s, e.cpu)
    else if !Allowed(c, s.sess[e.sk].tgid) || s.sess[e.sk].reported then s
    else
      var x := Settled(c, s.sess[e.sk], e);
      var latency := Elapsed(e.now, x.startTs);
      var st := s.stats[e.cpu];
      if TooQuick(c, latency) then
        s.(sess := s.sess[e.sk := x], stats := s.stats[e.cpu := st.(filteredLatency := st.filteredLatency + 1)])
      else
        var v := Event(HANDSHAKE, e.now, latency, e.state, 0, x.tgid, x.tid, x.comm, x.sock);
        s.(sess := s.sess[e.sk := x], stats := s.stats[e.cpu := Room(HandshakeStats(st, x, latency), e.room)],
           ring := Publish(s.ring, e.room, v), log := s.log + [Report(e.cpu, e.room, v)])
  }

  function RetransmitStep(c: Ctrl, s: State, e: Probe): State
    requires e.Retransmit? && OnCpu(e, |s.stats|)
  {
    if !c.enable then s
    else if e.sk !in s.sess then Untracked(c, s, e.cpu)
    else if !Allowed(c, s.sess[e.sk].tgid) then s
    else
      var x := s.sess[e.sk].(retrans := (s.sess[e.sk].retrans + 1) % U32);
      var st := s.stats[e.cpu];
      var v := Event(RETRANSMIT, e.now, 0, e.state, x.retrans, x.tgid, x.tid, x.comm, SaveSock(NoSock, e.sock));
      s.(sess := s.sess[e.sk := x], stats := s.stats[e.cpu := Room(st.(rtCount := st.rtCount + 1), e.room)],
         ring := Publish(s.ring, e.room, v), log := s.log + [Report(e.cpu, e.room, v)])
  }

  function CloseStep(c: Ctrl, s: State, e: Probe): State
    requires e.Close? && OnCpu(e, |s.stats|)
  {
    if e.sk !in s.sess then s
    else if !Allowed(c, s.sess[e.sk].tgid) then Forget(s, e.sk)
    else
      var x := s.sess[e.sk];
      var st := s.stats[e.cpu];
      var lifetime := Elapsed(e.now, x.startTs);
      var v := Event(CLOSE, e.now, lifetime, e.state, x.retrans, x.tgid, x.tid, x.comm, x.sock);
      s.(sess := s.sess - {e.sk}, stats := s.stats[e.cpu := Room(st.(cl := Noted(st.cl, lifetime)), e.room)],
         ring := Publish(s.ring, e.room, v), log := s.log + [Report(e.cpu, e.room, v)],
         unsettled := s.unsettled + Pending(s.sess, e.sk))
  }

  function Step(c: Ctrl, s: State, e: Probe): State
    requires OnCpu(e, |s.stats|)
  {
    match e
    case Connect(_, _, _, _, _, _) => ConnectStep(c, s, e)
    case ConnectRet(_, _, _) => ConnectRetStep(s, e)
    case Finish(_, _, _, _, _, _) => FinishStep(c, s, e)
    case Retransmit(_, _, _, _, _, _) => RetransmitStep(c, s, e)
    case Close(_, _, _, _, _) => CloseStep(c, s, e)
    case Evict(sk) => Forget(s, sk)
  }

  function Init(cpus: nat): State { State(map[], Zeros(cpus), [], [], 0, 0) }

  ghost predicate OnCpus(tr: Trace, cpus: nat) { forall i :: 0 <= i < |tr| ==> OnCpu(tr[i], cpus) }

  function RunTo(c: Ctrl, cpus: nat, tr: Trace, n: nat): (s: State)
    requires n <= |tr| && OnCpus(tr, cpus)
    ensures |s.stats| == cpus
  {
    if n == 0 then Init(cpus) else Step(c, RunTo(c, cpus, tr, n - 1), tr[n - 1])
  }

  // ---------------------------------------------------------------- the probes as they run

  class Monitor {
    const ctrl: Ctrl
    var sess: map<Sk, Sess>
    var stats: seq<Stats>
    var ring: seq<Event>
    ghost var log: seq<Report>
    ghost var lost: nat
    ghost var unsettled: nat

    ghost function View(): State
      reads this
    {
      State(sess, stats, ring, log, lost, unsettled)
    }

    constructor (c: Ctrl, cpus: nat)
      ensures ctrl == c && View() == Init(cpus)
    {
      ctrl := c;
      sess, stats, ring := map[], Zeros(cpus), [];
      log, lost, unsettled := [], 0, 0;
    }

    /** record_connect */
    method RecordConnect(e: Probe)
      requires e.Connect? && OnCpu(e, |stats|)
      modifies this
      ensures View() == Step(ctrl, old(View()), e)
    {
      if !ctrl.enable || e.visible.None? { return; }
      var tgid, tid := e.visible.value.0, e.visible.value.1;
      if ctrl.targetPid != 0 && ctrl.targetPid % U32 != tgid { return; }
      var st := stats[e.cpu];
      st := st.(attempted := st.attempted + 1);
      if e.stored {
        lost, unsettled := lost + Held(sess, e.sk), unsettled + Pending(sess, e.sk);
        sess := sess[e.sk := Sess(e.now, tgid, tid, e.comm, 0, false, NoSock)];
      } else {
        st := st.(mapUpdateFailed := st.mapUpdateFailed + 1);
      }
      stats := stats[e.cpu := st];
    }

    /** A session goes away without a report. */
    method Delete(sk: Sk)
      modifies this`sess, this`lost, this`unsettled
      ensures View() == Forget(old(View()), sk)
    {
      lost, unsettled := lost + Held(sess, sk), unsettled + Pending(sess, sk);
      sess := sess - {sk};
    }

    /** finish_connect_call */
    method FinishConnectCall(e: Probe)
      requires e.ConnectRet?
      modifies this
      ensures View() == ConnectRetStep(old(View()), e)
    {
      if e.ret < 0 {
        Delete(e.sk);
        return;
      }
      if e.sk in sess {
        var x := sess[e.sk];
        sess := sess[e.sk := x.(sock := SaveSock(x.sock, e.sock))];
      }
    }

    method CountUntracked(cpu: nat)
      requires cpu < |stats|
      modifies this`stats
      ensures View() == Untracked(ctrl, old(View()), cpu)
    {
      if ctrl.targetPid == 0 {
        stats := stats[cpu := stats[cpu].(untracked := stats[cpu].untracked + 1)];
      }
    }

    /** Reserve room in the ring buffer and submit the event, or count the drop. */
    method Submit(cpu: nat, room: bool, v: Event)
      requires cpu < |stats|
      modifies this`stats, this`ring, this`log
      ensures stats == old(stats)[cpu := Room(old(stats)[cpu], room)] && ring == Publish(old(ring), room, v)
      ensures log == old(log) + [Report(cpu, room, v)]
    {
      log := log + [Report(cpu, room, v)];
      if !room {
        stats := stats[cpu := stats[cpu].(dropped := stats[cpu].dropped + 1)];
        return;
      }
      assert stats[cpu := stats[cpu]] == stats;
      ring := ring + [v];
    }

    /** trace_tcp_finish_connect */
    method TraceFinishConnect(e: Probe)
      requires e.Finish? && OnCpu(e, |stats|)
      modifies this
      ensures View() == FinishStep(ctrl, old(View()), e)
    {
      if !ctrl.enable { return; }
      if e.sk !in sess {
        CountUntracked(e.cpu);
        return;
      }
      var x := sess[e.sk];
      if !Allowed(ctrl, x.tgid) || x.reported { return; }
      var latency := Elapsed(e.now, x.startTs);
      var st := stats[e.cpu];
      x := x.(reported := true);
      if ctrl.minLatencyNs != 0 && latency < ctrl.minLatencyNs {
        sess := sess[e.sk := x];
        stats := stats[e.cpu := st.(filteredLatency := st.filteredLatency + 1)];
        return;
      }
      x := x.(sock := SaveSock(x.sock, e.sock));
      sess := sess[e.sk := x];
      if latency > st.hs.maxNs {
        st := st.(hsMaxSock := x.sock, hsMaxComm := x.comm);
      }
      st := st.(hs := Noted(st.hs, latency));
      stats := stats[e.cpu := st];
      Submit(e.cpu, e.room, Event(HANDSHAKE, e.now, latency, e.state, 0, x.tgid, x.tid, x.comm, x.sock));
    }

    /** trace_tcp_retransmit */
    method TraceRetransmit(e: Probe)
      requires e.Retransmit? && OnCpu(e, |stats|)
      modifies this
      ensures View() == RetransmitStep(ctrl, old(View()), e)
    {
      if !ctrl.enable { return; }
      if e.sk !in sess {
        CountUntracked(e.cpu);
        return;
      }
      var x := sess[e.sk];
      if !Allowed(ctrl, x.tgid) { return; }
      x := x.(retrans := (x.retrans + 1) % U32);
      sess := sess[e.sk := x];
      stats := stats[e.cpu := stats[e.cpu].(rtCount := stats[e.cpu].rtCount + 1)];
      Submit(e.cpu, e.room, Event(RETRANSMIT, e.now, 0, e.state, x.retrans, x.tgid, x.tid, x.comm,
                                  SaveSock(NoSock, e.sock)));
    }

    /** trace_tcp_close */
    method TraceClose(e: Probe)
      requires e.Close? && OnCpu(e, |stats|)
      modifies this
      ensures View() == CloseStep(ctrl, old(View()), e)
    {
      if e.sk !in sess { return; }
      var snapshot := sess[e.sk];
      if !Allowed(ctrl, snapshot.tgid) {
        Delete(e.sk);
        return;
      }
      unsettled := unsettled + Pending(sess, e.sk);
      sess := sess - {e.sk};
      var lifetime := Elapsed(e.now, snapshot.startTs);
      stats := stats[e.cpu := stats[e.cpu].(cl := Noted(stats[e.cpu].cl, lifetime))];
      Submit(e.cpu, e.room, Event(CLOSE, e.now, lifetime, e.state, snapshot.retrans, snapshot.tgid, snapshot.tid,
                                  snapshot.comm, snapshot.sock));
    }
  }

  // ---------------------------------------------------------------- sessions are a replay of the trace

  /** Event e is a connect of a visible process while the tracker is on and asks for all processes or for that one. */
  predicate Wanted(c: Ctrl, e: Probe) {
    && e.Connect? && e.visible.Some? && c.enable
    && (c.targetPid == 0 || c.targetPid % 0x1_0000_0000 == e.visible.value.0)
  }

  /** Event e stores a session for sk, or takes sk's session away. */
  predicate Starts(c: Ctrl, e: Probe, sk: Sk) { e.sk == sk && Wanted(c, e) && e.stored }
  predicate Ends(e: Probe, sk: Sk) { e.sk == sk && (e.Close? || e.Evict? || (e.ConnectRet? && e.ret < 0)) }

  /** The current session of sk, seen from the trace alone: event o stored it, and nothing replaced it or took
      it away before event n. */
  ghost predicate Since(c: Ctrl, tr: Trace, o: nat, n: nat, sk: Sk)
    requires n <= |tr|
  {
    o < n && Starts(c, tr[o], sk) && forall k :: o < k < n ==> !Starts(c, tr[k], sk) && !Ends(tr[k], sk)
  }

  function Retransmits(tr: Trace, o: nat, n: nat, sk: Sk): nat
    requires o < n <= |tr|
  {
    if n == o + 1 then 0
    else Retransmits(tr, o, n - 1, sk) + if tr[n - 1].Retransmit? && tr[n - 1].sk == sk then 1 else 0
  }

  predicate Finishes(e: Probe, sk: Sk) { e.Finish? && e.sk == sk }

  ghost predicate Finished(tr: Trace, o: nat, n: nat, sk: Sk)
    requires n <= |tr|
  {
    exists k :: o < k < n && Finishes(tr[k], sk)
  }

  /** The addresses last saved: by a successful connect return, or by the first finish if it is not too quick. */
  ghost function LastSock(c: Ctrl, tr: Trace, o: nat, n: nat, sk: Sk): Sock
    requires o < n <= |tr| && tr[o].Connect?
  {
    if n == o + 1 then NoSock
    else
      var p, e := LastSock(c, tr, o, n - 1, sk), tr[n - 1];
      if e.ConnectRet? && e.sk == sk then SaveSock(p, e.sock)
      else if Finishes(e, sk) && !Finished(tr, o, n - 1, sk) && Elapsed(e.now, tr[o].now) >= c.minLatencyNs
      then SaveSock(p, e.sock) else p
  }

  ghost function Replay(c: Ctrl, tr: Trace, o: nat, n: nat, sk: Sk): Sess
    requires n <= |tr| && Since(c, tr, o, n, sk)
  {
    Sess(tr[o].now, tr[o].visible.value.0, tr[o].visible.value.1, tr[o].comm,
         Retransmits(tr, o, n, sk) % 0x1_0000_0000, Finished(tr, o, n, sk), LastSock(c, tr, o, n, sk))
  }

  /** What one step does to the session of sk. */
  lemma {:induction false} SessionStep(c: Ctrl, s: State, e: Probe, sk: Sk)
    requires OnCpu(e, |s.stats|) && (sk in s.sess ==> Allowed(c, s.sess[sk].tgid))
    ensures Moves(c, e, sk, s.sess, Step(c, s, e).sess)
  {
  }

  function Evolved(c: Ctrl, x: Sess, e: Probe, sk: Sk): Sess {
    if e.sk != sk then x
    else if e.ConnectRet? then x.(sock := SaveSock(x.sock, e.sock))
    else if e.Finish? && !x.reported then Settled(c, x, e)
    else if e.Retransmit? then x.(retrans := (x.retrans + 1) % U32)
    else x
  }

  lemma {:induction false} ModSucc(k: nat)
    ensures (k % U32 + 1) % U32 == (k + 1) % U32
  {
  }

  lemma {:induction false} FinishedStep(tr: Trace, o: nat, n: nat, sk: Sk)
    requires o + 1 < n <= |tr|
    ensures Finished(tr, o, n, sk) <==> Finished(tr, o, n - 1, sk) || Finishes(tr[n - 1], sk)
  {
  }

  lemma {:induction false} SinceStep(c: Ctrl, tr: Trace, o: nat, n: nat, sk: Sk)
    requires 0 < n <= |tr|
    ensures Since(c, tr, o, n, sk)
       <==> if Starts(c, tr[n - 1], sk) then o == n - 1 else Since(c, tr, o, n - 1, sk) && !Ends(tr[n - 1], sk)
  {
  }

  lemma {:induction false} ReplayStep(c: Ctrl, tr: Trace, o: nat, n: nat, sk: Sk)
    requires 0 < n <= |tr| && Since(c, tr, o, n - 1, sk) && !Starts(c, tr[n - 1], sk) && !Ends(tr[n - 1], sk)
    ensures Since(c, tr, o, n, sk) && Replay(c, tr, o, n, sk) == Evolved(c, Replay(c, tr, o, n - 1, sk), tr[n - 1], sk)
  {
    FinishedStep(tr, o, n, sk);
    ModSucc(Retransmits(tr, o, n - 1, sk));
  }

  /** Map m holds sk iff the trace has a current session of sk before event n, and it is the replay since. */
  ghost predicate Replays(c: Ctrl, tr: Trace, n: nat, sk: Sk, m: map<Sk, Sess>)
    requires n <= |tr|
  {
    && (sk in m <==> exists o :: Since(c, tr, o, n, sk))
    && forall o :: Since(c, tr, o, n, sk) ==> m[sk] == Replay(c, tr, o, n, sk)
  }

  /** Event e turns session map m into u as far as sk is concerned. */
  predicate Moves(c: Ctrl, e: Probe, sk: Sk, m: map<Sk, Sess>, u: map<Sk, Sess>) {
    if Starts(c, e, sk) then sk in u && u[sk] == Opened(e)
    else if Ends(e, sk) then sk !in u
    else (sk in u <==> sk in m) && (sk in m ==> u[sk] == Evolved(c, m[sk], e, sk))
  }

  lemma {:induction false} ReplayNext(c: Ctrl, tr: Trace, r: nat, sk: Sk, m: map<Sk, Sess>, u: map<Sk, Sess>)
    requires r < |tr| && Replays(c, tr, r, sk, m) && Moves(c, tr[r], sk, m, u)
    ensures Replays(c, tr, r + 1, sk, u)
  {
    var n, e := r + 1, tr[r];
    forall o: nat {:trigger Since(c, tr, o, n, sk)} {:trigger Since(c, tr, o, r, sk)}
      ensures Since(c, tr, o, n, sk) <==> if Starts(c, e, sk) then o == r else Since(c, tr, o, r, sk) && !Ends(e, sk)
    {
      SinceStep(c, tr, o, n, sk);
    }
    if Starts(c, e, sk) {
      assert Since(c, tr, r, n, sk);
    } else if !Ends(e, sk) {
      forall o | Since(c, tr, o, n, sk) ensures Replay(c, tr, o, n, sk) == Evolved(c, Replay(c, tr, o, r, sk), e, sk) {
        ReplayStep(c, tr, o, n, sk);
      }
    }
  }

  /** In every run, whatever is evicted or refused, the map holds sk iff the trace has a current session of sk,
      and the entry is exactly the replay of the trace since that connect. */
  lemma {:induction false} SessionIsReplay(c: Ctrl, cpus: nat, tr: Trace, n: nat, sk: Sk)
    requires n <= |tr| && OnCpus(tr, cpus)
    ensures Replays(c, tr, n, sk, RunTo(c, cpus, tr, n).sess)
  {
    if n > 0 {
      var r := n - 1;
      SessionIsReplay(c, cpus, tr, r, sk);
      var s := RunTo(c, cpus, tr, r);
      SessionStep(c, s, tr[r], sk);
      ReplayNext(c, tr, r, sk, s.sess, RunTo(c, cpus, tr, n).sess);
    }
  }

  /** Every stored session belongs to a process the filter admits. */
  lemma {:induction false} SessionsAllowed(c: Ctrl, cpus: nat, tr: Trace, n: nat, sk: Sk)
    requires n <= |tr| && OnCpus(tr, cpus) && sk in RunTo(c, cpus, tr, n).sess
    ensures c.enable
    ensures c.targetPid == 0 || c.targetPid % 0x1_0000_0000 == RunTo(c, cpus, tr, n).sess[sk].tgid
  {
    SessionIsReplay(c, cpus, tr, n, sk);
  }

  // ---------------------------------------------------------------- what is reported, from the trace alone

  /** The trace has a current session of sk before event n; it waits for its handshake. */
  ghost predicate Live(c: Ctrl, tr: Trace, n: nat, sk: Sk)
    requires n <= |tr|
  {
    exists o :: Since(c, tr, o, n, sk)
  }

  ghost predicate Waits(c: Ctrl, tr: Trace, n: nat, sk: Sk)
    requires n <= |tr|
  {
    exists o :: Since(c, tr, o, n, sk) && !Finished(tr, o, n, sk)
  }

  lemma {:induction false} SinceUnique(c: Ctrl, tr: Trace, o: nat, o': nat, n: nat, sk: Sk)
    requires n <= |tr| && Since(c, tr, o, n, sk) && Since(c, tr, o', n, sk)
    ensures o == o'
  {
    assert Starts(c, tr[o], sk) && Starts(c, tr[o'], sk);
  }

  /** The event about the session that o stored, with its owner. */
  function EventAbout(o: Probe, kind: Kind, e: Probe, latency: nat, retrans: nat, sock: Sock): Event
    requires o.Connect? && o.visible.Some? && (e.Finish? || e.Retransmit? || e.Close?)
  {
    Event(kind, e.now, latency, e.state, retrans, o.visible.value.0, o.visible.value.1, o.comm, sock)
  }

  /** What event r has to report about the session that o stored: a close with its lifetime, all retransmissions
      and the addresses last saved; a retransmission with the number so far; the first finish with its latency,
      unless that is too quick. */
  ghost function DueSince(c: Ctrl, tr: Trace, o: nat, r: nat): seq<Report>
    requires r < |tr| && Since(c, tr, o, r, tr[r].sk)
  {
    var e, sk := tr[r], tr[r].sk;
    match e
    case Close(_, cpu, now, _, room) =>
      [Report(cpu, room, EventAbout(tr[o], CLOSE, e, Elapsed(now, tr[o].now),
                                    Retransmits(tr, o, r, sk) % 0x1_0000_0000,
                                    LastSock(c, tr, o, r, sk)))]
    case Retransmit(_, cpu, _, sock, _, room) =>
      [Report(cpu, room, EventAbout(tr[o], RETRANSMIT, e, 0, Retransmits(tr, o, r + 1, sk) % 0x1_0000_0000,
                                    SaveSock(NoSock, sock)))]
    case Finish(_, cpu, now, _, _, room) =>
      if Finished(tr, o, r, sk) || Elapsed(now, tr[o].now) < c.minLatencyNs then []
      else [Report(cpu, room, EventAbout(tr[o], HANDSHAKE, e, Elapsed(now, tr[o].now), 0,
                                         LastSock(c, tr, o, r + 1, sk)))]
    case _ => []
  }

  ghost function Due(c: Ctrl, tr: Trace, r: nat): seq<Report>
    requires r < |tr|
  {
    if Live(c, tr, r, tr[r].sk) then (var o :| Since(c, tr, o, r, tr[r].sk); DueSince(c, tr, o, r)) else []
  }

  ghost function DueTo(c: Ctrl, tr: Trace, n: nat): seq<Report>
    requires n <= |tr|
  {
    if n == 0 then [] else DueTo(c, tr, n - 1) + Due(c, tr, n - 1)
  }

  /** The same from a session of the map. */
  function DueOf(c: Ctrl, x: Sess, e: Probe): seq<Report> {
    match e
    case Close(_, cpu, now, state, room) =>
      [Report(cpu, room, Event(CLOSE, now, Elapsed(now, x.startTs), state, x.retrans, x.tgid, x.tid, x.comm, x.sock))]
    case Retransmit(_, cpu, now, sock, state, room) =>
      [Report(cpu, room, Event(RETRANSMIT, now, 0, state, (x.retrans + 1) % U32, x.tgid, x.tid, x.comm,
                               SaveSock(NoSock, sock)))]
    case Finish(_, cpu, now, sock, state, room) =>
      if x.reported || TooQuick(c, Elapsed(now, x.startTs)) then []
      else [Report(cpu, room, Event(HANDSHAKE, now, Elapsed(now, x.startTs), state, 0, x.tgid, x.tid, x.comm,
                                    SaveSock(x.sock, sock)))]
    case _ => []
  }

  lemma {:induction false} LogStep(c: Ctrl, s: State, e: Probe)
    requires OnCpu(e, |s.stats|) && (e.sk in s.sess ==> Allowed(c, s.sess[e.sk].tgid))
    ensures Step(c, s, e).log == s.log + if e.sk in s.sess then DueOf(c, s.sess[e.sk], e) else []
  {
  }

  lemma {:induction false} DueIsDue(c: Ctrl, tr: Trace, o: nat, r: nat)
    requires r < |tr| && Since(c, tr, o, r, tr[r].sk)
    ensures DueOf(c, Replay(c, tr, o, r, tr[r].sk), tr[r]) == DueSince(c, tr, o, r)
  {
    ModSucc(Retransmits(tr, o, r, tr[r].sk));
  }

  lemma {:induction false} DueAt(c: Ctrl, tr: Trace, o: nat, r: nat)
    requires r < |tr| && Since(c, tr, o, r, tr[r].sk)
    ensures Due(c, tr, r) == DueSince(c, tr, o, r)
  {
    forall o' | Since(c, tr, o', r, tr[r].sk) ensures o' == o {
      SinceUnique(c, tr, o, o', r, tr[r].sk);
    }
  }

  /** In every run the reports are exactly the due ones, in order: every close and retransmission of a current
      session and its first handshake that is slow enough, and nothing else. */
  lemma {:induction false} LogIsDue(c: Ctrl, cpus: nat, tr: Trace, n: nat)
    requires n <= |tr| && OnCpus(tr, cpus)
    ensures RunTo(c, cpus, tr, n).log == DueTo(c, tr, n)
  {
    if n > 0 {
      var r := n - 1;
      LogIsDue(c, cpus, tr, r);
      var s, e := RunTo(c, cpus, tr, r), tr[r];
      SessionIsReplay(c, cpus, tr, r, e.sk);
      LogStep(c, s, e);
      if o :| Since(c, tr, o, r, e.sk) {
        DueAt(c, tr, o, r);
        DueIsDue(c, tr, o, r);
      }
    }
  }

  /** Every report tells the truth about one session: o stored it, r reported on it. */
  lemma {:induction false} ReportOrigin(c: Ctrl, cpus: nat, tr: Trace, n: nat, p: nat) returns (o: nat, r: nat)
    requires n <= |tr| && OnCpus(tr, cpus) && p < |RunTo(c, cpus, tr, n).log|
    ensures r < n && Since(c, tr, o, r, tr[r].sk) && DueSince(c, tr, o, r) == [RunTo(c, cpus, tr, n).log[p]]
  {
    LogIsDue(c, cpus, tr, n);
    o, r := DueOrigin(c, tr, n, p);
  }

  lemma {:induction false} DueOrigin(c: Ctrl, tr: Trace, n: nat, p: nat) returns (o: nat, r: nat)
    requires n <= |tr| && p < |DueTo(c, tr, n)|
    ensures r < n && Since(c, tr, o, r, tr[r].sk) && DueSince(c, tr, o, r) == [DueTo(c, tr, n)[p]]
  {
    if p < |DueTo(c, tr, n - 1)| {
      o, r := DueOrigin(c, tr, n - 1, p);
    } else {
      r := n - 1;
      o :| Since(c, tr, o, r, tr[r].sk);
      DueAt(c, tr, o, r);
    }
  }

  // ---------------------------------------------------------------- the statistics are exact

  /** The reports that found room, in order. */
  function Shown(log: seq<Report>): seq<Event> {
    if log == [] then []
    else Shown(log[..|log| - 1]) + if log[|log| - 1].room then [log[|log| - 1].event] else []
  }

  predicate Of(x: Report, cpu: nat, kind: Kind) { x.cpu == cpu && x.event.kind == kind }

  /** Number and sum of the latencies of one kind reported on one CPU. */
  function CountOf(log: seq<Report>, cpu: nat, kind: Kind): nat {
    if log == [] then 0 else CountOf(log[..|log| - 1], cpu, kind) + if Of(log[|log| - 1], cpu, kind) then 1 else 0
  }

  function SumOf(log: seq<Report>, cpu: nat, kind: Kind): nat {
    if log == [] then 0
    else SumOf(log[..|log| - 1], cpu, kind)
         + if Of(log[|log| - 1], cpu, kind) then log[|log| - 1].event.latency else 0
  }

  /** m is the largest of them, or 0 if there is none. */
  ghost predicate IsLargest(log: seq<Report>, cpu: nat, kind: Kind, m: nat) {
    && (forall p :: 0 <= p < |log| && Of(log[p], cpu, kind) ==> log[p].event.latency <= m)
    && (m > 0 ==> exists p :: 0 <= p < |log| && Of(log[p], cpu, kind) && log[p].event.latency == m)
  }

  ghost predicate Tallies(log: seq<Report>, cpu: nat, kind: Kind, t: Tally) {
    t.count == CountOf(log, cpu, kind) && t.totalNs == SumOf(log, cpu, kind) && IsLargest(log, cpu, kind, t.maxNs)
  }

  lemma {:induction false} TalliesAppend(log: seq<Report>, cpu: nat, kind: Kind, t: Tally, x: Report)
    requires Tallies(log, cpu, kind, t)
    ensures Tallies(log + [x], cpu, kind, if Of(x, cpu, kind) then Noted(t, x.event.latency) else t)
  {
    var log' := log + [x];
    LogAppend(log, x, cpu, kind);
    assert log'[|log|] == x;
    if t.maxNs > 0 {
      var p :| 0 <= p < |log| && Of(log[p], cpu, kind) && log[p].event.latency == t.maxNs;
      assert log'[p] == log[p];
    }
  }

  function DropsOf(log: seq<Report>, cpu: nat): nat {
    if log == [] then 0
    else DropsOf(log[..|log| - 1], cpu) + if log[|log| - 1].cpu == cpu && !log[|log| - 1].room then 1 else 0
  }

  /** x is a handshake with the latency, addresses and name kept as the maximum in st. */
  predicate IsMax(st: Stats, x: Report, cpu: nat) {
    && Of(x, cpu, HANDSHAKE) && x.event.latency == st.hs.maxNs
    && x.event.sock == st.hsMaxSock && x.event.comm == st.hsMaxComm
  }

  ghost predicate HasMax(log: seq<Report>, st: Stats, cpu: nat) {
    st.hs.maxNs > 0 ==> exists p :: 0 <= p < |log| && IsMax(st, log[p], cpu)
  }

  ghost predicate Counts(log: seq<Report>, st: Stats, cpu: nat) {
    && Tallies(log, cpu, HANDSHAKE, st.hs) && Tallies(log, cpu, CLOSE, st.cl)
    && st.rtCount == CountOf(log, cpu, RETRANSMIT) && st.dropped == DropsOf(log, cpu)
  }

  /** Each CPU's record is exactly what was reported there, and the ring buffer shows what found room. */
  ghost predicate Exact(s: State) {
    && s.ring == Shown(s.log)
    && forall i :: 0 <= i < |s.stats| ==> Counts(s.log, s.stats[i], i) && HasMax(s.log, s.stats[i], i)
  }

  lemma {:induction false} LogAppend(log: seq<Report>, x: Report, cpu: nat, kind: Kind)
    ensures CountOf(log + [x], cpu, kind) == CountOf(log, cpu, kind) + if Of(x, cpu, kind) then 1 else 0
    ensures SumOf(log + [x], cpu, kind) == SumOf(log, cpu, kind) + if Of(x, cpu, kind) then x.event.latency else 0
    ensures DropsOf(log + [x], cpu) == DropsOf(log, cpu) + if x.cpu == cpu && !x.room then 1 else 0
    ensures Shown(log + [x]) == Shown(log) + if x.room then [x.event] else []
  {
    assert (log + [x])[..|log|] == log;
  }

  /** The record after one report on its CPU. */
  function Reported(st: Stats, x: Report): Stats {
    match x.event.kind
    case HANDSHAKE =>
      Room(st.(hs := Noted(st.hs, x.event.latency),
               hsMaxSock := if x.event.latency > st.hs.maxNs then x.event.sock else st.hsMaxSock,
               hsMaxComm := if x.event.latency > st.hs.maxNs then x.event.comm else st.hsMaxComm), x.room)
    case RETRANSMIT => Room(st.(rtCount := st.rtCount + 1), x.room)
    case CLOSE => Room(st.(cl := Noted(st.cl, x.event.latency)), x.room)
  }

  lemma {:induction false} CountsAppend(log: seq<Report>, st: Stats, cpu: nat, x: Report)
    requires Counts(log, st, cpu)
    ensures Counts(log + [x], if x.cpu == cpu then Reported(st, x) else st, cpu)
  {
    TalliesAppend(log, cpu, HANDSHAKE, st.hs, x);
    TalliesAppend(log, cpu, CLOSE, st.cl, x);
    LogAppend(log, x, cpu, RETRANSMIT);
  }

  lemma {:induction false} MaxAppend(log: seq<Report>, st: Stats, cpu: nat, x: Report)
    requires HasMax(log, st, cpu)
    ensures HasMax(log + [x], if x.cpu == cpu then Reported(st, x) else st, cpu)
  {
    var st', log' := if x.cpu == cpu then Reported(st, x) else st, log + [x];
    if st'.hs.maxNs > 0 {
      if x.cpu == cpu && x.event.kind == HANDSHAKE && x.event.latency > st.hs.maxNs {
        assert IsMax(st', log'[|log|], cpu);
      } else {
        var p :| 0 <= p < |log| && IsMax(st, log[p], cpu);
        assert IsMax(st', log'[p], cpu);
      }
    }
  }

  /** Everything that the maxima and totals are made of. */
  predicate SameTotals(a: Stats, b: Stats) {
    a.hs == b.hs && a.cl == b.cl && a.rtCount == b.rtCount && a.dropped == b.dropped
    && a.hsMaxSock == b.hsMaxSock && a.hsMaxComm == b.hsMaxComm
  }

  /** A step reports nothing and changes no totals, or adds one report and books it on its CPU. */
  ghost predicate Reports(s: State, t: State) {
    |t.stats| == |s.stats| &&
    if t.log == s.log then t.ring == s.ring && forall i :: 0 <= i < |s.stats| ==> SameTotals(s.stats[i], t.stats[i])
    else
      && |t.log| == |s.log| + 1 && t.log == s.log + [t.log[|s.log|]]
      && (var x := t.log[|s.log|];
          && t.ring == Publish(s.ring, x.room, x.event)
          && forall i :: 0 <= i < |s.stats| ==>
               t.stats[i] == if x.cpu == i then Reported(s.stats[i], x) else s.stats[i])
  }

  lemma {:induction false} StepReports(c: Ctrl, s: State, e: Probe)
    requires OnCpu(e, |s.stats|)
    ensures Reports(s, Step(c, s, e))
  {
  }

  lemma {:induction false} ReportsExact(s: State, t: State)
    requires Exact(s) && Reports(s, t)
    ensures Exact(t)
  {
    if t.log == s.log {
      forall i | 0 <= i < |s.stats| ensures HasMax(t.log, t.stats[i], i) {
        if t.stats[i].hs.maxNs > 0 {
          var p :| 0 <= p < |s.log| && IsMax(s.stats[i], s.log[p], i);
          assert IsMax(t.stats[i], t.log[p], i);
        }
      }
    } else {
      var x := t.log[|s.log|];
      LogAppend(s.log, x, 0, CLOSE);
      forall i | 0 <= i < |t.stats| ensures Counts(t.log, t.stats[i], i) && HasMax(t.log, t.stats[i], i) {
        CountsAppend(s.log, s.stats[i], i, x);
        MaxAppend(s.log, s.stats[i], i, x);
      }
    }
  }

  /** In every run, on every CPU, the counts, sums and maxima are exactly those of the handshakes, retransmissions
      and closes reported there, whatever the ring buffer loses; the longest handshake is a real one. */
  lemma {:induction false} StatisticsExact(c: Ctrl, cpus: nat, tr: Trace, n: nat)
    requires n <= |tr| && OnCpus(tr, cpus)
    ensures Exact(RunTo(c, cpus, tr, n))
  {
    if n > 0 {
      StatisticsExact(c, cpus, tr, n - 1);
      var s := RunTo(c, cpus, tr, n - 1);
      StepReports(c, s, tr[n - 1]);
      ReportsExact(s, RunTo(c, cpus, tr, n));
    }
  }

  // ---------------------------------------------------------------- conservation

  /** One CPU's books: connects stored and not closed; connects stored and not settled; reports submitted. */
  function StillHeld(st: Stats): int { st.attempted - st.mapUpdateFailed - st.cl.count }
  function StillPending(st: Stats): int { st.attempted - st.mapUpdateFailed - st.hs.count - st.filteredLatency }
  function Submitted(st: Stats): int { st.hs.count + st.rtCount + st.cl.count - st.dropped }

  ghost function PendingSet(m: map<Sk, Sess>): set<Sk> { set k | k in m && !m[k].reported }

  /** Summed over CPUs: every stored connect is closed, live or lost; every stored connect has its handshake
      counted, filtered, still to come, or ended before it came; every count but the dropped ones is reported. */
  ghost predicate Balanced(s: State) {
    && Total(s.stats, StillHeld) == |s.sess.Keys| + s.lost
    && Total(s.stats, StillPending) == |PendingSet(s.sess)| + s.unsettled
    && Total(s.stats, Submitted) == |s.ring|
  }

  /** Booking record x on one CPU, with the rest of the state changed to match, keeps the balance. */
  lemma {:induction false} BookedKeeps(s: State, t: State, cpu: nat, x: Stats)
    requires Balanced(s) && cpu < |s.stats| && t.stats == s.stats[cpu := x]
    requires StillHeld(x) - StillHeld(s.stats[cpu]) == |t.sess.Keys| + t.lost - |s.sess.Keys| - s.lost
    requires StillPending(x) - StillPending(s.stats[cpu])
             == |PendingSet(t.sess)| + t.unsettled - |PendingSet(s.sess)| - s.unsettled
    requires Submitted(x) - Submitted(s.stats[cpu]) == |t.ring| - |s.ring|
    ensures Balanced(t)
  {
    TotalSet(s.stats, StillHeld, cpu, x);
    TotalSet(s.stats, StillPending, cpu, x);
    TotalSet(s.stats, Submitted, cpu, x);
  }

  /** Storing or removing a session changes the two counts by what was there before. */
  lemma {:induction false} Stored(m: map<Sk, Sess>, sk: Sk, x: Sess)
    ensures |m[sk := x].Keys| == |m.Keys| + 1 - Held(m, sk)
    ensures |PendingSet(m[sk := x])| == |PendingSet(m)| - Pending(m, sk) + if x.reported then 0 else 1
  {
    assert m[sk := x].Keys == m.Keys + {sk};
    StoredPending(m, sk, x);
  }

  lemma {:induction false} StoredPending(m: map<Sk, Sess>, sk: Sk, x: Sess)
    ensures |PendingSet(m[sk := x])| == |PendingSet(m)| - Pending(m, sk) + if x.reported then 0 else 1
  {
    var rest := PendingSet(m) - {sk};
    if x.reported {
      assert PendingSet(m[sk := x]) == rest;
    } else {
      assert PendingSet(m[sk := x]) == rest + {sk};
    }
  }

  lemma {:induction false} Removed(m: map<Sk, Sess>, sk: Sk)
    ensures |(m - {sk}).Keys| == |m.Keys| - Held(m, sk)
    ensures |PendingSet(m - {sk})| == |PendingSet(m)| - Pending(m, sk)
  {
    assert (m - {sk}).Keys == m.Keys - {sk};
    assert PendingSet(m - {sk}) == PendingSet(m) - {sk};
  }

  /** Every probe has one record to book; probes that touch no statistics book nothing new. */
  lemma {:induction false} BalancedConnect(c: Ctrl, s: State, e: Probe)
    requires e.Connect? && OnCpu(e, |s.stats|) && Balanced(s)
    ensures Balanced(ConnectStep(c, s, e))
  {
    if Tracked(c, e) {
      Stored(s.sess, e.sk, Opened(e));
      var t := ConnectStep(c, s, e);
      BookedKeeps(s, t, e.cpu, t.stats[e.cpu]);
    }
  }

  lemma {:induction false} BalancedFinish(c: Ctrl, s: State, e: Probe)
    requires e.Finish? && OnCpu(e, |s.stats|) && Balanced(s)
    ensures Balanced(FinishStep(c, s, e))
  {
    var t := FinishStep(c, s, e);
    if t != s {
      if e.sk in s.sess { Stored(s.sess, e.sk, Settled(c, s.sess[e.sk], e)); }
      BookedKeeps(s, t, e.cpu, t.stats[e.cpu]);
    }
  }

  lemma {:induction false} BalancedRetransmit(c: Ctrl, s: State, e: Probe)
    requires e.Retransmit? && OnCpu(e, |s.stats|) && Balanced(s)
    ensures Balanced(RetransmitStep(c, s, e))
  {
    var t := RetransmitStep(c, s, e);
    if t != s {
      if e.sk in s.sess { Stored(s.sess, e.sk, t.sess[e.sk]); }
      BookedKeeps(s, t, e.cpu, t.stats[e.cpu]);
    }
  }

  lemma {:induction false} BalancedClose(c: Ctrl, s: State, e: Probe)
    requires e.Close? && OnCpu(e, |s.stats|) && Balanced(s)
    ensures Balanced(CloseStep(c, s, e))
  {
    Removed(s.sess, e.sk);
    if e.sk in s.sess && Allowed(c, s.sess[e.sk].tgid) {
      var t := CloseStep(c, s, e);
      BookedKeeps(s, t, e.cpu, t.stats[e.cpu]);
    }
  }

  lemma {:induction false} BalancedForget(s: State, sk: Sk)
    requires Balanced(s)
    ensures Balanced(Forget(s, sk))
  {
    Removed(s.sess, sk);
  }

  lemma {:induction false} BalancedConnectRet(s: State, e: Probe)
    requires e.ConnectRet? && Balanced(s)
    ensures Balanced(ConnectRetStep(s, e))
  {
    BalancedForget(s, e.sk);
    if e.sk in s.sess { Stored(s.sess, e.sk, s.sess[e.sk].(sock := SaveSock(s.sess[e.sk].sock, e.sock))); }
  }

  lemma {:induction false} BalancedStep(c: Ctrl, s: State, e: Probe)
    requires OnCpu(e, |s.stats|) && Balanced(s)
    ensures Balanced(Step(c, s, e))
  {
    match e
    case Connect(_, _, _, _, _, _) => BalancedConnect(c, s, e);
    case ConnectRet(_, _, _) => BalancedConnectRet(s, e);
    case Finish(_, _, _, _, _, _) => BalancedFinish(c, s, e);
    case Retransmit(_, _, _, _, _, _) => BalancedRetransmit(c, s, e);
    case Close(_, _, _, _, _) => BalancedClose(c, s, e);
    case Evict(sk) => BalancedForget(s, sk);
  }

  lemma {:induction false} BlankBooks(st: Stats)
    requires Blank(st)
    ensures StillHeld(st) == 0 && StillPending(st) == 0 && Submitted(st) == 0
  {
  }

  lemma {:induction false} InitBalanced(cpus: nat)
    ensures Balanced(Init(cpus))
  {
    var z := Zeros(cpus);
    forall i | 0 <= i < cpus ensures StillHeld(z[i]) == 0 && StillPending(z[i]) == 0 && Submitted(z[i]) == 0 {
      BlankBooks(z[i]);
    }
    TotalZero(z, StillHeld);
    TotalZero(z, StillPending);
    TotalZero(z, Submitted);
    assert PendingSet(map[]) == {};
  }

  /** Every reachable state is balanced. */
  lemma {:induction false} AlwaysBalanced(c: Ctrl, cpus: nat, tr: Trace, n: nat)
    requires n <= |tr| && OnCpus(tr, cpus)
    ensures Balanced(RunTo(c, cpus, tr, n))
  {
    if n == 0 {
      InitBalanced(cpus);
    } else {
      AlwaysBalanced(c, cpus, tr, n - 1);
      BalancedStep(c, RunTo(c, cpus, tr, n - 1), tr[n - 1]);
    }
  }

  function Attempted(st: Stats): int { st.attempted }
  function Handshakes(st: Stats): int { st.hs.count + st.filteredLatency }
  function Closes(st: Stats): int { st.cl.count }
  function Refused(st: Stats): int { st.mapUpdateFailed }

  /** The printed totals of any run: settled handshakes and sessions still waiting for theirs never exceed the
      connects, nor do closes and live sessions; the slack is exactly what was refused, lost or unsettled, and the
      last two are numbers of events in the trace. */
  lemma {:induction false} TotalsOfARun(c: Ctrl, cpus: nat, tr: Trace, n: nat)
    requires n <= |tr| && OnCpus(tr, cpus)
    ensures var s := RunTo(c, cpus, tr, n);
            && Total(s.stats, Attempted) == Total(s.stats, Closes) + |s.sess.Keys| + Total(s.stats, Refused) + s.lost
            && Total(s.stats, Attempted)
               == Total(s.stats, Handshakes) + |PendingSet(s.sess)| + Total(s.stats, Refused) + s.unsettled
            && s.lost == SumsTo(c, tr, n).lost && s.unsettled == SumsTo(c, tr, n).unsettled
            && Total(s.stats, Closes) + |s.sess.Keys| <= Total(s.stats, Attempted)
            && Total(s.stats, Handshakes) + |PendingSet(s.sess)| <= Total(s.stats, Attempted)
  {
    var s := RunTo(c, cpus, tr, n);
    AlwaysBalanced(c, cpus, tr, n);
    TotalsAreTrace(c, cpus, tr, n);
    Split(s.stats);
    TotalZero(s.stats, (st: Stats) => 0);
    TotalAtMost(s.stats, (st: Stats) => 0, Refused);
  }

  lemma {:induction false} Split(stats: seq<Stats>)
    ensures Total(stats, Attempted) == Total(stats, StillHeld) + Total(stats, Closes) + Total(stats, Refused)
    ensures Total(stats, Attempted) == Total(stats, StillPending) + Total(stats, Handshakes) + Total(stats, Refused)
  {
    if stats != [] { Split(stats[..|stats| - 1]); }
  }

  // ---------------------------------------------------------------- what the totals mean in the trace

  datatype Sums = Sums(attempted: nat, refused: nat, handshakes: nat, quick: nat, retransmits: nat, closes: nat,
                       untracked: nat, lost: nat, unsettled: nat)

  function One(b: bool): nat { if b then 1 else 0 }

  function Plus(a: Sums, b: Sums): Sums {
    Sums(a.attempted + b.attempted, a.refused + b.refused, a.handshakes + b.handshakes, a.quick + b.quick,
         a.retransmits + b.retransmits, a.closes + b.closes, a.untracked + b.untracked, a.lost + b.lost,
         a.unsettled + b.unsettled)
  }

  /** Event r is the first finish of the current session, and it is, or is not, too quick to be counted. */
  ghost predicate Settles(c: Ctrl, tr: Trace, r: nat, quick: bool)
    requires r < |tr|
  {
    tr[r].Finish? && exists o: nat :: Since(c, tr, o, r, tr[r].sk)
                                      && !Finished(tr, o, r, tr[r].sk)
                                      && (Elapsed(tr[r].now, tr[o].now) < c.minLatencyNs) == quick
  }

  /** The share of event r in the totals, from the trace alone: connects that pass the filter, those refused by the
      map, first finishes counted or too quick, retransmissions and closes of a current session, finishes and
      retransmissions without one; sessions that are replaced, fail or are evicted; and sessions that end in
      whatever way before their first finish. */
  ghost function Share(c: Ctrl, tr: Trace, r: nat): Sums
    requires r < |tr|
  {
    var e, live := tr[r], Live(c, tr, r, tr[r].sk);
    Sums(One(Wanted(c, e)), One(Wanted(c, e) && !e.stored),
         One(Settles(c, tr, r, false)), One(Settles(c, tr, r, true)), One(e.Retransmit? && live), One(e.Close? && live),
         One((e.Finish? || e.Retransmit?) && c.enable && c.targetPid == 0 && !live),
         One(live && !e.Close? && (Starts(c, e, e.sk) || Ends(e, e.sk))),
         One(Waits(c, tr, r, e.sk) && (Starts(c, e, e.sk) || Ends(e, e.sk))))
  }

  ghost function SumsTo(c: Ctrl, tr: Trace, n: nat): Sums
    requires n <= |tr|
  {
    if n == 0 then Sums(0, 0, 0, 0, 0, 0, 0, 0, 0) else Plus(SumsTo(c, tr, n - 1), Share(c, tr, n - 1))
  }

  /** The same share from the session map. */
  function ShareOf(c: Ctrl, m: map<Sk, Sess>, e: Probe): Sums {
    var live := e.sk in m;
    var waits := live && !m[e.sk].reported;
    var quick := live && e.Finish? && TooQuick(c, Elapsed(e.now, m[e.sk].startTs));
    Sums(One(Wanted(c, e)), One(Wanted(c, e) && !e.stored),
         One(e.Finish? && waits && !quick), One(e.Finish? && waits && quick),
         One(e.Retransmit? && live), One(e.Close? && live),
         One((e.Finish? || e.Retransmit?) && c.enable && c.targetPid == 0 && !live),
         One(live && !e.Close? && (Starts(c, e, e.sk) || Ends(e, e.sk))),
         One(waits && (Starts(c, e, e.sk) || Ends(e, e.sk))))
  }

  lemma {:induction false} ShareFromMap(c: Ctrl, cpus: nat, tr: Trace, r: nat)
    requires r < |tr| && OnCpus(tr, cpus)
    ensures ShareOf(c, RunTo(c, cpus, tr, r).sess, tr[r]) == Share(c, tr, r)
  {
    var sk := tr[r].sk;
    SessionIsReplay(c, cpus, tr, r, sk);
    forall o, o' | Since(c, tr, o, r, sk) && Since(c, tr, o', r, sk) ensures o == o' {
      SinceUnique(c, tr, o, o', r, sk);
    }
  }

  function HandshakesOf(st: Stats): int { st.hs.count }
  function QuickOf(st: Stats): int { st.filteredLatency }
  function RetransmitsOf(st: Stats): int { st.rtCount }
  function UntrackedOf(st: Stats): int { st.untracked }

  /** Every counter, summed over CPUs, and both tallies. */
  ghost predicate Tallied(s: State, t: Sums) {
    && Total(s.stats, Attempted) == t.attempted && Total(s.stats, Refused) == t.refused
    && Total(s.stats, HandshakesOf) == t.handshakes && Total(s.stats, QuickOf) == t.quick
    && Total(s.stats, RetransmitsOf) == t.retransmits && Total(s.stats, Closes) == t.closes
    && Total(s.stats, UntrackedOf) == t.untracked && s.lost == t.lost && s.unsettled == t.unsettled
  }

  /** Record x has the counters of y and the share t. */
  predicate Books(x: Stats, y: Stats, t: Sums) {
    && x.attempted == y.attempted + t.attempted && x.mapUpdateFailed == y.mapUpdateFailed + t.refused
    && x.hs.count == y.hs.count + t.handshakes && x.filteredLatency == y.filteredLatency + t.quick
    && x.rtCount == y.rtCount + t.retransmits && x.cl.count == y.cl.count + t.closes
    && x.untracked == y.untracked + t.untracked
  }

  /** One step books its share on its CPU; steps without a CPU have no share in the counters. */
  lemma {:induction false} StepBooks(c: Ctrl, s: State, e: Probe)
    requires OnCpu(e, |s.stats|) && (e.sk in s.sess ==> Allowed(c, s.sess[e.sk].tgid))
    ensures var t, x := Step(c, s, e), ShareOf(c, s.sess, e);
            && t.lost == s.lost + x.lost && t.unsettled == s.unsettled + x.unsettled
            && (if e.ConnectRet? || e.Evict?
                then t.stats == s.stats && x.attempted == x.refused == x.handshakes == x.quick == 0
                     && x.retransmits == x.closes == x.untracked == 0
                else t.stats == s.stats[e.cpu := t.stats[e.cpu]] && Books(t.stats[e.cpu], s.stats[e.cpu], x))
  {
  }

  lemma {:induction false} BookedTallies(s: State, t: State, sums: Sums, cpu: nat, x: Sums)
    requires Tallied(s, sums) && cpu < |s.stats| == |t.stats| && t.stats == s.stats[cpu := t.stats[cpu]]
    requires Books(t.stats[cpu], s.stats[cpu], x)
    requires t.lost == s.lost + x.lost && t.unsettled == s.unsettled + x.unsettled
    ensures Tallied(t, Plus(sums, x))
  {
    var y := t.stats[cpu];
    TotalSet(s.stats, Attempted, cpu, y);
    TotalSet(s.stats, Refused, cpu, y);
    TotalSet(s.stats, HandshakesOf, cpu, y);
    TotalSet(s.stats, QuickOf, cpu, y);
    TotalSet(s.stats, RetransmitsOf, cpu, y);
    TotalSet(s.stats, Closes, cpu, y);
    TotalSet(s.stats, UntrackedOf, cpu, y);
  }

  lemma {:induction false} InitTallied(cpus: nat)
    ensures Tallied(Init(cpus), Sums(0, 0, 0, 0, 0, 0, 0, 0, 0))
  {
    var z := Zeros(cpus);
    TotalZero(z, Attempted);
    TotalZero(z, Refused);
    TotalZero(z, HandshakesOf);
    TotalZero(z, QuickOf);
    TotalZero(z, RetransmitsOf);
    TotalZero(z, Closes);
    TotalZero(z, UntrackedOf);
  }

  /** In every run each counter and each tally is the number of events of its kind in the trace: no close,
      retransmission or handshake of a current session goes uncounted, and nothing else is counted. */
  lemma {:induction false} TotalsAreTrace(c: Ctrl, cpus: nat, tr: Trace, n: nat)
    requires n <= |tr| && OnCpus(tr, cpus)
    ensures Tallied(RunTo(c, cpus, tr, n), SumsTo(c, tr, n))
  {
    if n == 0 {
      InitTallied(cpus);
    } else {
      TotalsAreTrace(c, cpus, tr, n - 1);
      TalliesStep(c, cpus, tr, n - 1, SumsTo(c, tr, n - 1));
    }
  }

  lemma {:induction false} TalliesStep(c: Ctrl, cpus: nat, tr: Trace, r: nat, sums: Sums)
    requires r < |tr| && OnCpus(tr, cpus) && Tallied(RunTo(c, cpus, tr, r), sums)
    ensures Tallied(RunTo(c, cpus, tr, r + 1), Plus(sums, Share(c, tr, r)))
  {
    var s, e := RunTo(c, cpus, tr, r), tr[r];
    if e.sk in s.sess { SessionsAllowed(c, cpus, tr, r, e.sk); }
    StepBooks(c, s, e);
    ShareFromMap(c, cpus, tr, r);
    if !e.ConnectRet? && !e.Evict? {
      BookedTallies(s, Step(c, s, e), sums, e.cpu, ShareOf(c, s.sess, e));
    }
  }
}
