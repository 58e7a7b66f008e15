/**
  The bounded compare-and-swap loop `stats_update_max` (ipc/msgqueue/msgqueue.bpf.c:422-436) under
  interference.  Each call is a process that alternates one shared read with one compare-and-swap;
  a step is one instruction of one process, and a schedule is any sequence of process numbers.
*/
module MaxUpdate {

  /** The loop is unrolled to this many attempts. */
  const ATTEMPTS: nat := 16

  /** `tries` counts the compare-and-swaps that have failed. */
  datatype Proc =
    | Reading(tries: nat)             // about to read the shared value
    | Swapping(tries: nat, seen: int) // about to compare-and-swap against `seen`
    | Finished(tries: nat)

  /** `wins` records, oldest first, which call performed each successful compare-and-swap. */
  datatype State = State(value: int, procs: seq<Proc>, wins: seq<nat>)

  function Start(initial: int, calls: nat): State {
    State(initial, seq(calls, _ => Reading(0)), [])
  }

  /** One instruction of call p with candidate c. */
  function Step(s: State, p: nat, c: int): State
    requires p < |s.procs|
  {
    match s.procs[p]
    case Finished(_) => s
    case Reading(i) =>
      if i >= ATTEMPTS || c <= s.value then s.(procs := s.procs[p := Finished(i)])
      else s.(procs := s.procs[p := Swapping(i, s.value)])
    case Swapping(i, seen) =>
      if s.value == seen then State(c, s.procs[p := Finished(i)], s.wins + [p])
      else s.(procs := s.procs[p := Reading(i + 1)])
  }

  /** A schedule names existing calls only. */
  predicate Fits(sched: seq<nat>, calls: nat) { forall i :: 0 <= i < |sched| ==> sched[i] < calls }

  /** The state after the first n entries of a schedule. */
  function RunTo(initial: int, cs: seq<int>, sched: seq<nat>, n: nat): (s: State)
    requires n <= |sched| && Fits(sched, |cs|)
    ensures |s.procs| == |cs|
  {
    if n == 0 then Start(initial, |cs|)
    else Step(RunTo(initial, cs, sched, n - 1), sched[n - 1], cs[sched[n - 1]])
  }

  ghost predicate IsMaximum(m: int, initial: int, cs: seq<int>) {
    && (m == initial || m in cs)
    && initial <= m && forall c :: c in cs ==> c <= m
  }

  ghost predicate AllFinished(s: State) { forall p :: 0 <= p < |s.procs| ==> s.procs[p].Finished? }

  // ---------------------------------------------------------------- charging failures to wins

  /** `charges[p]` lists, for each failed compare-and-swap of call p, the win it is charged to. */
  type Charges = seq<seq<nat>>

  /** Failures of p are charged to pairwise distinct wins, none of them p's own, all within the first
      `bound` wins. */
  ghost predicate GoodCharge(wins: seq<nat>, p: nat, ch: seq<nat>, bound: nat) {
    && (forall i :: 0 <= i < |ch| ==> ch[i] < bound && ch[i] < |wins| && wins[ch[i]] != p)
    && (forall i, j :: 0 <= i < j < |ch| ==> ch[i] < ch[j])
  }

  /** `stamps[p]` is the number of wins at call p's latest read. */
  ghost predicate ProcInv(s: State, cs: seq<int>, p: nat, ch: seq<nat>, stamp: nat)
    requires p < |s.procs| == |cs|
  {
    match s.procs[p]
    case Reading(i) => p !in s.wins && i == |ch| && GoodCharge(s.wins, p, ch, |s.wins|)
    case Swapping(i, seen) =>
      && p !in s.wins && i == |ch| && i < ATTEMPTS && seen < cs[p]
      && stamp <= |s.wins| && GoodCharge(s.wins, p, ch, stamp)
      && (if stamp == |s.wins| then seen == s.value else seen < s.value)
    case Finished(i) =>
      i == |ch| && (|ch| < ATTEMPTS ==> cs[p] <= s.value) && GoodCharge(s.wins, p, ch, |s.wins|)
  }

  ghost predicate Inv(s: State, initial: int, cs: seq<int>, ch: Charges, stamps: seq<nat>) {
    && |s.procs| == |cs| == |ch| == |stamps|
    && (forall i :: 0 <= i < |s.wins| ==> s.wins[i] < |cs|)
    && (forall i, j :: 0 <= i < j < |s.wins| ==> s.wins[i] != s.wins[j])
    && (s.value == initial || s.value in cs) && initial <= s.value
    && forall p :: 0 <= p < |cs| ==> ProcInv(s, cs, p, ch[p], stamps[p])
  }

  /** The step of call q as another call p sees it. */
  lemma {:induction false} OtherProc(s: State, cs: seq<int>, q: nat, p: nat, ch: seq<nat>, stamp: nat)
    requires q < |s.procs| == |cs| && p < |cs| && p != q
    requires ProcInv(s, cs, p, ch, stamp)
    requires s.procs[q].Swapping? ==> s.procs[q].seen < cs[q]
    ensures ProcInv(Step(s, q, cs[q]), cs, p, ch, stamp)
  {
    var s' := Step(s, q, cs[q]);
    assert s'.procs[p] == s.procs[p];
    assert forall i :: 0 <= i < |s.wins| ==> s'.wins[i] == s.wins[i];
  }

  /** Every instruction keeps the invariant, and the shared value never decreases. */
  lemma {:induction false} StepKeeps(s: State, initial: int, cs: seq<int>, ch: Charges, stamps: seq<nat>, q: nat)
    returns (ch': Charges, stamps': seq<nat>)
    requires Inv(s, initial, cs, ch, stamps) && q < |cs|
    ensures Inv(Step(s, q, cs[q]), initial, cs, ch', stamps')
    ensures s.value <= Step(s, q, cs[q]).value && s.wins <= Step(s, q, cs[q]).wins
  {
    assert ProcInv(s, cs, q, ch[q], stamps[q]);
    var s' := Step(s, q, cs[q]);
    ch', stamps' := ch, stamps;
    match s.procs[q] {
      case Finished(_) =>
      case Reading(i) => stamps' := stamps[q := |s.wins|];
      case Swapping(i, seen) =>
        if s.value != seen {
          ch' := ch[q := ch[q] + [|s.wins| - 1]];
        }
    }
    forall p | 0 <= p < |cs| ensures ProcInv(s', cs, p, ch'[p], stamps'[p]) {
      if p != q { OtherProc(s, cs, q, p, ch[p], stamps[p]); }
    }
  }

  lemma {:induction false} RunInv(initial: int, cs: seq<int>, sched: seq<nat>, n: nat)
    returns (ch: Charges, stamps: seq<nat>)
    requires n <= |sched| && Fits(sched, |cs|)
    ensures Inv(RunTo(initial, cs, sched, n), initial, cs, ch, stamps)
  {
    if n == 0 {
      ch, stamps := seq(|cs|, _ => []), seq(|cs|, _ => 0);
    } else {
      ch, stamps := RunInv(initial, cs, sched, n - 1);
      ch, stamps := StepKeeps(RunTo(initial, cs, sched, n - 1), initial, cs, ch, stamps, sched[n - 1]);
    }
  }

  /** In every schedule the shared value never decreases. */
  lemma {:induction false} NeverDecreases(initial: int, cs: seq<int>, sched: seq<nat>, m: nat, n: nat)
    requires m <= n <= |sched| && Fits(sched, |cs|)
    ensures RunTo(initial, cs, sched, m).value <= RunTo(initial, cs, sched, n).value
  {
    if m < n {
      NeverDecreases(initial, cs, sched, m, n - 1);
      var ch, stamps := RunInv(initial, cs, sched, n - 1);
      ch, stamps := StepKeeps(RunTo(initial, cs, sched, n - 1), initial, cs, ch, stamps, sched[n - 1]);
    }
  }

  // ---------------------------------------------------------------- at most 15 failures

  lemma {:induction false} DistinctBelow(xs: seq<nat>, bound: nat)
    requires forall i :: 0 <= i < |xs| ==> xs[i] < bound
    requires forall i, j :: 0 <= i < j < |xs| ==> xs[i] != xs[j]
    ensures |xs| <= bound
  {
    if |xs| > 0 {
      assert xs[0] < bound;
      if i :| 0 <= i < |xs| && xs[i] == bound - 1 {
        DistinctBelow(xs[..i] + xs[i + 1..], bound - 1);
      } else {
        DistinctBelow(xs, bound - 1);
      }
    }
  }

  /** A call fails at most once for each other call. */
  lemma {:induction false} FailuresBounded(wins: seq<nat>, p: nat, ch: seq<nat>, calls: nat)
    requires p < calls && GoodCharge(wins, p, ch, |wins|)
    requires forall i :: 0 <= i < |wins| ==> wins[i] < calls
    requires forall i, j :: 0 <= i < j < |wins| ==> wins[i] != wins[j]
    ensures |ch| <= calls - 1
  {
    var others := seq(|ch|, i requires 0 <= i < |ch| => wins[ch[i]]);
    DistinctBelow(others + [p], calls);
  }

  /** Every failed compare-and-swap is charged to a distinct success by another call. */
  lemma {:induction false} FailuresCharged(initial: int, cs: seq<int>, sched: seq<nat>, n: nat) returns (ch: Charges)
    requires n <= |sched| && Fits(sched, |cs|)
    ensures |ch| == |cs|
    ensures var s := RunTo(initial, cs, sched, n);
            forall p :: 0 <= p < |cs| ==>
              && GoodCharge(s.wins, p, ch[p], |s.wins|)
              && s.procs[p].tries == |ch[p]|
              && |ch[p]| <= |cs| - 1
  {
    var stamps;
    ch, stamps := RunInv(initial, cs, sched, n);
    var s := RunTo(initial, cs, sched, n);
    forall p | 0 <= p < |cs|
      ensures GoodCharge(s.wins, p, ch[p], |s.wins|) && |ch[p]| <= |cs| - 1
      ensures s.procs[p].tries == |ch[p]|
    {
      assert ProcInv(s, cs, p, ch[p], stamps[p]);
      FailuresBounded(s.wins, p, ch[p], |cs|);
    }
  }

  /** With at most 16 concurrent calls, whenever all have finished the shared value is exactly the
      maximum of the initial value and all candidates. */
  lemma {:induction false} FinalMaximum(initial: int, cs: seq<int>, sched: seq<nat>)
    requires |cs| <= ATTEMPTS && Fits(sched, |cs|)
    requires AllFinished(RunTo(initial, cs, sched, |sched|))
    ensures IsMaximum(RunTo(initial, cs, sched, |sched|).value, initial, cs)
  {
    var ch, stamps := RunInv(initial, cs, sched, |sched|);
    var s := RunTo(initial, cs, sched, |sched|);
    forall c | c in cs ensures c <= s.value {
      var p :| 0 <= p < |cs| && cs[p] == c;
      assert ProcInv(s, cs, p, ch[p], stamps[p]);
      FailuresBounded(s.wins, p, ch[p], |cs|);
    }
  }

  // ---------------------------------------------------------------- 17 calls are too many

  /** Call 0 offers the largest candidate; call i offers i. */
  function Rivals(calls: nat): seq<int>
  {
    seq(calls, i => if i == 0 then calls else i)
  }

  /** Each rival slips its whole update between call 0's read and its compare-and-swap. */
  function Starving(rounds: nat): seq<nat> {
    if rounds == 0 then [] else Starving(rounds - 1) + [0, rounds, rounds, 0]
  }

  lemma {:induction false} RunPrefix(initial: int, cs: seq<int>, a: seq<nat>, b: seq<nat>, n: nat)
    requires n <= |a| && Fits(a + b, |cs|)
    ensures Fits(a, |cs|)
    ensures RunTo(initial, cs, a + b, n) == RunTo(initial, cs, a, n)
  {
    assert forall i :: 0 <= i < |a| ==> a[i] == (a + b)[i];
    if n > 0 { RunPrefix(initial, cs, a, b, n - 1); }
  }

  /** Call 0 has failed `rounds` times, rivals 1..rounds have won, and the others have not started. */
  ghost predicate Starved(s: State, calls: nat, rounds: nat) {
    && |s.procs| == calls && s.value == rounds
    && (forall p :: 0 < p <= rounds && p < calls ==> s.procs[p].Finished?)
    && (forall p :: rounds < p < calls ==> s.procs[p] == Reading(0))
  }

  lemma {:induction false} RunOne(cs: seq<int>, a: seq<nat>, x: nat)
    requires Fits(a, |cs|) && x < |cs|
    ensures Fits(a + [x], |cs|) && RunTo(0, cs, a + [x], |a| + 1) == Step(RunTo(0, cs, a, |a|), x, cs[x])
  {
    assert (a + [x])[|a|] == x;
    RunPrefix(0, cs, a, [x], |a|);
  }

  lemma {:induction false} RunTwo(cs: seq<int>, a: seq<nat>, x: nat, y: nat)
    requires Fits(a, |cs|) && x < |cs| && y < |cs|
    ensures Fits(a + [x, y], |cs|)
    ensures RunTo(0, cs, a + [x, y], |a| + 2) == Step(Step(RunTo(0, cs, a, |a|), x, cs[x]), y, cs[y])
  {
    RunOne(cs, a, x);
    RunOne(cs, a + [x], y);
    assert a + [x] + [y] == a + [x, y];
  }

  /** One round: call 0 reads, rival r reads and swaps, call 0 fails. */
  lemma {:induction false} StarvingRound(s: State, calls: nat, r: nat)
    requires 0 < r < calls && r <= ATTEMPTS && Starved(s, calls, r - 1) && s.procs[0] == Reading(r - 1)
    ensures var t := Step(Step(Step(Step(s, 0, calls), r, r), r, r), 0, calls);
            Starved(t, calls, r) && t.procs[0] == Reading(r)
  {
    var s1 := Step(s, 0, calls);
    assert s1 == s.(procs := s.procs[0 := Swapping(r - 1, r - 1)]);
    var s2 := Step(s1, r, r);
    assert s2 == s1.(procs := s1.procs[r := Swapping(0, r - 1)]);
    var s3 := Step(s2, r, r);
    assert s3.value == r && s3.procs == s2.procs[r := Finished(0)];
  }

  lemma {:induction false} StarvingRun(calls: nat, rounds: nat)
    requires rounds < calls && rounds <= ATTEMPTS
    ensures Fits(Starving(rounds), calls)
    ensures var s := RunTo(0, Rivals(calls), Starving(rounds), |Starving(rounds)|);
            Starved(s, calls, rounds) && s.procs[0] == Reading(rounds)
  {
    if rounds > 0 {
      StarvingRun(calls, rounds - 1);
      var cs, a := Rivals(calls), Starving(rounds - 1);
      RunTwo(cs, a, 0, rounds);
      RunTwo(cs, a + [0, rounds], rounds, 0);
      assert Starving(rounds) == a + [0, rounds] + [rounds, 0];
      StarvingRound(RunTo(0, cs, a, |a|), calls, rounds);
    }
  }

  /** Calls m + 1, ..., m + n run undisturbed, one after another. */
  function OneByOne(m: nat, n: nat): seq<nat> {
    if n == 0 then [] else OneByOne(m, n - 1) + [m + n, m + n]
  }

  lemma {:induction false} SoloUpdate(s: State, calls: nat, k: nat)
    requires 0 < k < calls && Starved(s, calls, k - 1) && s.procs[0].Finished?
    ensures var t := Step(Step(s, k, k), k, k); Starved(t, calls, k) && t.procs[0].Finished?
  {
    assert Step(s, k, k) == s.(procs := s.procs[k := Swapping(0, k - 1)]);
  }

  ghost predicate SoloState(calls: nat, sched: seq<nat>, m: nat) {
    calls > 0 && Fits(sched, calls)
    && var s := RunTo(0, Rivals(calls), sched, |sched|); Starved(s, calls, m) && s.procs[0].Finished?
  }

  lemma {:induction false} SoloStep(calls: nat, pre: seq<nat>, k: nat)
    requires 0 < k < calls && SoloState(calls, pre, k - 1)
    ensures SoloState(calls, pre + [k, k], k)
  {
    var cs := Rivals(calls);
    RunTwo(cs, pre, k, k);
    SoloUpdate(RunTo(0, cs, pre, |pre|), calls, k);
  }

  lemma {:induction false} OneByOneRun(calls: nat, pre: seq<nat>, m: nat, n: nat)
    requires m + n < calls && SoloState(calls, pre, m)
    ensures SoloState(calls, pre + OneByOne(m, n), m + n)
  {
    if n == 0 {
      assert pre + [] == pre;
    } else {
      OneByOneRun(calls, pre, m, n - 1);
      var sched := pre + OneByOne(m, n - 1);
      assert pre + OneByOne(m, n) == sched + [m + n, m + n];
      SoloStep(calls, sched, m + n);
    }
  }

  /** After 16 failures call 0 gives up. */
  lemma {:induction false} GivesUp(calls: nat, r: nat)
    requires calls > r == ATTEMPTS
    ensures SoloState(calls, Starving(r) + [0], r)
  {
    StarvingRun(calls, r);
    var cs, a := Rivals(calls), Starving(r);
    RunOne(cs, a, 0);
    LastRead(RunTo(0, cs, a, |a|), calls, r);
  }

  lemma {:induction false} LastRead(s: State, calls: nat, r: nat)
    requires calls > r == ATTEMPTS && Starved(s, calls, r) && s.procs[0] == Reading(r)
    ensures var t := Step(s, 0, calls); Starved(t, calls, r) && t.procs[0].Finished?
  {
    assert Step(s, 0, calls) == s.(procs := s.procs[0 := Finished(r)]);
  }

  /** With more than 16 concurrent calls some schedule loses the maximum. */
  lemma {:induction false} TooManyCalls(calls: nat) returns (sched: seq<nat>)
    requires calls > ATTEMPTS
    ensures Fits(sched, calls)
    ensures var s := RunTo(0, Rivals(calls), sched, |sched|);
            AllFinished(s) && !IsMaximum(s.value, 0, Rivals(calls))
  {
    var r: nat :| r == ATTEMPTS;
    GivesUp(calls, r);
    var pre, n := Starving(r) + [0], calls - 1 - r;
    OneByOneRun(calls, pre, r, n);
    sched := pre + OneByOne(r, n);
    assert Rivals(calls)[0] == calls;
    assert calls as int in Rivals(calls);
  }

  ghost predicate Loses(initial: int, cs: seq<int>, sched: seq<nat>) {
    Fits(sched, |cs|)
    && AllFinished(RunTo(initial, cs, sched, |sched|))
    && !IsMaximum(RunTo(initial, cs, sched, |sched|).value, initial, cs)
  }

  /** The exact bound: no schedule of `calls` concurrent updates can lose the maximum iff calls <= 16. */
  lemma {:induction false} LosslessIffAtMost16(calls: nat)
    ensures calls <= 16 <==>
            forall initial: int, cs: seq<int>, sched: seq<nat> :: |cs| == calls ==> !Loses(initial, cs, sched)
  {
    if calls <= ATTEMPTS {
      forall initial: int, cs: seq<int>, sched: seq<nat> | |cs| == calls ensures !Loses(initial, cs, sched) {
        if Loses(initial, cs, sched) { FinalMaximum(initial, cs, sched); }
      }
    } else {
      var sched := TooManyCalls(calls);
      assert Loses(0, Rivals(calls), sched);
    }
  }
}
