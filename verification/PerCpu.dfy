/**
  Per-CPU arrays (BPF_MAP_TYPE_PERCPU_*): every CPU writes its own copy, readers add the copies up.
*/
module PerCpu {
  function Total<S>(copies: seq<S>, f: S -> int): int {
    if copies == [] then 0 else Total(copies[..|copies| - 1], f) + f(copies[|copies| - 1])
  }

  lemma {:induction false} TotalSet<S>(copies: seq<S>, f: S -> int, cpu: nat, x: S)
    requires cpu < |copies|
    ensures Total(copies[cpu := x], f) == Total(copies, f) - f(copies[cpu]) + f(x)
  {
    var n := |copies| - 1;
    if cpu == n {
      assert copies[cpu := x][..n] == copies[..n];
    } else {
      assert copies[cpu := x][..n] == copies[..n][cpu := x];
      TotalSet(copies[..n], f, cpu, x);
    }
  }

  lemma {:induction false} TotalZero<S>(copies: seq<S>, f: S -> int)
    requires forall i :: 0 <= i < |copies| ==> f(copies[i]) == 0
    ensures Total(copies, f) == 0
  {
    if copies != [] { TotalZero(copies[..|copies| - 1], f); }
  }

  lemma {:induction false} TotalAtMost<S>(copies: seq<S>, f: S -> int, g: S -> int)
    requires forall i :: 0 <= i < |copies| ==> f(copies[i]) <= g(copies[i])
    ensures Total(copies, f) <= Total(copies, g)
  {
    if copies != [] { TotalAtMost(copies[..|copies| - 1], f, g); }
  }
}
