/**
  The control-flow graph builder of bpftool (lib/bpftool/src/cfg.c): an instruction array is cut into
  functions, each function into basic blocks, and the blocks are joined by edges.  Instruction pointers
  are positions in the array; NULL is -1.  The linked lists are kept as sequences, and an edge names
  blocks by their position in the finished list.
*/
module Cfg {

  datatype Insn = Insn(code: nat, srcReg: nat, off: int)

  type Program = seq<Insn>

  const BPF_JMP: nat := 0x05
  const BPF_JMP32: nat := 0x06
  const BPF_JA: nat := 0x00
  const BPF_CALL: nat := 0x80
  const BPF_EXIT: nat := 0x90
  const BPF_PSEUDO_CALL: nat := 1

  const NULL: int := -1

  function Class(code: nat): nat { code % 8 }
  function Op(code: nat): nat { code / 16 % 16 * 16 }

  predicate IsJmp(n: Insn) { Class(n.code) == BPF_JMP || Class(n.code) == BPF_JMP32 }

  /** A jump whose target is taken from `off`: every jump class but CALL and EXIT. */
  predicate IsBranch(n: Insn) { IsJmp(n) && Op(n.code) != BPF_EXIT && Op(n.code) != BPF_CALL }
  predicate IsGoto(n: Insn) { IsBranch(n) && Op(n.code) == BPF_JA }
  predicate IsCond(n: Insn) { IsBranch(n) && Op(n.code) != BPF_JA }
  predicate IsExit(n: Insn) { IsJmp(n) && Op(n.code) == BPF_EXIT }
  predicate IsPseudoCall(n: Insn) { n.code == BPF_JMP + BPF_CALL && n.srcReg == BPF_PSEUDO_CALL }

  /** The opcode bytes: the low three bits are 5 or 6 for jumps, of which the high four bits are 8 for a call, 9 for an
      exit, 0 for an unconditional and anything else for a conditional jump; 0x85 with source register 1 is a call of
      another function of the program. */
  lemma {:induction false} Opcodes(n: Insn)
    ensures var jump, op := n.code % 8 == 5 || n.code % 8 == 6, n.code / 16 % 16;
            && (IsExit(n) <==> jump && op == 9) && (IsGoto(n) <==> jump && op == 0)
            && (IsCond(n) <==> jump && op != 0 && op != 8 && op != 9)
            && (IsBranch(n) <==> IsGoto(n) || IsCond(n))
            && (IsPseudoCall(n) <==> n.code == 0x85 && n.srcReg == 1)
  {
  }

  function Target(p: Program, i: nat): int
    requires i < |p|
  {
    i + p[i].off + 1
  }

  // ---------------------------------------------------------------- what the program means

  /** Instruction i may be followed by instruction j: section 4.3 of RFC 9669 for jumps through `off`. */
  predicate Transfers(p: Program, i: nat, j: int)
    requires i < |p|
  {
    if IsExit(p[i]) then false
    else if IsGoto(p[i]) then j == Target(p, i)
    else if IsCond(p[i]) then j == i + 1 || j == Target(p, i)
    else j == i + 1
  }

  /** A function starts at the first instruction and at every target of a bpf-to-bpf call. */
  ghost predicate StartUpTo(p: Program, n: nat, x: int)
    requires n <= |p|
  {
    x == 0 || exists c :: 0 <= c < n && IsPseudoCall(p[c]) && x == Target(p, c)
  }

  ghost predicate IsStart(p: Program, x: int) { StartUpTo(p, |p|, x) }

  /** The instructions a..b are exactly one function. */
  ghost predicate IsFunction(p: Program, a: int, b: int) {
    && 0 <= a <= b < |p| && IsStart(p, a) && (b + 1 == |p| || IsStart(p, b + 1))
    && forall x :: a < x <= b ==> !IsStart(p, x)
  }

  ghost predicate LeaderUpTo(p: Program, a: nat, n: nat, x: int)
    requires a <= n <= |p|
  {
    x == a || exists c :: a <= c < n && IsBranch(p[c]) && (x == Target(p, c) || (IsCond(p[c]) && x == c + 1))
  }

  /** A basic block of function a..b must start at x: the entry, a jump target, or the instruction after a
      conditional jump. */
  ghost predicate IsLeader(p: Program, a: nat, b: nat, x: int)
    requires a <= b < |p|
  {
    LeaderUpTo(p, a, b + 1, x)
  }

  /** Jumps stay inside the function, and its last instruction is not a conditional jump. */
  ghost predicate ClosedFunction(p: Program, a: nat, b: nat)
    requires a <= b < |p|
  {
    && (forall c :: a <= c <= b && IsBranch(p[c]) ==> a <= Target(p, c) <= b)
    && !IsCond(p[b])
  }

  /** What the builder relies on.  A program that the kernel's verifier admitted has it: there jump and call targets
      are in range, and no path runs off the end of a function.  That verifier asks for more, for instance that every
      instruction can be reached; the builder does not need it, and nothing here supposes it. */
  ghost predicate WellFormed(p: Program) {
    && |p| > 0
    && (forall c :: 0 <= c < |p| && IsPseudoCall(p[c]) ==> 0 <= Target(p, c) < |p|)
    && (forall a, b {:trigger IsFunction(p, a, b)} :: IsFunction(p, a, b) ==> ClosedFunction(p, a, b))
  }

  // ---------------------------------------------------------------- blocks and edges

  datatype Flag = FALLTHROUGH | JUMP

  datatype Edge = Edge(src: int, dst: int, flag: Flag)

  datatype Block = Block(head: int, tail: int, idx: nat, prevs: seq<Edge>, succs: seq<Edge>)

  const ENTRY_BLOCK_INDEX: nat := 0
  const EXIT_BLOCK_INDEX: nat := 1
  const NUM_FIXED_BLOCKS: nat := 2

  ghost predicate SortedHeads(bs: seq<Block>) {
    forall i, j :: 0 <= i < j < |bs| ==> bs[i].head < bs[j].head
  }

  ghost predicate HasHead(bs: seq<Block>, x: int) { exists i :: 0 <= i < |bs| && bs[i].head == x }

  ghost predicate NoEdges(bs: seq<Block>) { forall i :: 0 <= i < |bs| ==> bs[i].succs == [] && bs[i].prevs == [] }

  /** The blocks bs[lo..hi] are non-empty, contiguous and cover a..b. */
  ghost predicate Tiles(bs: seq<Block>, lo: nat, hi: nat, a: int, b: int)
    requires lo < hi <= |bs|
  {
    && bs[lo].head == a && bs[hi - 1].tail == b
    && (forall k :: lo <= k < hi ==> bs[k].head <= bs[k].tail)
    && (forall k :: lo < k < hi ==> bs[k].head == bs[k - 1].tail + 1)
  }

  ghost predicate InnerHead(g: seq<Block>, x: int) { exists i :: 0 < i < |g| - 1 && g[i].head == x }

  /** `es` are the right edges to leave block k of list g: each has a non-null destination that is the
      next block or the block at the tail's jump target, and none that is called for is missing. */
  ghost predicate RightEdges(p: Program, g: seq<Block>, k: nat, es: seq<Edge>)
    requires 0 < k < |g| - 1 && 0 <= g[k].tail < |p|
  {
    var t := g[k].tail;
    && (forall e :: e in es ==>
          && e.src == k && 0 < e.dst < |g|
          && (if e.flag == FALLTHROUGH then !IsGoto(p[t]) && e.dst == k + 1
              else IsBranch(p[t]) && g[e.dst].head == Target(p, t)))
    && (!IsGoto(p[t]) ==> Edge(k, k + 1, FALLTHROUGH) in es)
    && (IsBranch(p[t]) ==> exists m :: 0 < m < |g| - 1 && g[m].head == Target(p, t) && Edge(k, m, JUMP) in es)
  }

  /** The blocks of function a..b, between its dummy entry and exit blocks. */
  ghost predicate Shaped(p: Program, a: nat, b: nat, g: seq<Block>)
    requires a <= b < |p|
  {
    && |g| >= 3
    && g[0].head == NULL && g[0].idx == 0 && g[|g| - 1].head == NULL && g[|g| - 1].idx == 1
    && Tiles(g, 1, |g| - 1, a, b)
    && (forall x :: InnerHead(g, x) <==> IsLeader(p, a, b, x))
    && (forall k :: 0 < k < |g| - 1 ==> a <= g[k].tail <= b && g[k].idx == k + 1)
  }

  /** The finished graph of function a..b. */
  ghost predicate GoodGraph(p: Program, a: nat, b: nat, g: seq<Block>)
    requires a <= b < |p|
  {
    && Shaped(p, a, b, g)
    && g[0].succs == [Edge(0, 1, FALLTHROUGH)]
    && g[|g| - 1].prevs == [Edge(|g| - 2, |g| - 1, FALLTHROUGH)]
    && (forall k :: 0 < k < |g| - 1 ==> RightEdges(p, g, k, g[k].succs))
  }

  class Func {
    const start: int
    const idx: nat
    var end: int
    var bbs: seq<Block>
    var bbNum: nat

    constructor (start: int, idx: nat)
      ensures this.start == start && this.idx == idx
    {
      this.start, this.idx := start, idx;
      end, bbs, bbNum := NULL, [], 0;
    }

    /** start..end is a function of the program. */
    ghost predicate IsCut(p: Program)
      reads this`end
    {
      IsFunction(p, start, end) && ClosedFunction(p, start, end)
    }

    ghost predicate Built(p: Program)
      reads this
    {
      IsCut(p) && GoodGraph(p, start, end, bbs) && bbNum == |bbs|
    }

    /** func_append_bb: sorted insertion without duplicates. */
    method AppendBb(insn: int)
      requires SortedHeads(bbs) && NoEdges(bbs)
      modifies this`bbs
      ensures SortedHeads(bbs) && NoEdges(bbs) && |bbs| > 0
      ensures forall x :: HasHead(bbs, x) <==> x == insn || HasHead(old(bbs), x)
    {
      var i := 0;
      while i < |bbs| && bbs[i].head <= insn
        invariant 0 <= i <= |bbs|
        invariant forall j :: 0 <= j < i ==> bbs[j].head < insn
        invariant bbs == old(bbs)
      {
        if bbs[i].head == insn { return; }
        i := i + 1;
      }
      InsertedBlock(bbs, Block(insn, NULL, 0, [], []), i);
      bbs := bbs[..i] + [Block(insn, NULL, 0, [], [])] + bbs[i..];
    }

    method PartitionBbHead(p: Program)
      requires 0 <= start <= end < |p|
      modifies this`bbs
      ensures SortedHeads(bbs) && NoEdges(bbs) && |bbs| > 0
      ensures forall x :: HasHead(bbs, x) <==> IsLeader(p, start, end, x)
    {
      bbs := [];
      AppendBb(start);
      var cur := start;
      while cur <= end
        invariant start <= cur <= end + 1 && SortedHeads(bbs) && NoEdges(bbs) && |bbs| > 0
        invariant forall x :: HasHead(bbs, x) <==> LeaderUpTo(p, start, cur, x)
      {
        if IsJmp(p[cur]) {
          if Op(p[cur].code) != BPF_EXIT && Op(p[cur].code) != BPF_CALL {
            AppendBb(cur + p[cur].off + 1);
            if Op(p[cur].code) != BPF_JA {
              AppendBb(cur + 1);
            }
          }
        }
        LeaderStep(p, start, cur);
        cur := cur + 1;
      }
    }

    method PartitionBbTail()
      requires |bbs| > 0 && SortedHeads(bbs) && NoEdges(bbs) && bbs[|bbs| - 1].head <= end
      modifies this`bbs, this`bbNum
      ensures |bbs| == old(|bbs|) && Tiles(bbs, 0, |bbs|, bbs[0].head, end)
      ensures forall k :: 0 <= k < |bbs| ==> bbs[k].head == old(bbs)[k].head && bbs[k].idx == NUM_FIXED_BLOCKS + k
      ensures NoEdges(bbs) && bbNum == NUM_FIXED_BLOCKS + |bbs|
    {
      ghost var heads := bbs;
      var bbIdx := NUM_FIXED_BLOCKS;
      var last := |bbs| - 1;
      bbs := bbs[last := bbs[last].(tail := end)];
      var i := 0;
      while i < last
        invariant 0 <= i <= last && bbIdx == NUM_FIXED_BLOCKS + i && TailsUpTo(heads, bbs, i, end)
      {
        ghost var before := bbs;
        bbs := bbs[i := bbs[i].(tail := bbs[i + 1].head - 1, idx := bbIdx)];
        TailNext(heads, before, bbs, i, end);
        bbIdx := bbIdx + 1;
        i := i + 1;
      }
      ghost var before := bbs;
      bbs := bbs[last := bbs[last].(idx := bbIdx)];
      TailLast(heads, before, bbs, end);
      bbNum := bbIdx + 1;
    }

    method AddSpecialBb()
      modifies this`bbs
      ensures bbs == [Block(NULL, NULL, ENTRY_BLOCK_INDEX, [], [])] + old(bbs)
                     + [Block(NULL, NULL, EXIT_BLOCK_INDEX, [], [])]
    {
      bbs := [Block(NULL, NULL, ENTRY_BLOCK_INDEX, [], [])] + bbs;
      bbs := bbs + [Block(NULL, NULL, EXIT_BLOCK_INDEX, [], [])];
    }

    /** func_search_bb_with_head: the position of the block, or NULL. */
    method SearchBbWithHead(insn: int) returns (m: int)
      ensures if HasHead(bbs, insn) then 0 <= m < |bbs| && bbs[m].head == insn else m == NULL
    {
      m := 0;
      while m < |bbs|
        invariant 0 <= m <= |bbs| && forall i :: 0 <= i < m ==> bbs[i].head != insn
      {
        if bbs[m].head == insn { return; }
        m := m + 1;
      }
      m := NULL;
    }

    /** The edges one pass of the func_add_bb_edges loop hangs on block k. */
    method BlockEdges(p: Program, k: nat) returns (es: seq<Edge>)
      requires 0 <= start <= end < |p| && ClosedFunction(p, start, end)
      requires Shaped(p, start, end, bbs) && 0 < k < |bbs| - 1
      ensures RightEdges(p, bbs, k, es)
    {
      var insn := p[bbs[k].tail];
      if !IsJmp(insn) || Op(insn.code) == BPF_CALL || Op(insn.code) == BPF_EXIT {
        return [Edge(k, k + 1, FALLTHROUGH)];
      }
      TargetHasBlock(p, start, end, bbs, k);
      var dst := SearchBbWithHead(bbs[k].tail + insn.off + 1);
      if Op(insn.code) == BPF_JA {
        return [Edge(k, dst, JUMP)];
      }
      es := [Edge(k, k + 1, FALLTHROUGH)];
      es := es + [Edge(k, dst, JUMP)];
    }

    /** func_add_bb_edges */
    method AddBbEdges(p: Program)
      requires 0 <= start <= end < |p| && ClosedFunction(p, start, end)
      requires Shaped(p, start, end, bbs) && NoEdges(bbs)
      modifies this`bbs
      ensures GoodGraph(p, start, end, bbs) && |bbs| == old(|bbs|)
    {
      ghost var shape := bbs;
      var exit := |bbs| - 1;
      bbs := bbs[0 := bbs[0].(succs := bbs[0].succs + [Edge(0, 1, FALLTHROUGH)])];
      bbs := bbs[exit := bbs[exit].(prevs := bbs[exit].prevs + [Edge(exit - 1, exit, FALLTHROUGH)])];
      var k := 1;
      while k < exit
        invariant 1 <= k <= exit == |bbs| - 1 && EdgedUpTo(p, shape, bbs, k)
      {
        ShapeStable(p, start, end, shape, bbs);
        var es := BlockEdges(p, k);
        EdgedNext(p, shape, bbs, k, es);
        bbs := bbs[k := bbs[k].(succs := bbs[k].succs + es)];
        k := k + 1;
      }
      FinishedGraph(p, start, end, shape, bbs);
    }

    /** func_partition_bb, func_add_special_bb and func_add_bb_edges in turn. */
    method Build(p: Program)
      requires IsCut(p)
      modifies this`bbs, this`bbNum
      ensures Built(p)
    {
      PartitionBbHead(p);
      LeadersInRange(p, start, end, bbs);
      ghost var heads := bbs;
      PartitionBbTail();
      ghost var inner := bbs;
      AddSpecialBb();
      ShapeFromParts(p, start, end, heads, inner, bbs);
      AddBbEdges(p);
    }
  }

  lemma {:induction false} InsertedBlock(bs: seq<Block>, b: Block, i: nat)
    requires i <= |bs| && SortedHeads(bs) && NoEdges(bs) && b.succs == [] && b.prevs == []
    requires forall j :: 0 <= j < i ==> bs[j].head < b.head
    requires i < |bs| ==> b.head < bs[i].head
    ensures var cs := bs[..i] + [b] + bs[i..];
            SortedHeads(cs) && NoEdges(cs) && forall x :: HasHead(cs, x) <==> x == b.head || HasHead(bs, x)
  {
    var cs := bs[..i] + [b] + bs[i..];
    forall x ensures HasHead(cs, x) <==> x == b.head || HasHead(bs, x) {
      InsertedHasHead(bs, b, i, x);
    }
    InsertedSorted(bs, cs, b, i);
  }

  lemma {:induction false} InsertedSorted(bs: seq<Block>, cs: seq<Block>, b: Block, i: nat)
    requires i <= |bs| && SortedHeads(bs) && |cs| == |bs| + 1 && cs[i] == b
    requires (forall j :: 0 <= j < i ==> cs[j] == bs[j]) && (forall j :: i < j < |cs| ==> cs[j] == bs[j - 1])
    requires forall j :: 0 <= j < i ==> bs[j].head < b.head
    requires i < |bs| ==> b.head < bs[i].head
    ensures SortedHeads(cs)
  {
  }

  lemma {:induction false} InsertedHasHead(bs: seq<Block>, b: Block, i: nat, x: int)
    requires i <= |bs|
    ensures HasHead(bs[..i] + [b] + bs[i..], x) <==> x == b.head || HasHead(bs, x)
  {
    var cs := bs[..i] + [b] + bs[i..];
    assert cs[i] == b;
    if HasHead(bs, x) {
      var j :| 0 <= j < |bs| && bs[j].head == x;
      assert cs[if j < i then j else j + 1].head == x;
    }
  }

  /** The first i blocks have their tails and numbers, and the last one has its tail. */
  ghost predicate TailsUpTo(heads: seq<Block>, bs: seq<Block>, i: nat, end: int) {
    && i < |bs| == |heads| && NoEdges(bs) && bs[|bs| - 1].tail == end
    && (forall k :: 0 <= k < |bs| ==> bs[k].head == heads[k].head)
    && (forall k :: 0 <= k < i ==> bs[k].head <= bs[k].tail && bs[k].idx == NUM_FIXED_BLOCKS + k)
    && (forall k :: 0 < k <= i ==> bs[k].head == bs[k - 1].tail + 1)
  }

  lemma {:induction false} TailNext(heads: seq<Block>, bs: seq<Block>, cs: seq<Block>, i: nat, end: int)
    requires TailsUpTo(heads, bs, i, end) && i + 1 < |bs| && SortedHeads(heads)
    requires cs == bs[i := Block(bs[i].head, bs[i + 1].head - 1, NUM_FIXED_BLOCKS + i, bs[i].prevs, bs[i].succs)]
    ensures TailsUpTo(heads, cs, i + 1, end)
  {
    assert heads[i].head < heads[i + 1].head;
  }

  lemma {:induction false} TailLast(heads: seq<Block>, bs: seq<Block>, cs: seq<Block>, end: int)
    requires |bs| > 0 && TailsUpTo(heads, bs, |bs| - 1, end) && heads[|heads| - 1].head <= end
    requires var last, x := |bs| - 1, bs[|bs| - 1];
             cs == bs[last := Block(x.head, x.tail, NUM_FIXED_BLOCKS + last, x.prevs, x.succs)]
    ensures Tiles(cs, 0, |cs|, cs[0].head, end) && NoEdges(cs)
    ensures forall k :: 0 <= k < |cs| ==> cs[k].head == heads[k].head && cs[k].idx == NUM_FIXED_BLOCKS + k
  {
  }

  lemma {:induction false} LeadersInRange(p: Program, a: nat, b: nat, bs: seq<Block>)
    requires a <= b < |p| && ClosedFunction(p, a, b) && |bs| > 0 && SortedHeads(bs)
    requires forall x :: HasHead(bs, x) <==> IsLeader(p, a, b, x)
    ensures bs[0].head == a && bs[|bs| - 1].head <= b
  {
    assert HasHead(bs, bs[0].head) && HasHead(bs, bs[|bs| - 1].head);
    assert IsLeader(p, a, b, a) && HasHead(bs, a);
  }

  lemma {:induction false} ShapeFromParts(p: Program, a: nat, b: nat, heads: seq<Block>, inner: seq<Block>,
                                          g: seq<Block>)
    requires a <= b < |p| && |heads| == |inner| > 0
    requires forall x :: HasHead(heads, x) <==> IsLeader(p, a, b, x)
    requires forall k :: 0 <= k < |inner| ==> inner[k].head == heads[k].head && inner[k].idx == NUM_FIXED_BLOCKS + k
    requires Tiles(inner, 0, |inner|, a, b) && NoEdges(inner)
    requires g == [Block(NULL, NULL, ENTRY_BLOCK_INDEX, [], [])] + inner + [Block(NULL, NULL, EXIT_BLOCK_INDEX, [], [])]
    ensures Shaped(p, a, b, g) && NoEdges(g)
  {
    assert forall k :: 0 < k < |g| - 1 ==> g[k] == inner[k - 1];
    forall x ensures InnerHead(g, x) <==> IsLeader(p, a, b, x) {
      InnerHeads(heads, g, x);
    }
    TilesBounded(inner, |inner|, a, b);
  }

  lemma {:induction false} InnerHeads(heads: seq<Block>, g: seq<Block>, x: int)
    requires |g| == |heads| + 2 && forall k :: 0 < k < |g| - 1 ==> g[k].head == heads[k - 1].head
    ensures InnerHead(g, x) <==> HasHead(heads, x)
  {
    if HasHead(heads, x) {
      var i :| 0 <= i < |heads| && heads[i].head == x;
      assert g[i + 1].head == x;
    }
  }

  lemma {:induction false} TilesBounded(bs: seq<Block>, n: nat, a: int, b: int)
    requires 0 < n <= |bs| && Tiles(bs, 0, |bs|, a, b)
    ensures forall k :: 0 <= k < n ==> a <= bs[k].tail <= bs[n - 1].tail
  {
    if n > 1 { TilesBounded(bs, n - 1, a, b); }
  }

  ghost predicate RightUpTo(p: Program, shape: seq<Block>, g: seq<Block>, k: nat) {
    && |shape| == |g| && 0 < k < |g|
    && forall j :: 0 < j < k ==> 0 <= shape[j].tail < |p| && RightEdges(p, shape, j, g[j].succs)
  }

  lemma {:induction false} RightNext(p: Program, shape: seq<Block>, g: seq<Block>, h: seq<Block>, k: nat)
    requires RightUpTo(p, shape, g, k) && |h| == |g| && k < |g| - 1
    requires forall j :: 0 < j < k ==> h[j].succs == g[j].succs
    requires 0 <= shape[k].tail < |p| && RightEdges(p, shape, k, h[k].succs)
    ensures RightUpTo(p, shape, h, k + 1)
  {
  }

  /** Blocks 0..k-1 of g carry their edges, the others none yet. */
  ghost predicate EdgedUpTo(p: Program, shape: seq<Block>, g: seq<Block>, k: nat) {
    && SameShape(shape, g) && RightUpTo(p, shape, g, k)
    && g[0].succs == [Edge(0, 1, FALLTHROUGH)] && g[|g| - 1].prevs == [Edge(|g| - 2, |g| - 1, FALLTHROUGH)]
    && (forall j :: k <= j < |g| - 1 ==> g[j].succs == [])
  }

  lemma {:induction false} EdgedNext(p: Program, shape: seq<Block>, g: seq<Block>, k: nat, es: seq<Edge>)
    requires EdgedUpTo(p, shape, g, k) && k < |g| - 1
    requires 0 <= g[k].tail < |p| && RightEdges(p, g, k, es)
    ensures EdgedUpTo(p, shape, g[k := g[k].(succs := g[k].succs + es)], k + 1)
  {
    EdgesStable(p, g, shape, k, es);
    assert g[k].succs == [] && [] + es == es;
    var h := g[k := g[k].(succs := g[k].succs + es)];
    SuccsOnly(g, k, es, h);
    ShapeTrans(shape, g, h);
    RightNext(p, shape, g, h, k);
  }

  lemma {:induction false} SuccsOnly(g: seq<Block>, k: nat, es: seq<Edge>, h: seq<Block>)
    requires k < |g| && h == g[k := g[k].(succs := es)]
    ensures |h| == |g| && h[k].succs == es && SameShape(g, h)
    ensures forall j :: 0 <= j < |g| && j != k ==> h[j] == g[j]
  {
  }

  lemma {:induction false} ShapeTrans(f: seq<Block>, g: seq<Block>, h: seq<Block>)
    requires SameShape(f, g) && SameShape(g, h)
    ensures SameShape(f, h)
  {
  }

  lemma {:induction false} FinishedGraph(p: Program, a: nat, b: nat, shape: seq<Block>, g: seq<Block>)
    requires a <= b < |p| && Shaped(p, a, b, shape) && |g| == |shape| && EdgedUpTo(p, shape, g, |g| - 1)
    ensures GoodGraph(p, a, b, g)
  {
    ShapeStable(p, a, b, shape, g);
    forall j | 0 < j < |g| - 1 ensures RightEdges(p, g, j, g[j].succs) {
      EdgesStable(p, shape, g, j, g[j].succs);
    }
  }

  ghost predicate SameShape(g: seq<Block>, h: seq<Block>) {
    |g| == |h| && forall k :: 0 <= k < |g| ==> g[k].head == h[k].head && g[k].tail == h[k].tail && g[k].idx == h[k].idx
  }

  lemma {:induction false} ShapeStable(p: Program, a: nat, b: nat, g: seq<Block>, h: seq<Block>)
    requires a <= b < |p| && Shaped(p, a, b, g) && SameShape(g, h)
    ensures Shaped(p, a, b, h)
  {
    assert forall x :: InnerHead(g, x) <==> InnerHead(h, x);
  }

  lemma {:induction false} EdgesStable(p: Program, g: seq<Block>, h: seq<Block>, k: nat, es: seq<Edge>)
    requires SameShape(g, h) && 0 < k < |g| - 1 && 0 <= g[k].tail < |p| && RightEdges(p, g, k, es)
    ensures RightEdges(p, h, k, es)
  {
  }

  /** The jump target of a block's tail is the head of some block, never of a dummy one. */
  lemma {:induction false} TargetHasBlock(p: Program, a: nat, b: nat, g: seq<Block>, k: nat)
    requires a <= b < |p| && ClosedFunction(p, a, b) && Shaped(p, a, b, g)
    requires 0 < k < |g| - 1 && IsBranch(p[g[k].tail])
    ensures HasHead(g, Target(p, g[k].tail))
    ensures forall m :: 0 <= m < |g| && g[m].head == Target(p, g[k].tail) ==> 0 < m < |g| - 1
  {
    var x := Target(p, g[k].tail);
    assert IsLeader(p, a, b, x);
    assert InnerHead(g, x);
  }

  lemma {:induction false} LeaderStep(p: Program, a: nat, cur: nat)
    requires a <= cur < |p|
    ensures var (i, t) := (p[cur], Target(p, cur));
            forall x :: LeaderUpTo(p, a, cur + 1, x) <==>
              LeaderUpTo(p, a, cur, x) || (IsBranch(i) && (x == t || (IsCond(i) && x == cur + 1)))
  {
    var (i, t) := (p[cur], Target(p, cur));
    forall x
      ensures LeaderUpTo(p, a, cur + 1, x) <==>
                LeaderUpTo(p, a, cur, x) || (IsBranch(i) && (x == t || (IsCond(i) && x == cur + 1)))
    {
    }
  }

  // ---------------------------------------------------------------- the graph covers the program

  /** The step from i to j stays in one block, or leaves a block's tail along a successor edge. */
  ghost predicate Follows(g: seq<Block>, i: int, j: int) {
    exists k :: 0 < k < |g| - 1 && FollowsIn(g, k, i, j)
  }

  ghost predicate FollowsIn(g: seq<Block>, k: nat, i: int, j: int)
    requires 0 < k < |g| - 1
  {
    && g[k].head <= i <= g[k].tail
    && if i < g[k].tail then j == i + 1
       else exists e :: e in g[k].succs && 0 < e.dst < |g| - 1 && g[e.dst].head == j
  }

  /** Every control transfer inside function a..b is visible in its graph. */
  ghost predicate Covered(p: Program, a: nat, b: nat, g: seq<Block>)
    requires a <= b < |p|
  {
    forall i, j :: a <= i <= b && a <= j <= b && Transfers(p, i, j) ==> Follows(g, i, j)
  }

  /** The instruction after an unconditional jump starts a block for some other reason. */
  ghost predicate GotosEndBlocks(p: Program, a: nat, b: nat)
    requires a <= b < |p|
  {
    forall i :: a <= i < b && IsGoto(p[i]) ==> IsLeader(p, a, b, i + 1)
  }

  lemma {:induction false} BlockOf(g: seq<Block>, lo: nat, a: int, b: int, i: int) returns (k: nat)
    requires 0 < lo < |g| - 1 && Tiles(g, lo, |g| - 1, a, b) && a <= i <= b
    ensures lo <= k < |g| - 1 && g[k].head <= i <= g[k].tail
    decreases |g| - lo
  {
    if i <= g[lo].tail {
      k := lo;
    } else {
      k := BlockOf(g, lo + 1, g[lo].tail + 1, b, i);
    }
  }

  lemma {:induction false} LaterBlocks(g: seq<Block>, k: nat, m: nat, a: int, b: int)
    requires 0 < k < m < |g| - 1 && Tiles(g, 1, |g| - 1, a, b)
    ensures g[k].tail < g[m].head
  {
    if k + 1 < m { LaterBlocks(g, k, m - 1, a, b); }
  }

  /** Block heads lie on block boundaries only. */
  lemma {:induction false} NoHeadInside(p: Program, a: nat, b: nat, g: seq<Block>, k: nat, x: int)
    requires a <= b < |p| && Shaped(p, a, b, g) && 0 < k < |g| - 1 && g[k].head < x <= g[k].tail
    ensures !IsLeader(p, a, b, x)
  {
    if IsLeader(p, a, b, x) {
      assert InnerHead(g, x);
      var m :| 0 < m < |g| - 1 && g[m].head == x;
      if m < k { LaterBlocks(g, m, k, a, b); } else if k < m { LaterBlocks(g, k, m, a, b); }
    }
  }

  lemma {:induction false} InsideNoBranch(p: Program, a: nat, b: nat, i: nat)
    requires a <= i < b < |p| && GotosEndBlocks(p, a, b) && !IsLeader(p, a, b, i + 1)
    ensures !IsBranch(p[i])
  {
  }

  lemma {:induction false} TailCovered(p: Program, a: nat, b: nat, g: seq<Block>, k: nat, j: int)
    requires a <= b < |p| && GoodGraph(p, a, b, g) && 0 < k < |g| - 1
    requires a <= j <= b && Transfers(p, g[k].tail, j)
    ensures exists e :: e in g[k].succs && 0 < e.dst < |g| - 1 && g[e.dst].head == j
  {
    assert RightEdges(p, g, k, g[k].succs);
    var t := g[k].tail;
    if !IsGoto(p[t]) && j == t + 1 {
      var e := Edge(k, k + 1, FALLTHROUGH);
      assert e in g[k].succs && g[e.dst].head == j;
    } else {
      var m :| 0 < m < |g| - 1 && g[m].head == Target(p, t) && Edge(k, m, JUMP) in g[k].succs;
      assert g[Edge(k, m, JUMP).dst].head == j;
    }
  }

  /** Before the tail of a block the next instruction is the next one. */
  lemma {:induction false} StepInside(p: Program, a: nat, b: nat, g: seq<Block>, k: nat, i: int, j: int)
    requires a <= b < |p| && ClosedFunction(p, a, b) && GoodGraph(p, a, b, g) && GotosEndBlocks(p, a, b)
    requires a <= i <= b && Transfers(p, i, j) && 0 < k < |g| - 1 && g[k].head <= i < g[k].tail
    ensures j == i + 1
  {
    NoHeadInside(p, a, b, g, k, i + 1);
    InsideNoBranch(p, a, b, i);
  }

  lemma {:induction false} StepCovered(p: Program, a: nat, b: nat, g: seq<Block>, i: int, j: int)
    requires a <= b < |p| && ClosedFunction(p, a, b) && GoodGraph(p, a, b, g) && GotosEndBlocks(p, a, b)
    requires a <= i <= b && a <= j <= b && Transfers(p, i, j)
    ensures Follows(g, i, j)
  {
    var k := BlockOf(g, 1, a, b, i);
    if i < g[k].tail {
      StepInside(p, a, b, g, k, i, j);
    } else {
      TailCovered(p, a, b, g, k, j);
    }
    assert FollowsIn(g, k, i, j);
  }

  /** The graph shows every control transfer inside the function exactly when each unconditional jump is
      followed by an instruction that starts a block. */
  lemma {:induction false} CoveredIff(p: Program, a: nat, b: nat, g: seq<Block>)
    requires a <= b < |p| && ClosedFunction(p, a, b) && GoodGraph(p, a, b, g)
    ensures Covered(p, a, b, g) <==> GotosEndBlocks(p, a, b)
  {
    if GotosEndBlocks(p, a, b) {
      forall i, j | a <= i <= b && a <= j <= b && Transfers(p, i, j) ensures Follows(g, i, j) {
        StepCovered(p, a, b, g, i, j);
      }
    }
    if Covered(p, a, b, g) {
      forall i | a <= i < b && IsGoto(p[i]) ensures IsLeader(p, a, b, i + 1) {
        var j := Target(p, i);
        assert Transfers(p, i, j) && IsLeader(p, a, b, j);
        assert Follows(g, i, j);
        var k :| 0 < k < |g| - 1 && FollowsIn(g, k, i, j);
        if i == g[k].tail {
          assert k + 1 < |g| - 1;
          assert InnerHead(g, g[k + 1].head);
        }
      }
    }
  }

  /** No edge is made up: it is a control transfer of the program, or the fall-through that the builder
      draws after BPF_EXIT, or it leads to the dummy exit block. */
  lemma {:induction false} EdgesSound(p: Program, a: nat, b: nat, g: seq<Block>, k: nat, e: Edge)
    requires a <= b < |p| && ClosedFunction(p, a, b) && GoodGraph(p, a, b, g) && 0 < k < |g| - 1 && e in g[k].succs
    ensures e.src == k && 0 < e.dst < |g|
    ensures e.dst < |g| - 1 ==> Transfers(p, g[k].tail, g[e.dst].head) || (IsExit(p[g[k].tail]) && e.dst == k + 1)
    ensures e.dst == |g| - 1 ==> k == |g| - 2
  {
    var t := g[k].tail;
    EdgeKind(p, g, k, e);
    if e.flag == JUMP { assert a <= Target(p, t); }
  }

  lemma {:induction false} EdgeKind(p: Program, g: seq<Block>, k: nat, e: Edge)
    requires 0 < k < |g| - 1 && 0 <= g[k].tail < |p| && RightEdges(p, g, k, g[k].succs) && e in g[k].succs
    ensures e.src == k && 0 < e.dst < |g|
    ensures if e.flag == FALLTHROUGH then !IsGoto(p[g[k].tail]) && e.dst == k + 1
            else IsBranch(p[g[k].tail]) && g[e.dst].head == Target(p, g[k].tail)
  {
  }

  /** A jump over one plain instruction, then an exit. */
  lemma {:induction false} JumpOver(p: Program)
    requires |p| == 3 && IsGoto(p[0]) && p[0].off == 1 && !IsBranch(p[1]) && IsExit(p[2])
    requires !IsPseudoCall(p[0]) && !IsPseudoCall(p[1]) && !IsPseudoCall(p[2])
    ensures WellFormed(p) && IsFunction(p, 0, 2) && ClosedFunction(p, 0, 2) && !GotosEndBlocks(p, 0, 2)
  {
    assert forall x :: IsStart(p, x) <==> x == 0;
    assert Target(p, 0) == 2;
    assert !IsLeader(p, 0, 2, 1);
  }

  /** The excluded side exists among the arrays the builder accepts: here no block starts after the jump, so that the
      graph, whichever it is, misses a transfer.  The instruction after the jump cannot be reached, which the kernel's
      verifier rejects at load; of such an array, and not of a loaded program, this is said. */
  lemma {:induction false} JumpMissed() returns (p: Program)
    ensures WellFormed(p) && IsFunction(p, 0, 2) && ClosedFunction(p, 0, 2)
    ensures forall g :: GoodGraph(p, 0, 2, g) ==> !Covered(p, 0, 2, g)
  {
    p := [Insn(0x05, 0, 1), Insn(0xb7, 0, 0), Insn(0x95, 0, 0)];   // goto +1; mov; exit
    JumpOver(p);
    forall g | GoodGraph(p, 0, 2, g) ensures !Covered(p, 0, 2, g) {
      CoveredIff(p, 0, 2, g);
    }
  }

  // ---------------------------------------------------------------- functions

  ghost predicate SortedStarts(fs: seq<Func>) {
    forall i, j :: 0 <= i < j < |fs| ==> fs[i].start < fs[j].start
  }

  ghost predicate HasStart(fs: seq<Func>, x: int) { exists i :: 0 <= i < |fs| && fs[i].start == x }

  ghost predicate StartsAgree(p: Program, fs: seq<Func>) { forall x :: HasStart(fs, x) <==> IsStart(p, x) }

  /** Functions are numbered without repetition, so that graph nodes get distinct names. */
  ghost predicate DistinctNumbers(fs: seq<Func>, n: nat) {
    && (forall i :: 0 <= i < |fs| ==> fs[i].idx < n)
    && (forall i, j :: 0 <= i < j < |fs| ==> fs[i].idx != fs[j].idx)
  }

  lemma {:induction false} InsertedStart(fs: seq<Func>, gs: seq<Func>, f: Func, i: nat, n: nat)
    requires i <= |fs| && SortedStarts(fs) && DistinctNumbers(fs, n) && f.idx == n
    requires (forall j :: 0 <= j < i ==> fs[j].start < f.start) && (forall j :: i <= j < |fs| ==> f.start < fs[j].start)
    requires |gs| == |fs| + 1 && gs[i] == f
    requires (forall j :: 0 <= j < i ==> gs[j] == fs[j]) && (forall j :: i < j < |gs| ==> gs[j] == fs[j - 1])
    ensures SortedStarts(gs) && DistinctNumbers(gs, n + 1)
    ensures forall j :: 0 <= j < |gs| ==> gs[j] == f || gs[j] in fs
  {
  }

  lemma {:induction false} InsertedHasStart(fs: seq<Func>, f: Func, i: nat, x: int)
    requires i <= |fs|
    ensures HasStart(fs[..i] + [f] + fs[i..], x) <==> x == f.start || HasStart(fs, x)
  {
    var gs := fs[..i] + [f] + fs[i..];
    assert gs[i] == f;
    if HasStart(fs, x) {
      var j :| 0 <= j < |fs| && fs[j].start == x;
      assert gs[if j < i then j else j + 1].start == x;
    }
  }

  class Graph {
    var funcs: seq<Func>
    var funcNum: nat

    /** The functions are sorted, numbered apart, start exactly at the program's starts, and tile it. */
    ghost predicate Partitioned(p: Program)
      reads this, funcs`end
    {
      && SortedStarts(funcs) && DistinctNumbers(funcs, funcNum) && Contiguous(funcs, |p|) && funcs[0].start == 0
      && StartsAgree(p, funcs)
    }

    constructor ()
      ensures funcs == [] && funcNum == 0
    {
      funcs, funcNum := [], 0;
    }

    /** cfg_append_func: sorted insertion without duplicates. */
    method AppendFunc(insn: int)
      requires SortedStarts(funcs) && DistinctNumbers(funcs, funcNum)
      modifies this
      ensures SortedStarts(funcs) && DistinctNumbers(funcs, funcNum) && |funcs| > 0
      ensures forall x :: HasStart(funcs, x) <==> x == insn || HasStart(old(funcs), x)
      ensures forall j :: 0 <= j < |funcs| ==> funcs[j] in old(funcs) || fresh(funcs[j])
    {
      ghost var was := funcs;
      var i := 0;
      while i < |funcs| && funcs[i].start <= insn
        invariant 0 <= i <= |funcs|
        invariant forall j :: 0 <= j < i ==> funcs[j].start < insn
      {
        if funcs[i].start == insn { return; }
        i := i + 1;
      }
      var newFunc := new Func(insn, funcNum);
      InsertedStart(was, was[..i] + [newFunc] + was[i..], newFunc, i, funcNum);
      forall x ensures HasStart(was[..i] + [newFunc] + was[i..], x) <==> x == insn || HasStart(was, x) {
        InsertedHasStart(was, newFunc, i, x);
      }
      funcs := funcs[..i] + [newFunc] + funcs[i..];
      funcNum := funcNum + 1;
    }

    /** The first loop of cfg_partition_funcs: one function node per start. */
    method CollectStarts(p: Program)
      requires |p| > 0 && funcs == [] && funcNum == 0
      modifies this
      ensures SortedStarts(funcs) && DistinctNumbers(funcs, funcNum) && |funcs| > 0
      ensures forall j :: 0 <= j < |funcs| ==> fresh(funcs[j])
      ensures StartsAgree(p, funcs)
    {
      AppendFunc(0);
      var cur := 0;
      while cur < |p|
        invariant 0 <= cur <= |p| && SortedStarts(funcs) && DistinctNumbers(funcs, funcNum) && |funcs| > 0
        invariant forall j :: 0 <= j < |funcs| ==> fresh(funcs[j])
        invariant forall x :: HasStart(funcs, x) <==> StartUpTo(p, cur, x)
      {
        if p[cur].code == BPF_JMP + BPF_CALL && p[cur].srcReg == BPF_PSEUDO_CALL {
          AppendFunc(cur + p[cur].off + 1);
        }
        StartStep(p, cur);
        cur := cur + 1;
      }
    }

    /** The second loop: a function ends before the next one starts. */
    method SetEnds(n: nat)
      requires SortedStarts(funcs) && |funcs| > 0
      modifies funcs
      ensures Contiguous(funcs, n)
    {
      var last := |funcs| - 1;
      funcs[last].end := n - 1;
      var i := 0;
      while i < last
        invariant 0 <= i <= last && funcs[last].end == n - 1
        invariant forall j :: 0 <= j < i ==> funcs[j].end + 1 == funcs[j + 1].start
      {
        assert forall j :: 0 <= j < |funcs| && j != i ==> funcs[j] != funcs[i];
        funcs[i].end := funcs[i + 1].start - 1;
        i := i + 1;
      }
    }

    /** cfg_partition_funcs */
    method PartitionFuncs(p: Program)
      requires WellFormed(p) && funcs == [] && funcNum == 0
      modifies this
      ensures Partitioned(p) && AllCut(p, funcs) && forall j :: 0 <= j < |funcs| ==> fresh(funcs[j])
    {
      CollectStarts(p);
      SetEnds(|p|);
      FirstStart(p, funcs);
      FunctionsAreFunctions(p, funcs);
    }

    /** The loop of cfg_build over the functions; it leaves their extents alone. */
    method BuildAll(p: Program)
      requires SortedStarts(funcs) && AllCut(p, funcs)
      modifies funcs`bbs, funcs`bbNum
      ensures AllBuilt(p, funcs)
    {
      var i := 0;
      while i < |funcs|
        invariant 0 <= i <= |funcs|
        invariant forall j :: 0 <= j < i ==> funcs[j].Built(p)
      {
        assert forall j :: 0 <= j < |funcs| && j != i ==> funcs[j] != funcs[i];
        assert funcs[i].IsCut(p);
        funcs[i].Build(p);
        i := i + 1;
      }
    }

    /** cfg_build: the functions cut the program into its functions, in order and without gaps, and every
        function carries a good graph of its own. */
    method Build(p: Program)
      requires WellFormed(p) && funcs == [] && funcNum == 0
      modifies this
      ensures Partitioned(p) && AllBuilt(p, funcs)
    {
      PartitionFuncs(p);
      BuildAll(p);
      BuiltCut(p, funcs);
      CutContiguous(p, funcs);
    }
  }

  /** Every function is cut out of the program as one of its functions. */
  ghost predicate AllCut(p: Program, fs: seq<Func>)
    reads fs`end
  {
    forall j :: 0 <= j < |fs| ==> fs[j].IsCut(p)
  }

  /** Every function carries a good graph. */
  ghost predicate AllBuilt(p: Program, fs: seq<Func>)
    reads fs
  {
    forall j :: 0 <= j < |fs| ==> fs[j].Built(p)
  }

  /** Each function ends where the next one starts, and the last one ends the program. */
  ghost predicate Contiguous(fs: seq<Func>, n: nat)
    reads fs`end
  {
    |fs| > 0 && fs[|fs| - 1].end == n - 1 && forall i :: 0 <= i < |fs| - 1 ==> fs[i].end + 1 == fs[i + 1].start
  }

  lemma {:induction false} StartStep(p: Program, cur: nat)
    requires cur < |p|
    ensures forall x :: StartUpTo(p, cur + 1, x) <==>
              StartUpTo(p, cur, x) || (IsPseudoCall(p[cur]) && x == Target(p, cur))
  {
  }

  lemma {:induction false} FirstStart(p: Program, fs: seq<Func>)
    requires |fs| > 0 && SortedStarts(fs)
    requires forall c :: 0 <= c < |p| && IsPseudoCall(p[c]) ==> 0 <= Target(p, c) < |p|
    requires StartsAgree(p, fs)
    ensures fs[0].start == 0
  {
    assert HasStart(fs, fs[0].start) && HasStart(fs, 0);
  }

  lemma {:induction false} BuiltCut(p: Program, fs: seq<Func>)
    requires AllBuilt(p, fs)
    ensures AllCut(p, fs)
  {
    forall j | 0 <= j < |fs| ensures fs[j].IsCut(p) {
      assert fs[j].Built(p);
    }
  }

  /** A function ends before the next start. */
  lemma {:induction false} EndsBefore(p: Program, fs: seq<Func>, i: nat)
    requires i < |fs| && SortedStarts(fs) && StartsAgree(p, fs)
    requires IsFunction(p, fs[i].start, fs[i].end) && (i + 1 < |fs| ==> IsFunction(p, fs[i + 1].start, fs[i + 1].end))
    ensures fs[i].end + 1 == if i + 1 < |fs| then fs[i + 1].start else |p|
  {
    var next := fs[i].end + 1;
    if i + 1 < |fs| {
      assert IsStart(p, fs[i + 1].start) && fs[i].start < fs[i + 1].start;
    }
    if next != |p| {
      assert IsStart(p, next) && HasStart(fs, next);
      var j :| 0 <= j < |fs| && fs[j].start == next;
      assert j > i;
    }
  }

  /** Functions that are cut out right, one for each start, leave no gaps and do not overlap. */
  lemma {:induction false} CutContiguous(p: Program, fs: seq<Func>)
    requires |fs| > 0 && SortedStarts(fs) && StartsAgree(p, fs) && AllCut(p, fs)
    ensures Contiguous(fs, |p|)
  {
    forall i | 0 <= i < |fs| ensures fs[i].end + 1 == if i + 1 < |fs| then fs[i + 1].start else |p| {
      assert fs[i].IsCut(p) && (i + 1 < |fs| ==> fs[i + 1].IsCut(p));
      EndsBefore(p, fs, i);
    }
  }

  lemma {:induction false} FunctionsAreFunctions(p: Program, fs: seq<Func>)
    requires WellFormed(p) && |fs| > 0 && SortedStarts(fs)
    requires Contiguous(fs, |p|)
    requires StartsAgree(p, fs)
    ensures AllCut(p, fs)
  {
    forall i | 0 <= i < |fs| ensures IsFunction(p, fs[i].start, fs[i].end) {
      assert HasStart(fs, fs[i].start);
      if i + 1 < |fs| { assert fs[i].end + 1 == fs[i + 1].start; assert HasStart(fs, fs[i + 1].start); }
      forall x | fs[i].start < x <= fs[i].end ensures !IsStart(p, x) {
        assert !HasStart(fs, x);
      }
    }
  }
}
