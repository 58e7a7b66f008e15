/**
  The second half of the BTF minimiser (btfgen_get_btf, lib/bpftool/src/gen.c:2491-2588): the marked
  types are copied into a new graph, composites keep their marked members, and then every type id is
  rewritten through the id map.
*/
module BtfCompact {
  import opened BtfGen

  /** The members among the first n that are marked, in order. */
  function KeepMembers(ms: seq<Member>, i: nat, mm: set<(nat, nat)>, n: nat): (r: seq<Member>)
    requires n <= |ms|
    ensures |r| <= n
  {
    if n == 0 then []
    else KeepMembers(ms, i, mm, n - 1) + if (i, n - 1) in mm then [ms[n - 1]] else []
  }

  /** Type i cut down to its marked members. */
  function Restrict(t: BtfType, i: nat, mm: set<(nat, nat)>): BtfType {
    if t.Composite? then t.(members := KeepMembers(t.members, i, mm, |t.members|)) else t
  }

  function At(ids: seq<nat>, r: nat): nat { if r < |ids| then ids[r] else 0 }

  /** Type t with every type id rewritten, as the BTF field iterator visits them. */
  function MapRefs(t: BtfType, ids: seq<nat>): BtfType {
    match t
    case Plain(_, _) => t
    case Composite(u, n, s, ms) =>
      Composite(u, n, s, seq(|ms|, k requires 0 <= k < |ms| => ms[k].(typ := At(ids, ms[k].typ))))
    case Ptr(r) => Ptr(At(ids, r))
    case Mod(kind, n, r) => Mod(kind, n, At(ids, r))
    case Fwd(n, r) => Fwd(n, At(ids, r))
    case Array(e, i, n) => Array(At(ids, e), At(ids, i), n)
    case FuncProto(ret, ps) =>
      FuncProto(At(ids, ret), seq(|ps|, k requires 0 <= k < |ps| => ps[k].(typ := At(ids, ps[k].typ))))
    case Unsupported(r) => Unsupported(At(ids, r))
  }

  // ---------------------------------------------------------------- what an image is, field by field

  /** Id r' stands in the new graph for id r of the old one. */
  ghost predicate Stands(ids: seq<nat>, r: nat, r': nat) { r' == if r < |ids| then ids[r] else 0 }

  ghost predicate SameMember(x: Member, y: Member, ids: seq<nat>) {
    y.name == x.name && y.bitOffset == x.bitOffset && y.bitSize == x.bitSize && Stands(ids, x.typ, y.typ)
  }

  /** u is type t with every id replaced by the one that stands for it and nothing else changed; of a composite, the
      members at the positions `pos` are left, in order. */
  ghost predicate Renumbered(t: BtfType, u: BtfType, ids: seq<nat>, pos: seq<nat>) {
    match t
    case Plain(_, _) => u == t
    case Composite(isUnion, name, size, ms) =>
      && u.Composite? && u.isUnion == isUnion && u.name == name && u.size == size && |u.members| == |pos|
      && forall q :: 0 <= q < |pos| ==> pos[q] < |ms| && SameMember(ms[pos[q]], u.members[q], ids)
    case Ptr(r) => u.Ptr? && Stands(ids, r, u.target)
    case Mod(kind, name, r) => u.Mod? && u.kind == kind && u.name == name && Stands(ids, r, u.target)
    case Fwd(name, r) => u.Fwd? && u.name == name && Stands(ids, r, u.target)
    case Array(e, i, n) => u.Array? && Stands(ids, e, u.elem) && Stands(ids, i, u.index) && u.nelems == n
    case FuncProto(ret, ps) =>
      && u.FuncProto? && Stands(ids, ret, u.ret) && |u.params| == |ps|
      && forall k :: 0 <= k < |ps| ==> u.params[k].name == ps[k].name && Stands(ids, ps[k].typ, u.params[k].typ)
    case Unsupported(r) => u.Unsupported? && Stands(ids, r, u.target)
  }

  /** The positions below n of the marked members of type i. */
  function Positions(i: nat, mm: set<(nat, nat)>, n: nat): (r: seq<nat>)
    ensures forall q :: 0 <= q < |r| ==> r[q] < n
    ensures forall q, q' :: 0 <= q < q' < |r| ==> r[q] < r[q']
    ensures forall k :: 0 <= k < n ==> (k in r <==> (i, k) in mm)
  {
    if n == 0 then [] else Positions(i, mm, n - 1) + if (i, n - 1) in mm then [n - 1] else []
  }

  function Count(n: nat): (r: seq<nat>)
    ensures |r| == n && forall k :: 0 <= k < n ==> r[k] == k
  {
    seq(n, k => k)
  }

  function Members(t: BtfType): nat { if t.Composite? then |t.members| else 0 }

  /** The first pass keeps the members at the marked positions. */
  lemma {:induction false} KeptAtPositions(ms: seq<Member>, i: nat, mm: set<(nat, nat)>, n: nat)
    requires n <= |ms|
    ensures |KeepMembers(ms, i, mm, n)| == |Positions(i, mm, n)|
    ensures forall q :: 0 <= q < |Positions(i, mm, n)| ==> KeepMembers(ms, i, mm, n)[q] == ms[Positions(i, mm, n)[q]]
  {
    if n > 0 { KeptAtPositions(ms, i, mm, n - 1); }
  }

  /** The second pass changes nothing but ids. */
  lemma {:induction false} MapRefsRenumbers(t: BtfType, ids: seq<nat>)
    ensures Renumbered(t, MapRefs(t, ids), ids, Count(Members(t)))
  {
  }

  /** Both passes together. */
  lemma {:induction false} CutRenumbers(t: BtfType, i: nat, mm: set<(nat, nat)>, ids: seq<nat>)
    ensures Renumbered(t, MapRefs(Restrict(t, i, mm), ids), ids, Positions(i, mm, Members(t)))
  {
    if t.Composite? { KeptAtPositions(t.members, i, mm, |t.members|); }
  }

  /** `ids` is an order-preserving bijection from the marked types below n onto 1..|origin|-1, with inverse
      `origin`; everything else maps to void. */
  ghost predicate Renumbers(m: set<nat>, n: nat, ids: seq<nat>, origin: seq<nat>) {
    && n <= |ids| && |origin| > 0 && origin[0] == 0
    && (forall i :: 0 <= i < |ids| ==>
          if i in m && 0 < i < n then 0 < ids[i] < |origin| && origin[ids[i]] == i else ids[i] == 0)
    && (forall j :: 0 < j < |origin| ==> 0 < origin[j] < n && origin[j] in m && ids[origin[j]] == j)
    && (forall j, k :: 0 <= j < k < |origin| ==> origin[j] < origin[k])
  }

  /** The new graph holds, under its new number, each marked type restricted to its marked members and with
      its references rewritten. */
  ghost predicate Minimised(b: Btf, m: set<nat>, mm: set<(nat, nat)>, out: Btf, ids: seq<nat>, origin: seq<nat>) {
    && |ids| == |b| && Renumbers(m, |b|, ids, origin) && |out| == |origin| && out[0].Plain?
    && forall j :: 0 < j < |out| ==> out[j] == MapRefs(Restrict(b[origin[j]], origin[j], mm), ids)
  }

  /** The inner loop of the first pass: copy the marked members of one composite type. */
  method CopyMembers(ms: seq<Member>, i: nat, mm: set<(nat, nat)>) returns (r: seq<Member>)
    ensures r == KeepMembers(ms, i, mm, |ms|)
  {
    r := [];
    var k := 0;
    while k < |ms|
      invariant 0 <= k <= |ms| && r == KeepMembers(ms, i, mm, k)
    {
      if (i, k) in mm {
        r := r + [ms[k]];
      }
      k := k + 1;
    }
  }

  method CopyType(t: BtfType, i: nat, mm: set<(nat, nat)>) returns (r: BtfType)
    ensures r == Restrict(t, i, mm)
  {
    r := t;
    if t.Composite? {
      var kept := CopyMembers(t.members, i, mm);
      r := Composite(t.isUnion, t.name, t.size, kept);
    }
  }

  ghost predicate Copied(b: Btf, mm: set<(nat, nat)>, out: Btf, origin: seq<nat>) {
    && |out| == |origin| > 0 && out[0].Plain?
    && forall j :: 0 < j < |out| ==> origin[j] < |b| && out[j] == Restrict(b[origin[j]], origin[j], mm)
  }

  lemma {:induction false} CopiedNext(b: Btf, mm: set<(nat, nat)>, out: Btf, origin: seq<nat>, i: nat)
    requires Copied(b, mm, out, origin) && i < |b|
    ensures Copied(b, mm, out + [Restrict(b[i], i, mm)], origin + [i])
  {
  }

  /** The first pass: copy the marked types and fill the id map. */
  method CopyMarked(b: Btf, m: set<nat>, mm: set<(nat, nat)>)
    returns (out: Btf, idMap: array<nat>, ghost origin: seq<nat>)
    requires ValidBtf(b)
    ensures fresh(idMap) && idMap.Length == |b|
    ensures Renumbers(m, |b|, idMap[..], origin) && Copied(b, mm, out, origin)
  {
    idMap := new nat[|b|](_ => 0);
    out, origin := [b[0]], [0];
    var i := 1;
    while i < |b|
      invariant 1 <= i <= |b|
      invariant Renumbers(m, i, idMap[..], origin) && Copied(b, mm, out, origin)
    {
      if i in m {
        var newType := CopyType(b[i], i, mm);
        CopiedNext(b, mm, out, origin, i);
        RenumberNext(m, i, idMap[..], origin);
        ghost var before := idMap[..];
        var newId: nat := |out|;
        idMap[i] := newId;
        out, origin := out + [newType], origin + [i];
        assert idMap[..] == before[i := newId];
      } else {
        RenumberSkip(m, i, idMap[..], origin);
      }
      i := i + 1;
    }
  }

  /** The second pass: fix up the type ids. */
  method RewriteIds(first: Btf, idMap: array<nat>) returns (out: Btf)
    requires |first| > 0
    ensures |out| == |first| && out[0] == first[0]
    ensures forall j :: 0 < j < |out| ==> out[j] == MapRefs(first[j], idMap[..])
    ensures forall j :: 0 < j < |out| ==> Renumbered(first[j], out[j], idMap[..], Count(Members(first[j])))
  {
    out := first;
    var i := 1;
    while i < |out|
      invariant 1 <= i <= |out| == |first| && out[0] == first[0]
      invariant forall j :: 0 < j < i ==> out[j] == MapRefs(first[j], idMap[..])
      invariant forall j :: i <= j < |out| ==> out[j] == first[j]
    {
      out := out[i := MapRefs(out[i], idMap[..])];
      i := i + 1;
    }
    forall j | 0 < j < |out| ensures Renumbered(first[j], out[j], idMap[..], Count(Members(first[j]))) {
      MapRefsRenumbers(first[j], idMap[..]);
    }
  }

  /** btfgen_get_btf */
  method GetBtf(b: Btf, m: set<nat>, mm: set<(nat, nat)>) returns (out: Btf, idMap: array<nat>, ghost origin: seq<nat>)
    requires ValidBtf(b)
    ensures fresh(idMap) && Minimised(b, m, mm, out, idMap[..], origin)
    ensures forall j :: 0 < j < |out| ==> IsCut(b, mm, out, idMap[..], origin[j], j)
  {
    out, idMap, origin := CopyMarked(b, m, mm);
    out := RewriteIds(out, idMap);
    forall j | 0 < j < |out| ensures IsCut(b, mm, out, idMap[..], origin[j], j) {
      MinimisedCuts(b, m, mm, out, idMap[..], origin, j);
    }
  }

  /** Type j of the new graph is type i of the old one, renumbered and cut down to its marked members. */
  ghost predicate IsCut(b: Btf, mm: set<(nat, nat)>, out: Btf, ids: seq<nat>, i: nat, j: nat) {
    i < |b| && j < |out| && Renumbered(b[i], out[j], ids, Positions(i, mm, Members(b[i])))
  }

  /** In every minimised graph, field by field. */
  lemma {:induction false} MinimisedCuts(b: Btf, m: set<nat>, mm: set<(nat, nat)>, out: Btf, ids: seq<nat>,
                                         origin: seq<nat>, j: nat)
    requires Minimised(b, m, mm, out, ids, origin) && 0 < j < |out|
    ensures IsCut(b, mm, out, ids, origin[j], j)
  {
    CutRenumbers(b[origin[j]], origin[j], mm, ids);
  }

  lemma {:induction false} RenumberNext(m: set<nat>, i: nat, ids: seq<nat>, origin: seq<nat>)
    requires Renumbers(m, i, ids, origin) && 0 < i < |ids| && i in m
    ensures Renumbers(m, i + 1, ids[i := |origin|], origin + [i])
  {
  }

  lemma {:induction false} RenumberSkip(m: set<nat>, i: nat, ids: seq<nat>, origin: seq<nat>)
    requires Renumbers(m, i, ids, origin) && 0 < i < |ids| && i !in m
    ensures Renumbers(m, i + 1, ids, origin)
  {
  }

  // ---------------------------------------------------------------- what the new graph means

  lemma {:induction false} KeptFrom(ms: seq<Member>, i: nat, mm: set<(nat, nat)>, n: nat, x: Member)
    requires n <= |ms| && x in KeepMembers(ms, i, mm, n)
    ensures exists k :: 0 <= k < n && (i, k) in mm && ms[k] == x
  {
    if x in KeepMembers(ms, i, mm, n - 1) { KeptFrom(ms, i, mm, n - 1, x); }
  }

  lemma {:induction false} CountNext(n: nat)
    requires n > 0
    ensures Count(n) == Count(n - 1) + [n - 1]
  {
  }

  /** A composite all of whose members are marked keeps them all. */
  lemma {:induction false} AllPositions(i: nat, mm: set<(nat, nat)>, n: nat)
    requires forall k :: 0 <= k < n ==> (i, k) in mm
    ensures Positions(i, mm, n) == Count(n)
  {
    if n > 0 {
      AllPositions(i, mm, n - 1);
      CountNext(n);
    }
  }

  /** Marked member k lands at the position given by the number of marked members before it. */
  lemma {:induction false} KeptAt(ms: seq<Member>, i: nat, mm: set<(nat, nat)>, k: nat, n: nat)
    requires k < n <= |ms| && (i, k) in mm
    ensures var kept := KeepMembers(ms, i, mm, n);
            |KeepMembers(ms, i, mm, k)| < |kept| && kept[|KeepMembers(ms, i, mm, k)|] == ms[k]
  {
    if k < n - 1 { KeptAt(ms, i, mm, k, n - 1); }
  }

  /** An id of the rewritten type comes from an id of the restricted original. */
  lemma {:induction false} MappedRef(t: BtfType, i: nat, mm: set<(nat, nat)>, ids: seq<nat>, r': nat) returns (r: nat)
    requires r' in AllRefs(MapRefs(Restrict(t, i, mm), ids))
    ensures r' == At(ids, r)
    ensures t.Composite? ==> exists k :: 0 <= k < |t.members| && (i, k) in mm && t.members[k].typ == r
    ensures t.Ptr? ==> r == t.target
    ensures !t.Composite? && !t.Ptr? && !t.Unsupported? ==> r in Refs(t)
    ensures r in AllRefs(t)
  {
    var u := Restrict(t, i, mm);
    var v := MapRefs(u, ids);
    match u {
      case Composite(_, _, _, ms) =>
        var x' :| x' in v.members && x'.typ == r';
        var k :| 0 <= k < |ms| && v.members[k] == x';
        KeptFrom(t.members, i, mm, |t.members|, ms[k]);
        r := ms[k].typ;
      case FuncProto(ret, ps) =>
        if r' == At(ids, ret) { return ret; }
        var p' :| p' in v.params && p'.typ == r';
        var k :| 0 <= k < |ps| && v.params[k] == p';
        assert ps[k] in ps;
        r := ps[k].typ;
      case Ptr(x) => r := x;
      case Unsupported(x) => r := x;
      case Mod(_, _, x) => r := x;
      case Fwd(_, x) => r := x;
      case Array(e, x, _) => r := if r' == At(ids, e) then e else x;
      case Plain(_, _) =>
    }
  }

  /** Every id in the new graph is a type of the new graph. */
  lemma {:induction false} NewIdsValid(b: Btf, m: set<nat>, mm: set<(nat, nat)>, out: Btf, ids: seq<nat>,
                                       origin: seq<nat>)
    requires Minimised(b, m, mm, out, ids, origin)
    ensures ValidBtf(out)
  {
    forall j, r' | 0 <= j < |out| && r' in AllRefs(out[j]) ensures r' < |out| {
      var r := MappedRef(b[origin[j]], origin[j], mm, ids, r');
    }
  }

  /** A reference of the new graph is void only if it was void before, or hangs directly under a pointer. */
  lemma {:induction false} VoidOnlyUnderPointer(b: Btf, m: set<nat>, mm: set<(nat, nat)>, out: Btf, ids: seq<nat>,
                                                origin: seq<nat>, j: nat, r': nat)
    returns (r: nat)
    requires ValidBtf(b) && Closed(b, m, mm) && Minimised(b, m, mm, out, ids, origin)
    requires 0 < j < |out| && r' in AllRefs(out[j])
    ensures r in AllRefs(b[origin[j]]) && r' == At(ids, r)
    ensures r' == 0 && r != 0 ==> out[j].Ptr?
  {
    var i := origin[j];
    assert ClosedAt(b, m, i);
    r := MappedRef(b[i], i, mm, ids, r');
    if b[i].Composite? {
      var k :| 0 <= k < |b[i].members| && (i, k) in mm && b[i].members[k].typ == r;
      assert MemberClosed(b, m, i, k);
    }
  }

  // ---------------------------------------------------------------- access paths survive

  /** The same access path, with each member index replaced by its position among the kept members. */
  function NewPath(b: Btf, rank: seq<nat>, mm: set<(nat, nat)>, id: nat, path: seq<nat>): (r: seq<nat>)
    requires ValidBtf(b) && Ranked(b, false, rank) && id < |b|
    ensures |r| <= |path|
    decreases |path|
  {
    if path == [] then []
    else
      var s := SkipMods(b, rank, id);
      if b[s].Composite? && path[0] < |b[s].members| then
        assert b[s].members[path[0]] in b[s].members && b[s].members[path[0]].typ in AllRefs(b[s]);
        [|KeepMembers(b[s].members, s, mm, path[0])|] + NewPath(b, rank, mm, b[s].members[path[0]].typ, path[1..])
      else if b[s].Array? then
        assert b[s].elem in AllRefs(b[s]);
        [path[0]] + NewPath(b, rank, mm, b[s].elem, path[1..])
      else []
  }

  function NewRank(rank: seq<nat>, origin: seq<nat>): seq<nat> {
    seq(|origin|, j requires 0 <= j < |origin| => At(rank, origin[j]))
  }

  lemma {:induction false} NewRanked(b: Btf, m: set<nat>, mm: set<(nat, nat)>, out: Btf, ids: seq<nat>,
                                     origin: seq<nat>, rank: seq<nat>)
    requires ValidBtf(b) && Closed(b, m, mm) && Minimised(b, m, mm, out, ids, origin) && Ranked(b, false, rank)
    ensures ValidBtf(out) && Ranked(out, false, NewRank(rank, origin))
  {
    NewIdsValid(b, m, mm, out, ids, origin);
    var rank' := NewRank(rank, origin);
    forall j, r' | 0 < j < |out| && r' in Followed(out[j], false) && 0 < r' < |out| ensures rank'[r'] < rank'[j] {
      var r := MappedRef(b[origin[j]], origin[j], mm, ids, r');
      assert r in Followed(b[origin[j]], false);
    }
  }

  lemma {:induction false} SkipModsNew(b: Btf, m: set<nat>, mm: set<(nat, nat)>, out: Btf, ids: seq<nat>,
                                       origin: seq<nat>, rank: seq<nat>, id: nat)
    requires ValidBtf(b) && Closed(b, m, mm) && Minimised(b, m, mm, out, ids, origin) && Ranked(b, false, rank)
    requires ValidBtf(out) && Ranked(out, false, NewRank(rank, origin))
    requires id < |b| && MarkedOrVoid(m, id)
    ensures SkipMods(out, NewRank(rank, origin), ids[id]) == ids[SkipMods(b, rank, id)]
    decreases if id == 0 then 0 else rank[id] + 1
  {
    if b[id].Mod? {
      var r := b[id].target;
      assert r in AllRefs(b[id]) && r in Followed(b[id], false) && r in Refs(b[id]) && ClosedAt(b, m, id);
      SkipModsNew(b, m, mm, out, ids, origin, rank, r);
    } else if id != 0 {
      assert !out[ids[id]].Mod?;
    }
  }

  /** Minimising preserves the meaning of a recorded field relocation: the same access path leads, in the
      new graph, through members of the same names, bit offsets and bit sizes to the same type. */
  lemma {:induction false} AccessPreserved(b: Btf, m: set<nat>, mm: set<(nat, nat)>, out: Btf, ids: seq<nat>,
                                           origin: seq<nat>, rank: seq<nat>, id: nat, path: seq<nat>)
    requires ValidBtf(b) && Closed(b, m, mm) && Minimised(b, m, mm, out, ids, origin) && Ranked(b, false, rank)
    requires id < |b| && MarkedOrVoid(m, id) && PathMarked(b, rank, mm, id, path)
    ensures ValidBtf(out) && Ranked(out, false, NewRank(rank, origin))
    ensures Follow(b, rank, id, path).Access?
    ensures Follow(out, NewRank(rank, origin), ids[id], NewPath(b, rank, mm, id, path))
            == Access(ids[Follow(b, rank, id, path).typ], Follow(b, rank, id, path).fields)
    decreases |path|
  {
    NewRanked(b, m, mm, out, ids, origin, rank);
    if path != [] {
      SkipModsNew(b, m, mm, out, ids, origin, rank, id);
      SkipModsMarked(b, rank, m, mm, id);
      var s := SkipMods(b, rank, id);
      if b[s].Composite? {
        var k, ms := path[0], b[s].members;
        assert MemberClosed(b, m, s, k);
        KeptAt(ms, s, mm, k, |ms|);
        AccessPreserved(b, m, mm, out, ids, origin, rank, ms[k].typ, path[1..]);
        var k' := |KeepMembers(ms, s, mm, k)|;
        assert out[ids[s]].members[k'] == ms[k].(typ := ids[ms[k].typ]);
        assert NewPath(b, rank, mm, id, path)[0] == k';
        assert NewPath(b, rank, mm, id, path)[1..] == NewPath(b, rank, mm, ms[k].typ, path[1..]);
      } else {
        assert b[s].elem in Refs(b[s]) && ClosedAt(b, m, s);
        AccessPreserved(b, m, mm, out, ids, origin, rank, b[s].elem, path[1..]);
        assert NewPath(b, rank, mm, id, path)[1..] == NewPath(b, rank, mm, b[s].elem, path[1..]);
      }
    }
  }

  // ---------------------------------------------------------------- the tool from end to end

  /** Type i is in the new graph, with its references rewritten: as a whole, or cut down to its marked members. */
  ghost predicate HasImage(b: Btf, mm: set<(nat, nat)>, out: Btf, ids: seq<nat>, i: nat, whole: bool) {
    && 0 < i < |b| == |ids| && 0 < ids[i] < |out|
    && Renumbered(b[i], out[ids[i]], ids, if whole then Count(Members(b[i])) else Positions(i, mm, Members(b[i])))
  }

  /** The type root and everything btfgen_mark_type reaches from it are in the new graph. */
  ghost predicate Retained(b: Btf, mm: set<(nat, nat)>, out: Btf, ids: seq<nat>, followPointers: bool, root: nat) {
    exists Y :: MarkedOrVoid(Y, root) && Absorbs(b, followPointers, Y)
                && forall i :: i in Y ==> HasImage(b, mm, out, ids, i, false)
  }

  /** A composite behind a pointer may have lost members; any other type that a match looks at is there as it was. */
  ghost predicate HasMatchImage(b: Btf, mm: set<(nat, nat)>, out: Btf, ids: seq<nat>, c: (nat, bool)) {
    c.0 < |b| && HasImage(b, mm, out, ids, c.0, !c.1 || !b[c.0].Composite?)
  }

  /** Everything a match of type root compares is in the new graph, composites not behind a pointer with all of their
      members. */
  ghost predicate RetainedWhole(b: Btf, mm: set<(nat, nat)>, out: Btf, ids: seq<nat>, root: nat) {
    exists C :: (root == 0 || (root, false) in C) && AbsorbsMatch(b, C)
                && forall c :: c in C ==> HasMatchImage(b, mm, out, ids, c)
  }

  /** The new graph means the same to the relocation.  An access path leads through the same members to the same
      type; the types that a type, an enum value or a type match looks at are there with all that it follows. */
  ghost predicate Preserved(b: Btf, mm: set<(nat, nat)>, out: Btf, ids: seq<nat>, origin: seq<nat>, rank: seq<nat>,
                            relo: Relo)
    requires ValidBtf(b) && Ranked(b, true, rank) && ReloFits(b, rank, relo)
  {
    RankedPlain(b, rank);
    match relo
    case FieldRelo(root, path) =>
      && |ids| == |b| && ValidBtf(out) && Ranked(out, false, NewRank(rank, origin)) && ids[root] < |out|
      && (var a, path' := Follow(b, rank, root, path), NewPath(b, rank, mm, root, path);
          a.Access? && Follow(out, NewRank(rank, origin), ids[root], path') == Access(ids[a.typ], a.fields))
    case TypeRelo(root) => Retained(b, mm, out, ids, true, root)
    case EnumvalRelo(root) => Retained(b, mm, out, ids, false, root)
    case MatchRelo(root) => RetainedWhole(b, mm, out, ids, root)
    case LocalRelo => true
    case UnknownRelo => false
  }

  lemma {:induction false} MarkedHasImage(b: Btf, m: set<nat>, mm: set<(nat, nat)>, out: Btf, ids: seq<nat>,
                                          origin: seq<nat>, i: nat)
    requires Closed(b, m, mm) && Minimised(b, m, mm, out, ids, origin) && i in m
    ensures HasImage(b, mm, out, ids, i, false)
  {
    assert 0 < ids[i] < |origin| && origin[ids[i]] == i;
    MinimisedCuts(b, m, mm, out, ids, origin, ids[i]);
  }

  lemma {:induction false} TypesRetained(b: Btf, m: set<nat>, mm: set<(nat, nat)>, out: Btf, ids: seq<nat>,
                                         origin: seq<nat>, followPointers: bool, root: nat, Y: set<nat>)
    requires Closed(b, m, mm) && Minimised(b, m, mm, out, ids, origin)
    requires Y <= m && Absorbs(b, followPointers, Y) && MarkedOrVoid(Y, root)
    ensures Retained(b, mm, out, ids, followPointers, root)
  {
    forall i | i in Y ensures HasImage(b, mm, out, ids, i, false) {
      MarkedHasImage(b, m, mm, out, ids, origin, i);
    }
  }

  lemma {:induction false} MatchRetained(b: Btf, m: set<nat>, mm: set<(nat, nat)>, out: Btf, ids: seq<nat>,
                                         origin: seq<nat>, root: nat, C: set<(nat, bool)>)
    requires Closed(b, m, mm) && Minimised(b, m, mm, out, ids, origin)
    requires Explored(b, C, m, mm) && (root == 0 || (root, false) in C)
    ensures RetainedWhole(b, mm, out, ids, root)
  {
    forall c | c in C ensures HasMatchImage(b, mm, out, ids, c) {
      assert CarriedOut(b, c, m, mm);
      MarkedHasImage(b, m, mm, out, ids, origin, c.0);
      if b[c.0].Composite? && !c.1 {
        AllPositions(c.0, mm, |b[c.0].members|);
      } else if !b[c.0].Composite? {
        assert Positions(c.0, mm, 0) == Count(0);
      }
    }
  }

  lemma {:induction false} RecordedPreserved(b: Btf, m: set<nat>, mm: set<(nat, nat)>, out: Btf, ids: seq<nat>,
                                             origin: seq<nat>, rank: seq<nat>, relo: Relo)
    requires ValidBtf(b) && Closed(b, m, mm) && Minimised(b, m, mm, out, ids, origin) && Ranked(b, true, rank)
    requires ReloFits(b, rank, relo) && Recorded(b, rank, relo, m, mm)
    ensures Preserved(b, mm, out, ids, origin, rank, relo)
  {
    RankedPlain(b, rank);
    match relo
    case FieldRelo(root, path) => AccessPreserved(b, m, mm, out, ids, origin, rank, root, path);
    case TypeRelo(root) =>
      var Y :| Y <= m && Absorbs(b, true, Y) && MarkedOrVoid(Y, root);
      TypesRetained(b, m, mm, out, ids, origin, true, root, Y);
    case EnumvalRelo(root) =>
      var Y :| Y <= m && Absorbs(b, false, Y) && MarkedOrVoid(Y, root);
      TypesRetained(b, m, mm, out, ids, origin, false, root, Y);
    case MatchRelo(root) =>
      var C :| Explored(b, C, m, mm) && (root == 0 || (root, false) in C);
      MatchRetained(b, m, mm, out, ids, origin, root, C);
    case LocalRelo =>
  }

  /** minimize_btf: any number of relocations of all kinds is recorded, then the graph is compacted once.  The kept
      types m and members mm are the least that all relocations need, and the result means the same to each. */
  method MinimizeBtf(b: Btf, relos: seq<Relo>, ghost rank: seq<nat>, ghost rankMatch: seq<(nat, nat)>)
    returns (ok: bool, out: Btf, ghost ids: seq<nat>, ghost origin: seq<nat>,
             ghost m: set<nat>, ghost mm: set<(nat, nat)>)
    requires ValidBtf(b) && Ranked(b, true, rank) && AllFit(b, rank, relos)
    requires forall j :: 0 <= j < |relos| && relos[j].MatchRelo? ==> RankedMatch(b, rankMatch)
    ensures ok ==> Closed(b, m, mm) && Minimised(b, m, mm, out, ids, origin) && ValidBtf(out)
    ensures ok ==> AllRecorded(b, rank, relos, |relos|, m, mm)
    ensures ok ==> forall X, XM :: AllRecorded(b, rank, relos, |relos|, X, XM) ==> m <= X && mm <= XM
    ensures ok ==> forall j :: 0 <= j < |relos| ==> Preserved(b, mm, out, ids, origin, rank, relos[j])
    ensures !ok ==> SomeFails(b, rank, relos, m)
  {
    out, ids, origin := [], [], [];
    var marker := new Marker(b);
    ok := marker.RecordAll(relos, rank, rankMatch);
    m, mm := marker.marked, marker.members;
    if !ok { return; }
    var idMap;
    out, idMap, origin := GetBtf(b, marker.marked, marker.members);
    ids := idMap[..];
    NewIdsValid(b, m, mm, out, ids, origin);
    forall j | 0 <= j < |relos| ensures Preserved(b, mm, out, ids, origin, rank, relos[j]) {
      AllRecordedAt(b, rank, relos, |relos|, m, mm, j);
      RecordedPreserved(b, m, mm, out, ids, origin, rank, relos[j]);
    }
  }
}
