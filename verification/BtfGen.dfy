/**
  The BTF minimiser of bpftool (lib/bpftool/src/gen.c:2082-2588).  Types that relocations need are
  marked in a copy of the type graph; then the marked part is copied into a new, densely numbered graph.
  Type 0 is void.  Marks are kept as a set of type ids and a set of (type id, member index) pairs.
*/
module BtfGen {

  datatype Member = Member(name: string, typ: nat, bitOffset: nat, bitSize: nat)
  datatype Param = Param(name: string, typ: nat)
  datatype ModKind = CONST | VOLATILE | RESTRICT | TYPEDEF

  datatype BtfType =
    | Plain(name: string, info: nat)                     // UNKN, INT, FLOAT, ENUM, ENUM64
    | Composite(isUnion: bool, name: string, size: nat, members: seq<Member>)
    | Ptr(target: nat)
    | Mod(kind: ModKind, name: string, target: nat)
    | Fwd(name: string, target: nat)
    | Array(elem: nat, index: nat, nelems: nat)
    | FuncProto(ret: nat, params: seq<Param>)
    | Unsupported(target: nat)                           // FUNC, VAR, DATASEC, DECL_TAG, TYPE_TAG

  type Btf = seq<BtfType>

  /** Types a non-pointer, non-composite type refers to. */
  function Refs(t: BtfType): set<nat> {
    match t
    case Mod(_, _, r) => {r}
    case Fwd(_, r) => {r}
    case Array(e, i, _) => {e, i}
    case FuncProto(ret, ps) => {ret} + set p | p in ps :: p.typ
    case _ => {}
  }

  /** Every type id stored in a type. */
  function AllRefs(t: BtfType): set<nat> {
    match t
    case Ptr(r) => {r}
    case Unsupported(r) => {r}
    case Composite(_, _, _, ms) => set m | m in ms :: m.typ
    case _ => Refs(t)
  }

  ghost predicate ValidBtf(b: Btf) {
    |b| > 0 && b[0].Plain? && forall i, r :: 0 <= i < |b| && r in AllRefs(b[i]) ==> r < |b|
  }

  // ---------------------------------------------------------------- closure

  ghost predicate MarkedOrVoid(m: set<nat>, r: nat) { r == 0 || r in m }

  /** Type i is of a kind the minimiser handles, and what it refers to is marked or void. */
  ghost predicate ClosedAt(b: Btf, m: set<nat>, i: nat)
    requires i < |b|
  {
    !b[i].Unsupported? && forall r :: r in Refs(b[i]) ==> MarkedOrVoid(m, r)
  }

  /** A marked member belongs to a marked composite type, and its own type is void or marked. */
  ghost predicate MemberClosed(b: Btf, m: set<nat>, i: nat, k: nat) {
    && i < |b| && i in m && b[i].Composite? && k < |b[i].members|
    && MarkedOrVoid(m, b[i].members[k].typ)
  }

  /** What successful marking guarantees. */
  ghost predicate Closed(b: Btf, m: set<nat>, mm: set<(nat, nat)>) {
    && (forall i :: i in m ==> 0 < i < |b| && ClosedAt(b, m, i))
    && (forall i, k :: (i, k) in mm ==> MemberClosed(b, m, i, k))
  }

  /** The types btfgen_mark_type goes on to from type t. */
  function Followed(t: BtfType, followPointers: bool): set<nat> {
    if t.Ptr? then (if followPointers then {t.target} else {}) else if t.Fwd? then {} else Refs(t)
  }

  /** Type i has been dealt with by btfgen_mark_type: it is of a kind that function handles, and every type it
      goes on to is marked or void. */
  ghost predicate DoneAt(b: Btf, m: set<nat>, i: nat, followPointers: bool)
    requires i < |b|
  {
    ClosedAt(b, m, i) && !b[i].Fwd? && forall r :: r in Followed(b[i], followPointers) ==> MarkedOrVoid(m, r)
  }

  /** Some marked type is of a kind that btfgen_mark_type, or only btfgen_mark_type_match too, rejects. */
  ghost predicate HasRejected(b: Btf, m: set<nat>) { exists i :: i in m && i < |b| && (b[i].Fwd? || b[i].Unsupported?) }
  ghost predicate HasUnsupported(b: Btf, m: set<nat>) { exists i :: i in m && i < |b| && b[i].Unsupported? }

  /** X contains what btfgen_mark_type reaches from its own elements. */
  ghost predicate Absorbs(b: Btf, followPointers: bool, X: set<nat>) {
    forall i, r :: i in X && 0 < i < |b| && r in Followed(b[i], followPointers) ==> MarkedOrVoid(X, r)
  }

  /** Y is a set of types that btfgen_mark_type has dealt with in full: it holds all they go on to. */
  ghost predicate Done(b: Btf, followPointers: bool, Y: set<nat>) {
    forall i :: i in Y ==> 0 < i < |b| && DoneAt(b, Y, i, followPointers)
  }

  lemma {:induction false} DoneUnion(b: Btf, followPointers: bool, Y: set<nat>, Z: set<nat>)
    requires Done(b, followPointers, Y) && Done(b, followPointers, Z)
    ensures Done(b, followPointers, Y + Z)
  {
    forall i | i in Y + Z ensures 0 < i < |b| && DoneAt(b, Y + Z, i, followPointers) {
      assert if i in Y then DoneAt(b, Y, i, followPointers) else DoneAt(b, Z, i, followPointers);
    }
  }

  lemma {:induction false} DoneAdd(b: Btf, followPointers: bool, Y: set<nat>, id: nat)
    requires Done(b, followPointers, Y) && 0 < id < |b| && !b[id].Fwd? && !b[id].Unsupported?
    requires forall r :: r in Followed(b[id], followPointers) ==> MarkedOrVoid(Y, r)
    ensures Done(b, followPointers, Y + {id})
  {
    forall i | i in Y + {id} ensures 0 < i < |b| && DoneAt(b, Y + {id}, i, followPointers) {
      if i in Y {
        assert DoneAt(b, Y, i, followPointers);
      } else {
        assert forall r :: r in Refs(b[id]) ==> r in Followed(b[id], followPointers);
      }
    }
  }

  /** Y has nothing that a set with type id, closed under the followed references, could do without. */
  ghost predicate Inside(b: Btf, followPointers: bool, id: nat, Y: set<nat>) {
    forall X :: Absorbs(b, followPointers, X) && MarkedOrVoid(X, id) ==> Y <= X
  }

  /** The state of btfgen_mark_type on behalf of type id, from marks m0 to m, with the types Y visited so far. */
  ghost predicate Visiting(b: Btf, followPointers: bool, id: nat, m0: set<nat>, m: set<nat>, Y: set<nat>, ok: bool) {
    && m == m0 + Y && (forall i :: i in Y ==> 0 < i < |b|) && Inside(b, followPointers, id, Y)
    && if ok then Done(b, followPointers, Y) else HasRejected(b, Y)
  }

  /** The first type r visited on behalf of id. */
  lemma {:induction false} VisitFirst(b: Btf, followPointers: bool, id: nat, r: nat, m0: set<nat>, m: set<nat>,
                                      Y: set<nat>, ok: bool)
    requires 0 < id < |b| && r in Followed(b[id], followPointers) && Visiting(b, followPointers, r, m0, m, Y, ok)
    ensures Visiting(b, followPointers, id, m0, m, Y, ok)
  {
  }

  /** One more type r visited on behalf of id. */
  lemma {:induction false} VisitNext(b: Btf, followPointers: bool, id: nat, r: nat, m0: set<nat>, m1: set<nat>,
                                     Y: set<nat>, m: set<nat>, Z: set<nat>, ok: bool)
    requires 0 < id < |b| && r in Followed(b[id], followPointers)
    requires Visiting(b, followPointers, id, m0, m1, Y, true) && Visiting(b, followPointers, r, m1, m, Z, ok)
    ensures Visiting(b, followPointers, id, m0, m, Y + Z, ok)
  {
    if ok { DoneUnion(b, followPointers, Y, Z); }
  }

  /** All types that id goes on to are visited, and so is id. */
  lemma {:induction false} VisitSelf(b: Btf, followPointers: bool, id: nat, m0: set<nat>, m: set<nat>, Y: set<nat>,
                                     ok: bool)
    requires 0 < id < |b| && !b[id].Fwd? && !b[id].Unsupported?
    requires Visiting(b, followPointers, id, m0 + {id}, m, Y, ok)
    requires ok ==> forall r :: r in Followed(b[id], followPointers) ==> MarkedOrVoid(Y, r)
    ensures Visiting(b, followPointers, id, m0, m, Y + {id}, ok)
  {
    if ok { DoneAdd(b, followPointers, Y, id); }
  }

  /** The return type and the first i parameter types of a prototype are visited. */
  ghost predicate ParamsVisited(t: BtfType, i: nat, Y: set<nat>) {
    && t.FuncProto? && i <= |t.params| && MarkedOrVoid(Y, t.ret)
    && forall j :: 0 <= j < i ==> MarkedOrVoid(Y, t.params[j].typ)
  }

  lemma {:induction false} ParamsNext(t: BtfType, i: nat, Y: set<nat>, Z: set<nat>)
    requires ParamsVisited(t, i, Y) && i < |t.params| && MarkedOrVoid(Z, t.params[i].typ)
    ensures ParamsVisited(t, i + 1, Y + Z)
  {
  }

  lemma {:induction false} ParamsAll(t: BtfType, followPointers: bool, Y: set<nat>)
    requires t.FuncProto? && ParamsVisited(t, |t.params|, Y)
    ensures forall r :: r in Followed(t, followPointers) ==> MarkedOrVoid(Y, r)
  {
  }

  lemma {:induction false} ParamFollowed(b: Btf, followPointers: bool, id: nat, k: nat)
    requires ValidBtf(b) && id < |b| && b[id].FuncProto? && k < |b[id].params|
    ensures b[id].params[k].typ < |b| && b[id].params[k].typ in Followed(b[id], followPointers)
  {
    assert b[id].params[k] in b[id].params && b[id].params[k].typ in AllRefs(b[id]);
  }

  /** In closed marks, nothing btfgen_mark_type reaches without following pointers is missing. */
  lemma {:induction false} ClosedAbsorbs(b: Btf, m: set<nat>, mm: set<(nat, nat)>)
    requires Closed(b, m, mm)
    ensures Absorbs(b, false, m)
  {
    forall i, r | i in m && 0 < i < |b| && r in Followed(b[i], false) ensures MarkedOrVoid(m, r) {
      assert ClosedAt(b, m, i) && r in Refs(b[i]);
    }
  }

  lemma {:induction false} DoneAbsorbs(b: Btf, followPointers: bool, Y: set<nat>)
    requires Done(b, followPointers, Y)
    ensures Absorbs(b, followPointers, Y)
  {
    forall i, r | i in Y && 0 < i < |b| && r in Followed(b[i], followPointers) ensures MarkedOrVoid(Y, r) {
      assert DoneAt(b, Y, i, followPointers);
    }
  }

  /** The recursion of btfgen_mark_type is well-founded: C has no cyclic type without a struct. */
  ghost predicate Ranked(b: Btf, followPointers: bool, rank: seq<nat>) {
    && |rank| == |b|
    && forall i, r :: 0 < i < |b| && r in Followed(b[i], followPointers) && 0 < r < |b| ==> rank[r] < rank[i]
  }

  /** One rank serves both forms of the recursion. */
  lemma {:induction false} RankedPlain(b: Btf, rank: seq<nat>)
    requires Ranked(b, true, rank)
    ensures Ranked(b, false, rank)
  {
    forall i, r | 0 < i < |b| && r in Followed(b[i], false) && 0 < r < |b| ensures rank[r] < rank[i] {
      assert r in Followed(b[i], true);
    }
  }

  // ---------------------------------------------------------------- marking for a type match

  /** The calls btfgen_mark_type_match makes from type t: a type id and the new `behind_ptr`. */
  function FollowedMatch(t: BtfType, behindPtr: bool): set<(nat, bool)> {
    match t
    case Composite(_, _, _, ms) => if behindPtr then {} else set m | m in ms :: (m.typ, false)
    case Mod(_, _, r) => {(r, behindPtr)}
    case Fwd(_, r) => {(r, behindPtr)}
    case Ptr(r) => {(r, true)}
    case Array(e, i, _) => {(e, false), (i, false)}
    case FuncProto(ret, ps) => {(ret, false)} + set p | p in ps :: (p.typ, false)
    case _ => {}
  }

  /** The same calls in the order they are made, for types other than composites. */
  function Calls(t: BtfType, behindPtr: bool): seq<(nat, bool)> {
    match t
    case Mod(_, _, r) => [(r, behindPtr)]
    case Fwd(_, r) => [(r, behindPtr)]
    case Ptr(r) => [(r, true)]
    case Array(e, i, _) => [(e, false), (i, false)]
    case FuncProto(ret, ps) => [(ret, false)] + seq(|ps|, i requires 0 <= i < |ps| => (ps[i].typ, false))
    case _ => []
  }

  lemma {:induction false} CallFollowed(b: Btf, id: nat, behindPtr: bool, i: nat)
    requires ValidBtf(b) && id < |b| && i < |Calls(b[id], behindPtr)|
    ensures var c := Calls(b[id], behindPtr)[i]; c.0 < |b| && c in FollowedMatch(b[id], behindPtr)
  {
    var t, c := b[id], Calls(b[id], behindPtr)[i];
    assert t.FuncProto? && i > 0 ==> t.params[i - 1] in t.params;
    assert c.0 in AllRefs(t);
  }

  function RankAt(rank: seq<(nat, nat)>, id: nat, behindPtr: bool): nat
    requires id < |rank|
  {
    if id == 0 then 0 else 1 + if behindPtr then rank[id].1 else rank[id].0
  }

  /** The recursion of btfgen_mark_type_match is well-founded. */
  ghost predicate RankedMatch(b: Btf, rank: seq<(nat, nat)>) {
    && |rank| == |b|
    && forall i, p, c :: 0 < i < |b| && c in FollowedMatch(b[i], p) && 0 < c.0 < |b|
                         ==> RankAt(rank, c.0, c.1) < RankAt(rank, i, p)
  }

  /** X contains every call that btfgen_mark_type_match makes from its own elements. */
  ghost predicate AbsorbsMatch(b: Btf, X: set<(nat, bool)>) {
    forall c, d :: c in X && 0 < c.0 < |b| && d in FollowedMatch(b[c.0], c.1) ==> d.0 == 0 || d in X
  }

  /** X is a set of calls that have been carried out in full: their types are marked, the members of composites
      not behind a pointer too, and the further calls they ask for are in X. */
  ghost predicate Explored(b: Btf, X: set<(nat, bool)>, m: set<nat>, mm: set<(nat, nat)>) {
    AbsorbsMatch(b, X) && forall c :: c in X ==> CarriedOut(b, c, m, mm)
  }

  ghost predicate CarriedOut(b: Btf, c: (nat, bool), m: set<nat>, mm: set<(nat, nat)>) {
    && 0 < c.0 < |b| && c.0 in m && !b[c.0].Unsupported?
    && (b[c.0].Composite? && !c.1 ==> forall k :: 0 <= k < |b[c.0].members| ==> (c.0, k) in mm)
  }

  lemma {:induction false} ExploredUnion(b: Btf, X: set<(nat, bool)>, m0: set<nat>, mm0: set<(nat, nat)>,
                                         Y: set<(nat, bool)>, m: set<nat>, mm: set<(nat, nat)>)
    requires Explored(b, X, m0, mm0) && Explored(b, Y, m, mm) && m0 <= m && mm0 <= mm
    ensures Explored(b, X + Y, m, mm)
  {
    forall c | c in X ensures CarriedOut(b, c, m, mm) {
      assert CarriedOut(b, c, m0, mm0);
    }
  }

  lemma {:induction false} ExploredAdd(b: Btf, X: set<(nat, bool)>, c: (nat, bool), m: set<nat>, mm: set<(nat, nat)>)
    requires Explored(b, X, m, mm) && CarriedOut(b, c, m, mm)
    requires forall d :: d in FollowedMatch(b[c.0], c.1) ==> d.0 == 0 || d in X
    ensures Explored(b, X + {c}, m, mm)
  {
  }

  /** Every call a non-composite type asks for is in its list of calls. */
  lemma {:induction false} FollowedIsCall(t: BtfType, behindPtr: bool, d: (nat, bool))
    requires !t.Composite? && d in FollowedMatch(t, behindPtr)
    ensures d in Calls(t, behindPtr)
  {
    if t.FuncProto? && d != (t.ret, false) {
      var p :| p in t.params && d == (p.typ, false);
      var k :| 0 <= k < |t.params| && t.params[k] == p;
      assert Calls(t, behindPtr)[k + 1] == d;
    } else {
      assert d == Calls(t, behindPtr)[0] || d == Calls(t, behindPtr)[1];
    }
  }

  /** Marks m, mm beyond m0, mm0 are all justified by calls in X. */
  ghost predicate MarksWithin(m0: set<nat>, mm0: set<(nat, nat)>, m: set<nat>, mm: set<(nat, nat)>,
                              X: set<(nat, bool)>) {
    && (forall i :: i in m ==> i in m0 || (i, false) in X || (i, true) in X)
    && (forall i, k :: (i, k) in mm ==> (i, k) in mm0 || (i, false) in X)
  }

  /** The marks added while handling call c are needed: any set of calls that contains c and is closed under
      making further calls justifies them. */
  ghost predicate Justified(b: Btf, c: (nat, bool), m0: set<nat>, mm0: set<(nat, nat)>,
                            m: set<nat>, mm: set<(nat, nat)>) {
    forall X :: AbsorbsMatch(b, X) && (c.0 == 0 || c in X) ==> MarksWithin(m0, mm0, m, mm, X)
  }

  /** Marks justified up to a further call, and then by that call, are justified. */
  lemma {:induction false} JustifiedCall(b: Btf, c: (nat, bool), d: (nat, bool), m0: set<nat>, mm0: set<(nat, nat)>,
                                         m1: set<nat>, mm1: set<(nat, nat)>, m: set<nat>, mm: set<(nat, nat)>)
    requires 0 < c.0 < |b| && d in FollowedMatch(b[c.0], c.1)
    requires Justified(b, c, m0, mm0, m1, mm1) && Justified(b, d, m1, mm1, m, mm)
    ensures Justified(b, c, m0, mm0, m, mm)
  {
    forall X | AbsorbsMatch(b, X) && c in X ensures MarksWithin(m0, mm0, m, mm, X) {
      assert MarksWithin(m0, mm0, m1, mm1, X) && MarksWithin(m1, mm1, m, mm, X);
    }
  }

  /** The mark on the type itself is justified by the call for it. */
  lemma {:induction false} JustifiedSelf(b: Btf, c: (nat, bool), m0: set<nat>, mm0: set<(nat, nat)>, m: set<nat>,
                                         mm: set<(nat, nat)>)
    requires c.0 != 0 && Justified(b, c, m0 + {c.0}, mm0, m, mm)
    ensures Justified(b, c, m0, mm0, m, mm)
  {
    forall X | AbsorbsMatch(b, X) && c in X ensures MarksWithin(m0, mm0, m, mm, X) {
      assert MarksWithin(m0 + {c.0}, mm0, m, mm, X);
    }
  }

  /** Marks justified by a call are within any marks under which the call has been carried out. */
  lemma {:induction false} JustifiedBound(b: Btf, c: (nat, bool), m0: set<nat>, mm0: set<(nat, nat)>, m: set<nat>,
                                          mm: set<(nat, nat)>, C: set<(nat, bool)>, X: set<nat>, XM: set<(nat, nat)>)
    requires Justified(b, c, m0, mm0, m, mm) && Closed(b, m, mm)
    requires Explored(b, C, X, XM) && (c.0 == 0 || c in C)
    ensures m <= m0 + X && mm <= mm0 + XM
  {
    assert MarksWithin(m0, mm0, m, mm, C);
    forall i | i in m && i !in m0 ensures i in X {
      assert CarriedOut(b, (i, false), X, XM) || CarriedOut(b, (i, true), X, XM);
    }
    forall p | p in mm && p !in mm0 ensures p in XM {
      assert p == (p.0, p.1) && MemberClosed(b, m, p.0, p.1) && CarriedOut(b, (p.0, false), X, XM);
    }
  }

  /** Marks m, mm added to m0, mm0 are closed. */
  ghost predicate ClosedBeyond(b: Btf, m0: set<nat>, mm0: set<(nat, nat)>, m: set<nat>, mm: set<(nat, nat)>, id: nat) {
    && (forall i :: i in m && i < |b| && (i !in m0 || i == id) ==> ClosedAt(b, m, i))
    && (forall i, k :: (i, k) in mm && (i, k) !in mm0 ==> MemberClosed(b, m, i, k))
  }

  ghost predicate Grows(b: Btf, m0: set<nat>, mm0: set<(nat, nat)>, m: set<nat>, mm: set<(nat, nat)>) {
    m0 <= m && mm0 <= mm && forall i :: i in m ==> 0 < i < |b|
  }

  lemma {:induction false} ClosedBeyondTrans(b: Btf, m0: set<nat>, mm0: set<(nat, nat)>, m1: set<nat>,
                                             mm1: set<(nat, nat)>, m: set<nat>, mm: set<(nat, nat)>, id: nat)
    requires Grows(b, m0, mm0, m1, mm1) && Grows(b, m1, mm1, m, mm)
    requires ClosedBeyond(b, m0, mm0, m1, mm1, 0) && ClosedBeyond(b, m1, mm1, m, mm, id)
    ensures ClosedBeyond(b, m0, mm0, m, mm, 0)
  {
    forall i | i in m && i < |b| && i !in m0 ensures ClosedAt(b, m, i) {
      if i in m1 { assert ClosedAt(b, m1, i); }
    }
    forall i, k | (i, k) in mm && (i, k) !in mm0 ensures MemberClosed(b, m, i, k) {
      if (i, k) in mm1 { assert MemberClosed(b, m1, i, k); }
    }
  }

  /** The state of marking on behalf of call c, from m0, mm0 to m, mm, with the calls X carried out so far. */
  ghost predicate Marking(b: Btf, c: (nat, bool), m0: set<nat>, mm0: set<(nat, nat)>, m: set<nat>, mm: set<(nat, nat)>,
                          X: set<(nat, bool)>, done: nat) {
    && Grows(b, m0, mm0, m, mm) && ClosedBeyond(b, m0, mm0, m, mm, done)
    && Justified(b, c, m0, mm0, m, mm) && Explored(b, X, m, mm)
  }

  /** One more call d made on behalf of c. */
  lemma {:induction false} CallStep(b: Btf, c: (nat, bool), d: (nat, bool), m0: set<nat>, mm0: set<(nat, nat)>,
                                    m1: set<nat>, mm1: set<(nat, nat)>, X: set<(nat, bool)>,
                                    m: set<nat>, mm: set<(nat, nat)>, Y: set<(nat, bool)>)
    requires 0 < c.0 < |b| && d in FollowedMatch(b[c.0], c.1)
    requires Marking(b, c, m0, mm0, m1, mm1, X, 0) && Marking(b, d, m1, mm1, m, mm, Y, d.0)
    ensures Marking(b, c, m0, mm0, m, mm, X + Y, 0)
  {
    JustifiedCall(b, c, d, m0, mm0, m1, mm1, m, mm);
    ClosedBeyondTrans(b, m0, mm0, m1, mm1, m, mm, d.0);
    ExploredUnion(b, X, m1, mm1, Y, m, mm);
  }

  /** The mark on member k of a composite is justified by the call for that composite. */
  lemma {:induction false} JustifiedMember(b: Btf, id: nat, k: nat, m0: set<nat>, mm0: set<(nat, nat)>, m: set<nat>,
                                           mm: set<(nat, nat)>)
    requires id != 0 && Justified(b, (id, false), m0, mm0, m, mm)
    ensures Justified(b, (id, false), m0, mm0, m, mm + {(id, k)})
  {
    forall X | AbsorbsMatch(b, X) && (id, false) in X ensures MarksWithin(m0, mm0, m, mm + {(id, k)}, X) {
      assert MarksWithin(m0, mm0, m, mm, X);
    }
  }

  /** One more member: it is marked, and then its type. */
  lemma {:induction false} MemberStep(b: Btf, id: nat, k: nat, m0: set<nat>, mm0: set<(nat, nat)>, m1: set<nat>,
                                      mm1: set<(nat, nat)>, X: set<(nat, bool)>, m: set<nat>, mm: set<(nat, nat)>,
                                      Y: set<(nat, bool)>)
    requires 0 < id < |b| && id in m0 && b[id].Composite? && k < |b[id].members| && b[id].members[k] in b[id].members
    requires Marking(b, (id, false), m0, mm0, m1, mm1, X, id) && MarkedOrVoid(m, b[id].members[k].typ)
    requires Marking(b, (b[id].members[k].typ, false), m1, mm1 + {(id, k)}, m, mm, Y, b[id].members[k].typ)
    ensures Marking(b, (id, false), m0, mm0, m, mm, X + Y, id)
  {
    var typ := b[id].members[k].typ;
    JustifiedMember(b, id, k, m0, mm0, m1, mm1);
    JustifiedCall(b, (id, false), (typ, false), m0, mm0, m1, mm1 + {(id, k)}, m, mm);
    ExploredUnion(b, X, m1, mm1, Y, m, mm);
    forall i | i in m && i < |b| && (i !in m0 || i == id) ensures ClosedAt(b, m, i) {
      if i in m1 { assert ClosedAt(b, m1, i); }
    }
    forall i, j | (i, j) in mm && (i, j) !in mm0 ensures MemberClosed(b, m, i, j) {
      if (i, j) in mm1 { assert MemberClosed(b, m1, i, j); }
    }
  }

  /** The calls for type id are carried out: so is the call for id itself. */
  lemma {:induction false} MatchDone(b: Btf, id: nat, behindPtr: bool, m0: set<nat>, mm0: set<(nat, nat)>,
                                     m: set<nat>, mm: set<(nat, nat)>, X: set<(nat, bool)>)
    requires 0 < id < |b| && !b[id].Unsupported? && Explored(b, X, m, mm)
    requires Grows(b, m0 + {id}, mm0, m, mm) && ClosedBeyond(b, m0 + {id}, mm0, m, mm, id)
    requires forall d :: d in FollowedMatch(b[id], behindPtr) ==> d.0 == 0 || d in X
    requires b[id].Composite? && !behindPtr ==> forall k :: 0 <= k < |b[id].members| ==> (id, k) in mm
    ensures Explored(b, X + {(id, behindPtr)}, m, mm) && ClosedBeyond(b, m0, mm0, m, mm, id)
  {
    ExploredAdd(b, X, (id, behindPtr), m, mm);
  }

  /** The first i calls of the list are carried out. */
  ghost predicate Called(calls: seq<(nat, bool)>, i: nat, m: set<nat>, X: set<(nat, bool)>) {
    i <= |calls| && forall j :: 0 <= j < i ==> calls[j].0 == 0 || (calls[j].0 in m && calls[j] in X)
  }

  lemma {:induction false} CalledNext(calls: seq<(nat, bool)>, i: nat, m1: set<nat>, X: set<(nat, bool)>, m: set<nat>,
                                      Y: set<(nat, bool)>)
    requires Called(calls, i, m1, X) && m1 <= m && i < |calls|
    requires calls[i].0 == 0 || (calls[i].0 in m && calls[i] in Y)
    ensures Called(calls, i + 1, m, X + Y)
  {
  }

  /** A type all of whose calls are carried out is closed, and X holds what it asks for. */
  lemma {:induction false} CallsClose(b: Btf, m: set<nat>, id: nat, behindPtr: bool, X: set<(nat, bool)>)
    requires ValidBtf(b) && id < |b| && !b[id].Unsupported? && !b[id].Composite?
    requires Called(Calls(b[id], behindPtr), |Calls(b[id], behindPtr)|, m, X)
    ensures ClosedAt(b, m, id)
    ensures forall d :: d in FollowedMatch(b[id], behindPtr) ==> d.0 == 0 || d in X
  {
    var t, cs := b[id], Calls(b[id], behindPtr);
    forall r | r in Refs(t) ensures MarkedOrVoid(m, r) {
      if t.FuncProto? && r != t.ret {
        var p :| p in t.params && p.typ == r;
        var k :| 0 <= k < |t.params| && t.params[k] == p;
        assert cs[k + 1].0 == r;
      } else {
        assert cs[0].0 == r || cs[1].0 == r;
      }
    }
    forall d | d in FollowedMatch(t, behindPtr) ensures d.0 == 0 || d in X {
      FollowedIsCall(t, behindPtr, d);
    }
  }

  /** The first k members of composite id are marked, and the calls for their types carried out. */
  ghost predicate MembersCalled(ms: seq<Member>, id: nat, k: nat, mm: set<(nat, nat)>, X: set<(nat, bool)>) {
    k <= |ms| && forall j :: 0 <= j < k ==> (id, j) in mm && (ms[j].typ == 0 || (ms[j].typ, false) in X)
  }

  lemma {:induction false} MembersNext(ms: seq<Member>, id: nat, k: nat, mm1: set<(nat, nat)>, X: set<(nat, bool)>,
                                       mm: set<(nat, nat)>, Y: set<(nat, bool)>)
    requires MembersCalled(ms, id, k, mm1, X) && k < |ms| && mm1 + {(id, k)} <= mm
    requires ms[k].typ == 0 || (ms[k].typ, false) in Y
    ensures MembersCalled(ms, id, k + 1, mm, X + Y)
  {
  }

  lemma {:induction false} MembersClose(t: BtfType, id: nat, mm: set<(nat, nat)>, X: set<(nat, bool)>)
    requires t.Composite? && MembersCalled(t.members, id, |t.members|, mm, X)
    ensures forall d :: d in FollowedMatch(t, false) ==> d.0 == 0 || d in X
    ensures forall k :: 0 <= k < |t.members| ==> (id, k) in mm
  {
    forall d | d in FollowedMatch(t, false) ensures d.0 == 0 || d in X {
      var x :| x in t.members && d == (x.typ, false);
      var k :| 0 <= k < |t.members| && t.members[k] == x;
    }
  }

  /** Types dealt with in full may be added to closed marks. */
  lemma {:induction false} DoneCloses(b: Btf, followPointers: bool, m: set<nat>, mm: set<(nat, nat)>, Y: set<nat>)
    requires Closed(b, m, mm) && Done(b, followPointers, Y)
    ensures Closed(b, m + Y, mm)
  {
    forall i | i in m + Y ensures 0 < i < |b| && ClosedAt(b, m + Y, i) {
      assert if i in m then ClosedAt(b, m, i) else DoneAt(b, Y, i, followPointers);
    }
    forall i, k | (i, k) in mm ensures MemberClosed(b, m + Y, i, k) {
      assert MemberClosed(b, m, i, k);
    }
  }

  /** So may a member of a marked composite whose type is marked. */
  lemma {:induction false} MemberCloses(b: Btf, m: set<nat>, mm: set<(nat, nat)>, id: nat, k: nat)
    requires Closed(b, m, mm) && MemberClosed(b, m, id, k)
    ensures Closed(b, m, mm + {(id, k)})
  {
  }

  /** Adding closed marks to closed marks leaves them closed. */
  lemma {:induction false} ClosedStep(b: Btf, m0: set<nat>, mm0: set<(nat, nat)>, m: set<nat>, mm: set<(nat, nat)>,
                                      id: nat)
    requires Closed(b, m0, mm0) && Grows(b, m0, mm0, m, mm) && ClosedBeyond(b, m0, mm0, m, mm, id)
    ensures Closed(b, m, mm)
  {
    forall i | i in m ensures 0 < i < |b| && ClosedAt(b, m, i) {
      if i in m0 { assert ClosedAt(b, m0, i); }
    }
    forall i, k | (i, k) in mm ensures MemberClosed(b, m, i, k) {
      if (i, k) in mm0 { assert MemberClosed(b, m0, i, k); }
    }
  }

  // ---------------------------------------------------------------- field access paths

  /** The type behind typedefs and qualifiers. */
  function SkipMods(b: Btf, rank: seq<nat>, id: nat): (r: nat)
    requires ValidBtf(b) && Ranked(b, false, rank) && id < |b|
    ensures r < |b| && !b[r].Mod?
    decreases if id == 0 then 0 else rank[id] + 1
  {
    if b[id].Mod? then
      assert b[id].target in AllRefs(b[id]) && b[id].target in Followed(b[id], false);
      SkipMods(b, rank, b[id].target)
    else id
  }

  datatype Access = NoAccess | Access(typ: nat, fields: seq<(string, nat, nat)>)

  /** Where an access path leads: the final type, and name, bit offset and bit size of every member on the way. */
  function Follow(b: Btf, rank: seq<nat>, id: nat, path: seq<nat>): (r: Access)
    requires ValidBtf(b) && Ranked(b, false, rank) && id < |b|
    ensures r.Access? ==> r.typ < |b|
    decreases |path|
  {
    if path == [] then Access(id, [])
    else
      var t := b[SkipMods(b, rank, id)];
      if t.Composite? && path[0] < |t.members| then
        var m := t.members[path[0]];
        assert m in t.members && m.typ in AllRefs(t);
        match Follow(b, rank, m.typ, path[1..])
        case NoAccess => NoAccess
        case Access(typ, fields) => Access(typ, [(m.name, m.bitOffset, m.bitSize)] + fields)
      else if t.Array? then
        assert t.elem in AllRefs(t);
        Follow(b, rank, t.elem, path[1..])
      else NoAccess
  }

  /** A target spec never indexes past the members of a type it passes. */
  ghost predicate InBounds(b: Btf, rank: seq<nat>, id: nat, path: seq<nat>)
    requires ValidBtf(b) && Ranked(b, false, rank) && id < |b|
    decreases |path|
  {
    path == [] ||
    var t := b[SkipMods(b, rank, id)];
    if t.Composite? then
      path[0] < |t.members| && t.members[path[0]] in t.members && t.members[path[0]].typ in AllRefs(t)
      && InBounds(b, rank, t.members[path[0]].typ, path[1..])
    else if t.Array? then t.elem in AllRefs(t) && InBounds(b, rank, t.elem, path[1..])
    else true
  }

  /** Every member on the path is marked. */
  ghost predicate PathMarked(b: Btf, rank: seq<nat>, mm: set<(nat, nat)>, id: nat, path: seq<nat>)
    requires ValidBtf(b) && Ranked(b, false, rank) && id < |b|
    decreases |path|
  {
    path == [] ||
    var s := SkipMods(b, rank, id);
    if b[s].Composite? then
      path[0] < |b[s].members| && (s, path[0]) in mm
      && b[s].members[path[0]] in b[s].members && b[s].members[path[0]].typ in AllRefs(b[s])
      && PathMarked(b, rank, mm, b[s].members[path[0]].typ, path[1..])
    else b[s].Array? && b[s].elem in AllRefs(b[s]) && PathMarked(b, rank, mm, b[s].elem, path[1..])
  }

  /** What one element k of an access path asks for at type s: a member and its type. */
  ghost predicate StepNeeds(b: Btf, s: nat, k: nat, X: set<nat>, XM: set<(nat, nat)>)
    requires s < |b|
  {
    b[s].Composite? && k < |b[s].members| ==> (s, k) in XM && MarkedOrVoid(X, b[s].members[k].typ)
  }

  /** What a whole access path asks for. */
  ghost predicate PathNeeds(b: Btf, rank: seq<nat>, X: set<nat>, XM: set<(nat, nat)>, id: nat, path: seq<nat>)
    requires ValidBtf(b) && Ranked(b, false, rank) && id < |b|
    decreases |path|
  {
    path == [] ||
    var s := SkipMods(b, rank, id);
    StepNeeds(b, s, path[0], X, XM)
    && (Leads(b, s, path[0], true) ==> PathNeeds(b, rank, X, XM, Next(b, s, path[0]), path[1..]))
  }

  /** The path can go on from type s; `inBounds` asks for an existing member. */
  predicate Leads(b: Btf, s: nat, k: nat, inBounds: bool)
    requires s < |b|
  {
    b[s].Array? || (b[s].Composite? && (inBounds ==> k < |b[s].members|))
  }

  /** Where it goes on. */
  function Next(b: Btf, s: nat, k: nat): (r: nat)
    requires ValidBtf(b) && s < |b| && Leads(b, s, k, true)
    ensures r < |b|
  {
    if b[s].Composite? then
      assert b[s].members[k] in b[s].members && b[s].members[k].typ in AllRefs(b[s]);
      b[s].members[k].typ
    else
      assert b[s].elem in AllRefs(b[s]);
      b[s].elem
  }

  /** The path rest from type id, seen from its first step. */
  lemma {:induction false} FirstStep(b: Btf, rank: seq<nat>, id: nat, rest: seq<nat>)
    requires ValidBtf(b) && Ranked(b, false, rank) && id < |b| && rest != [] && InBounds(b, rank, id, rest)
    requires Leads(b, SkipMods(b, rank, id), rest[0], false)
    ensures var s := SkipMods(b, rank, id);
            && Leads(b, s, rest[0], true)
            && (var n := Next(b, s, rest[0]);
                && InBounds(b, rank, n, rest[1..])
                && (Follow(b, rank, n, rest[1..]).NoAccess? ==> Follow(b, rank, id, rest).NoAccess?)
                && (forall mm :: (b[s].Composite? ==> (s, rest[0]) in mm) && PathMarked(b, rank, mm, n, rest[1..])
                                 ==> PathMarked(b, rank, mm, id, rest))
                && (forall X, XM :: PathNeeds(b, rank, X, XM, id, rest)
                                    ==> StepNeeds(b, s, rest[0], X, XM) && PathNeeds(b, rank, X, XM, n, rest[1..])))
  {
  }

  /** Marking more keeps a path marked. */
  lemma {:induction false} PathMarkedMore(b: Btf, rank: seq<nat>, mm: set<(nat, nat)>, more: set<(nat, nat)>,
                                          id: nat, path: seq<nat>)
    requires ValidBtf(b) && Ranked(b, false, rank) && id < |b| && mm <= more && PathMarked(b, rank, mm, id, path)
    ensures PathMarked(b, rank, more, id, path)
    decreases |path|
  {
    if path != [] {
      var s := SkipMods(b, rank, id);
      PathMarkedMore(b, rank, mm, more, if b[s].Composite? then b[s].members[path[0]].typ else b[s].elem, path[1..]);
    }
  }

  /** X and XM hold all that the access path from root asks for. */
  ghost predicate Enough(b: Btf, rank: seq<nat>, X: set<nat>, XM: set<(nat, nat)>, root: nat, path: seq<nat>)
    requires ValidBtf(b) && Ranked(b, false, rank) && root < |b|
  {
    Absorbs(b, false, X) && MarkedOrVoid(X, root) && PathNeeds(b, rank, X, XM, root, path)
  }

  /** Closed marks with a marked path hold all that the path asks for. */
  lemma {:induction false} MarkedIsNeeded(b: Btf, rank: seq<nat>, m: set<nat>, mm: set<(nat, nat)>, id: nat,
                                          path: seq<nat>)
    requires ValidBtf(b) && Ranked(b, false, rank) && id < |b| && Closed(b, m, mm) && PathMarked(b, rank, mm, id, path)
    ensures PathNeeds(b, rank, m, mm, id, path)
    decreases |path|
  {
    if path != [] {
      var s := SkipMods(b, rank, id);
      if b[s].Composite? { assert MemberClosed(b, m, s, path[0]); }
      MarkedIsNeeded(b, rank, m, mm, Next(b, s, path[0]), path[1..]);
    }
  }

  /** More member marks do not take away what a path asks for. */
  lemma {:induction false} NeedsMore(b: Btf, rank: seq<nat>, X: set<nat>, XM: set<(nat, nat)>, more: set<(nat, nat)>,
                                     id: nat, path: seq<nat>)
    requires ValidBtf(b) && Ranked(b, false, rank) && id < |b| && XM <= more && PathNeeds(b, rank, X, XM, id, path)
    ensures PathNeeds(b, rank, X, more, id, path)
    decreases |path|
  {
    if path != [] && Leads(b, SkipMods(b, rank, id), path[0], true) {
      NeedsMore(b, rank, X, XM, more, Next(b, SkipMods(b, rank, id), path[0]), path[1..]);
    }
  }

  // ---------------------------------------------------------------- relocations

  /** What a target spec asks to be recorded, by kind of relocation. */
  datatype Relo =
    | FieldRelo(root: nat, path: seq<nat>)
    | TypeRelo(root: nat)
    | EnumvalRelo(root: nat)
    | MatchRelo(root: nat)
    | LocalRelo
    | UnknownRelo

  ghost predicate ReloFits(b: Btf, rank: seq<nat>, relo: Relo)
    requires ValidBtf(b) && Ranked(b, true, rank)
  {
    RankedPlain(b, rank);
    match relo
    case FieldRelo(root, path) => root < |b| && InBounds(b, rank, root, path)
    case TypeRelo(root) => root < |b|
    case EnumvalRelo(root) => root < |b|
    case MatchRelo(root) => root < |b|
    case _ => true
  }

  /** The marks hold what the relocation needs: a field relocation its path, its root and what they refer to; a type
      or enum value relocation its root and all that is reached from it, the first through pointers too; a type
      match every call that starts from its root. */
  ghost predicate Recorded(b: Btf, rank: seq<nat>, relo: Relo, m: set<nat>, mm: set<(nat, nat)>)
    requires ValidBtf(b) && Ranked(b, true, rank) && ReloFits(b, rank, relo)
  {
    RankedPlain(b, rank);
    match relo
    case FieldRelo(root, path) =>
      PathMarked(b, rank, mm, root, path) && exists Y :: Y <= m && Enough(b, rank, Y, mm, root, path)
    case TypeRelo(root) => exists Y :: Y <= m && Absorbs(b, true, Y) && MarkedOrVoid(Y, root)
    case EnumvalRelo(root) => exists Y :: Y <= m && Absorbs(b, false, Y) && MarkedOrVoid(Y, root)
    case MatchRelo(root) => exists C :: Explored(b, C, m, mm) && (root == 0 || (root, false) in C)
    case LocalRelo => true
    case UnknownRelo => false
  }

  /** Why recording the relocation failed: a marked type of a rejected kind, a path that leads nowhere, or an
      unknown kind of relocation. */
  ghost predicate FailsOn(b: Btf, rank: seq<nat>, relo: Relo, m: set<nat>)
    requires ValidBtf(b) && Ranked(b, true, rank) && ReloFits(b, rank, relo)
  {
    RankedPlain(b, rank);
    match relo
    case FieldRelo(root, path) => HasRejected(b, m) || Follow(b, rank, root, path).NoAccess?
    case TypeRelo(_) => HasRejected(b, m)
    case EnumvalRelo(_) => HasRejected(b, m)
    case MatchRelo(_) => HasUnsupported(b, m)
    case LocalRelo => false
    case UnknownRelo => true
  }

  ghost predicate SomeFails(b: Btf, rank: seq<nat>, relos: seq<Relo>, m: set<nat>)
    requires ValidBtf(b) && Ranked(b, true, rank) && AllFit(b, rank, relos)
  {
    exists j :: 0 <= j < |relos| && FailsOn(b, rank, relos[j], m)
  }

  ghost predicate AllFit(b: Btf, rank: seq<nat>, relos: seq<Relo>)
    requires ValidBtf(b) && Ranked(b, true, rank)
  {
    forall j :: 0 <= j < |relos| ==> ReloFits(b, rank, relos[j])
  }

  /** The first n relocations are recorded. */
  ghost predicate AllRecorded(b: Btf, rank: seq<nat>, relos: seq<Relo>, n: nat, m: set<nat>, mm: set<(nat, nat)>)
    requires ValidBtf(b) && Ranked(b, true, rank) && AllFit(b, rank, relos) && n <= |relos|
  {
    n == 0 || (AllRecorded(b, rank, relos, n - 1, m, mm) && Recorded(b, rank, relos[n - 1], m, mm))
  }

  /** Marks beyond m0, mm0 are in any marks under which the relocation is recorded. */
  ghost predicate Needed(b: Btf, rank: seq<nat>, relo: Relo, m0: set<nat>, mm0: set<(nat, nat)>, m: set<nat>,
                         mm: set<(nat, nat)>)
    requires ValidBtf(b) && Ranked(b, true, rank) && ReloFits(b, rank, relo)
  {
    forall X, XM :: Recorded(b, rank, relo, X, XM) ==> m <= m0 + X && mm <= mm0 + XM
  }

  /** Marks beyond m0, mm0 are in any marks under which the first n relocations are recorded. */
  ghost predicate Least(b: Btf, rank: seq<nat>, relos: seq<Relo>, n: nat, m0: set<nat>, mm0: set<(nat, nat)>,
                        m: set<nat>, mm: set<(nat, nat)>)
    requires ValidBtf(b) && Ranked(b, true, rank) && AllFit(b, rank, relos) && n <= |relos|
  {
    forall X, XM :: AllRecorded(b, rank, relos, n, X, XM) ==> m <= m0 + X && mm <= mm0 + XM
  }

  /** From closed marks m0, mm0 to m, mm, with the first n relocations recorded and nothing else marked. */
  ghost predicate Recording(b: Btf, rank: seq<nat>, relos: seq<Relo>, n: nat, m0: set<nat>, mm0: set<(nat, nat)>,
                            m: set<nat>, mm: set<(nat, nat)>)
    requires ValidBtf(b) && Ranked(b, true, rank) && AllFit(b, rank, relos) && n <= |relos|
  {
    && Closed(b, m, mm) && AllRecorded(b, rank, relos, n, m, mm)
    && Least(b, rank, relos, n, m0, mm0, m, mm)
  }

  lemma {:induction false} LeastNext(b: Btf, rank: seq<nat>, relos: seq<Relo>, i: nat, m0: set<nat>,
                                     mm0: set<(nat, nat)>, m1: set<nat>, mm1: set<(nat, nat)>, m: set<nat>,
                                     mm: set<(nat, nat)>)
    requires ValidBtf(b) && Ranked(b, true, rank) && AllFit(b, rank, relos) && i < |relos|
    requires Least(b, rank, relos, i, m0, mm0, m1, mm1) && Needed(b, rank, relos[i], m1, mm1, m, mm)
    ensures Least(b, rank, relos, i + 1, m0, mm0, m, mm)
  {
    var n := i + 1;
    forall X, XM | AllRecorded(b, rank, relos, n, X, XM) ensures m <= m0 + X && mm <= mm0 + XM {
      assert AllRecorded(b, rank, relos, i, X, XM) && Recorded(b, rank, relos[i], X, XM);
    }
  }

  /** Later marking does not undo what was recorded. */
  lemma {:induction false} RecordedMore(b: Btf, rank: seq<nat>, relo: Relo, m: set<nat>, mm: set<(nat, nat)>,
                                        m': set<nat>, mm': set<(nat, nat)>)
    requires ValidBtf(b) && Ranked(b, true, rank) && ReloFits(b, rank, relo)
    requires Recorded(b, rank, relo, m, mm) && m <= m' && mm <= mm'
    ensures Recorded(b, rank, relo, m', mm')
  {
    RankedPlain(b, rank);
    match relo
    case FieldRelo(root, path) =>
      PathMarkedMore(b, rank, mm, mm', root, path);
      var Y :| Y <= m && Enough(b, rank, Y, mm, root, path);
      NeedsMore(b, rank, Y, mm, mm', root, path);
      assert Y <= m' && Enough(b, rank, Y, mm', root, path);
    case MatchRelo(root) =>
      var C :| Explored(b, C, m, mm) && (root == 0 || (root, false) in C);
      ExploredMore(b, C, m, mm, m', mm');
    case _ =>
  }

  lemma {:induction false} AllRecordedMore(b: Btf, rank: seq<nat>, relos: seq<Relo>, n: nat, m: set<nat>,
                                           mm: set<(nat, nat)>, m': set<nat>, mm': set<(nat, nat)>)
    requires ValidBtf(b) && Ranked(b, true, rank) && AllFit(b, rank, relos) && n <= |relos|
    requires AllRecorded(b, rank, relos, n, m, mm) && m <= m' && mm <= mm'
    ensures AllRecorded(b, rank, relos, n, m', mm')
  {
    if n > 0 {
      AllRecordedMore(b, rank, relos, n - 1, m, mm, m', mm');
      RecordedMore(b, rank, relos[n - 1], m, mm, m', mm');
    }
  }

  /** Each of them is recorded. */
  lemma {:induction false} AllRecordedAt(b: Btf, rank: seq<nat>, relos: seq<Relo>, n: nat, m: set<nat>,
                                         mm: set<(nat, nat)>, j: nat)
    requires ValidBtf(b) && Ranked(b, true, rank) && AllFit(b, rank, relos) && j < n <= |relos|
    requires AllRecorded(b, rank, relos, n, m, mm)
    ensures Recorded(b, rank, relos[j], m, mm)
  {
    if j < n - 1 { AllRecordedAt(b, rank, relos, n - 1, m, mm, j); }
  }

  lemma {:induction false} ExploredMore(b: Btf, X: set<(nat, bool)>, m: set<nat>, mm: set<(nat, nat)>, m': set<nat>,
                                        mm': set<(nat, nat)>)
    requires Explored(b, X, m, mm) && m <= m' && mm <= mm'
    ensures Explored(b, X, m', mm')
  {
    forall c | c in X ensures CarriedOut(b, c, m', mm') {
      assert CarriedOut(b, c, m, mm);
    }
  }

  /** In closed marks, skipping modifiers stays on marked types. */
  lemma {:induction false} SkipModsMarked(b: Btf, rank: seq<nat>, m: set<nat>, mm: set<(nat, nat)>, id: nat)
    requires ValidBtf(b) && Ranked(b, false, rank) && id < |b| && Closed(b, m, mm) && MarkedOrVoid(m, id)
    ensures MarkedOrVoid(m, SkipMods(b, rank, id))
    decreases if id == 0 then 0 else rank[id] + 1
  {
    if b[id].Mod? {
      var r := b[id].target;
      assert r in AllRefs(b[id]) && r in Followed(b[id], false) && r in Refs(b[id]);
      SkipModsMarked(b, rank, m, mm, r);
    }
  }

  class Marker {
    const src: Btf
    var marked: set<nat>
    var members: set<(nat, nat)>

    constructor (b: Btf)
      ensures src == b && marked == {} && members == {}
    {
      src, marked, members := b, {}, {};
    }

    /** btfgen_mark_type.  Y are the types it visits: on success the least set that holds the type and all that is
        reached from it, and in any case nothing that a set closed under the followed references could do without. */
    method MarkType(id: nat, followPointers: bool, ghost rank: seq<nat>) returns (ok: bool, ghost Y: set<nat>)
      requires ValidBtf(src) && id < |src| && Ranked(src, followPointers, rank)
      modifies this`marked
      ensures Visiting(src, followPointers, id, old(marked), marked, Y, ok)
      ensures ok ==> MarkedOrVoid(Y, id)
      decreases if id == 0 then 0 else rank[id] + 1, 1
    {
      Y := {};
      if id == 0 { return true, {}; }
      marked := marked + {id};
      match src[id] {
        case Plain(_, _) => ok := true;
        case Composite(_, _, _, _) => ok := true;
        case Ptr(r) =>
          ok := true;
          if followPointers {
            assert r in AllRefs(src[id]) && r in Followed(src[id], followPointers);
            ok, Y := MarkType(r, followPointers, rank);
          }
        case Mod(_, _, r) =>
          assert r in AllRefs(src[id]) && r in Followed(src[id], followPointers);
          ok, Y := MarkType(r, followPointers, rank);
        case Array(_, _, _) => ok, Y := MarkArray(id, followPointers, rank);
        case FuncProto(_, _) => ok, Y := MarkProto(id, followPointers, rank);
        case Fwd(_, _) => return false, {id};
        case Unsupported(_) => return false, {id};
      }
      VisitSelf(src, followPointers, id, old(marked), marked, Y, ok);
      Y := Y + {id};
    }

    /** The array case of btfgen_mark_type: element, then index type. */
    method MarkArray(id: nat, followPointers: bool, ghost rank: seq<nat>) returns (ok: bool, ghost Y: set<nat>)
      requires ValidBtf(src) && 0 < id < |src| && Ranked(src, followPointers, rank) && src[id].Array?
      modifies this`marked
      ensures Visiting(src, followPointers, id, old(marked), marked, Y, ok)
      ensures ok ==> forall r :: r in Followed(src[id], followPointers) ==> MarkedOrVoid(Y, r)
      decreases rank[id] + 1, 0
    {
      var e, x := src[id].elem, src[id].index;
      assert e in AllRefs(src[id]) && e in Followed(src[id], followPointers);
      assert x in AllRefs(src[id]) && x in Followed(src[id], followPointers);
      ok, Y := MarkType(e, followPointers, rank);
      VisitFirst(src, followPointers, id, e, old(marked), marked, Y, ok);
      if ok {
        ghost var m1, Z := marked, {};
        ok, Z := MarkType(x, followPointers, rank);
        VisitNext(src, followPointers, id, x, old(marked), m1, Y, marked, Z, ok);
        Y := Y + Z;
      }
    }

    /** The prototype case of btfgen_mark_type: return type, then the loop over the parameters. */
    method MarkProto(id: nat, followPointers: bool, ghost rank: seq<nat>) returns (ok: bool, ghost Y: set<nat>)
      requires ValidBtf(src) && 0 < id < |src| && Ranked(src, followPointers, rank) && src[id].FuncProto?
      modifies this`marked
      ensures Visiting(src, followPointers, id, old(marked), marked, Y, ok)
      ensures ok ==> forall r :: r in Followed(src[id], followPointers) ==> MarkedOrVoid(Y, r)
      decreases rank[id] + 1, 0
    {
      var ret, ps := src[id].ret, src[id].params;
      assert ret in AllRefs(src[id]) && ret in Followed(src[id], followPointers);
      ok, Y := MarkType(ret, followPointers, rank);
      VisitFirst(src, followPointers, id, ret, old(marked), marked, Y, ok);
      if !ok { return; }
      var i := 0;
      while i < |ps|
        invariant ParamsVisited(src[id], i, Y)
        invariant Visiting(src, followPointers, id, old(marked), marked, Y, true)
      {
        ParamFollowed(src, followPointers, id, i);
        ghost var m1, Z := marked, {};
        ok, Z := MarkType(ps[i].typ, followPointers, rank);
        VisitNext(src, followPointers, id, ps[i].typ, old(marked), m1, Y, marked, Z, ok);
        if !ok { return false, Y + Z; }
        ParamsNext(src[id], i, Y, Z);
        Y := Y + Z;
        i := i + 1;
      }
      ParamsAll(src[id], followPointers, Y);
      return true, Y;
    }

    /** btfgen_mark_member */
    method MarkMember(id: nat, k: nat)
      modifies this`members
      ensures members == old(members) + {(id, k)}
    {
      members := members + {(id, k)};
    }

    /** btfgen_mark_type_match */
    method MarkTypeMatch(id: nat, behindPtr: bool, ghost rank: seq<(nat, nat)>)
      returns (ok: bool, ghost X: set<(nat, bool)>)
      requires ValidBtf(src) && id < |src| && RankedMatch(src, rank)
      requires forall i :: i in marked ==> 0 < i < |src|
      modifies this`marked, this`members
      ensures Grows(src, old(marked), old(members), marked, members)
      ensures ok ==> MarkedOrVoid(marked, id) && (id == 0 || (id, behindPtr) in X) && Explored(src, X, marked, members)
      ensures ok ==> ClosedBeyond(src, old(marked), old(members), marked, members, id)
      ensures !ok ==> HasUnsupported(src, marked)
      ensures Justified(src, (id, behindPtr), old(marked), old(members), marked, members)
      decreases RankAt(rank, id, behindPtr), 1
    {
      X := {};
      if id == 0 { return true, {}; }
      ghost var m0, mm0 := marked, members;
      marked := marked + {id};
      match src[id] {
        case Plain(_, _) => ok := true;
        case Composite(_, _, _, _) =>
          if behindPtr {
            ok := true;
          } else {
            ok, X := MarkMatchMembers(id, rank);
          }
        case Unsupported(_) => ok := false;
        case _ => ok, X := MarkMatchCalls(id, behindPtr, rank);
      }
      JustifiedSelf(src, (id, behindPtr), m0, mm0, marked, members);
      if ok {
        MatchDone(src, id, behindPtr, m0, mm0, marked, members, X);
        X := X + {(id, behindPtr)};
      }
    }

    /** The member loop of btfgen_mark_type_match. */
    method MarkMatchMembers(id: nat, ghost rank: seq<(nat, nat)>) returns (ok: bool, ghost X: set<(nat, bool)>)
      requires ValidBtf(src) && 0 < id < |src| && RankedMatch(src, rank)
      requires src[id].Composite? && id in marked && forall i :: i in marked ==> 0 < i < |src|
      modifies this`marked, this`members
      ensures Grows(src, old(marked), old(members), marked, members)
      ensures ok ==> ClosedBeyond(src, old(marked), old(members), marked, members, id)
      ensures ok ==> forall k :: 0 <= k < |src[id].members| ==> (id, k) in members
      ensures ok ==> Explored(src, X, marked, members)
      ensures ok ==> forall d :: d in FollowedMatch(src[id], false) ==> d.0 == 0 || d in X
      ensures !ok ==> HasUnsupported(src, marked)
      ensures Justified(src, (id, false), old(marked), old(members), marked, members)
      decreases RankAt(rank, id, false), 0
    {
      ghost var m0, mm0 := marked, members;
      X := {};
      var ms := src[id].members;
      var k := 0;
      while k < |ms|
        invariant MembersCalled(ms, id, k, members, X) && Marking(src, (id, false), m0, mm0, marked, members, X, id)
      {
        ghost var m1, mm1 := marked, members;
        MarkMember(id, k);
        assert ms[k].typ in AllRefs(src[id]) && (ms[k].typ, false) in FollowedMatch(src[id], false);
        ghost var Y;
        ok, Y := MarkTypeMatch(ms[k].typ, false, rank);
        if !ok {
          JustifiedMember(src, id, k, m0, mm0, m1, mm1);
          JustifiedCall(src, (id, false), (ms[k].typ, false), m0, mm0, m1, mm1 + {(id, k)}, marked, members);
          return;
        }
        MemberStep(src, id, k, m0, mm0, m1, mm1, X, marked, members, Y);
        MembersNext(ms, id, k, mm1, X, members, Y);
        X := X + Y;
        k := k + 1;
      }
      MembersClose(src[id], id, members, X);
      return true, X;
    }

    /** The recursive calls for types other than composites. */
    method MarkMatchCalls(id: nat, behindPtr: bool, ghost rank: seq<(nat, nat)>)
      returns (ok: bool, ghost X: set<(nat, bool)>)
      requires ValidBtf(src) && 0 < id < |src| && RankedMatch(src, rank)
      requires !src[id].Composite? && !src[id].Unsupported?
      requires id in marked && forall i :: i in marked ==> 0 < i < |src|
      modifies this`marked, this`members
      ensures Grows(src, old(marked), old(members), marked, members)
      ensures ok ==> ClosedBeyond(src, old(marked), old(members), marked, members, id)
      ensures ok ==> Explored(src, X, marked, members)
      ensures ok ==> forall d :: d in FollowedMatch(src[id], behindPtr) ==> d.0 == 0 || d in X
      ensures !ok ==> HasUnsupported(src, marked)
      ensures Justified(src, (id, behindPtr), old(marked), old(members), marked, members)
      decreases RankAt(rank, id, behindPtr), 0
    {
      ghost var m0, mm0 := marked, members;
      X := {};
      var calls := Calls(src[id], behindPtr);
      var i := 0;
      while i < |calls|
        invariant Called(calls, i, marked, X) && Marking(src, (id, behindPtr), m0, mm0, marked, members, X, 0)
      {
        ghost var m1, mm1 := marked, members;
        CallFollowed(src, id, behindPtr, i);
        ghost var Y;
        ok, Y := MarkTypeMatch(calls[i].0, calls[i].1, rank);
        if !ok {
          JustifiedCall(src, (id, behindPtr), calls[i], m0, mm0, m1, mm1, marked, members);
          return;
        }
        CallStep(src, (id, behindPtr), calls[i], m0, mm0, m1, mm1, X, marked, members, Y);
        CalledNext(calls, i, m1, X, marked, Y);
        X := X + Y;
        i := i + 1;
      }
      CallsClose(src, marked, id, behindPtr, X);
      return true, X;
    }

    ghost predicate Valid()
      reads this
    {
      ValidBtf(src) && Closed(src, marked, members)
    }

    /** btfgen_record_type_relo with followPointers, btfgen_record_enumval_relo without. */
    method RecordTypeRelo(id: nat, followPointers: bool, ghost rank: seq<nat>) returns (ok: bool, ghost Y: set<nat>)
      requires Valid() && id < |src| && Ranked(src, followPointers, rank)
      modifies this`marked
      ensures Visiting(src, followPointers, id, old(marked), marked, Y, ok)
      ensures ok ==> Valid() && MarkedOrVoid(Y, id)
    {
      ok, Y := MarkType(id, followPointers, rank);
      if ok { DoneCloses(src, followPointers, old(marked), members, Y); }
    }

    /** btfgen_record_type_match_relo */
    method RecordTypeMatchRelo(id: nat, ghost rank: seq<(nat, nat)>) returns (ok: bool)
      requires Valid() && id < |src| && RankedMatch(src, rank)
      modifies this`marked, this`members
      ensures old(marked) <= marked && old(members) <= members
      ensures if ok then Valid() && MarkedOrVoid(marked, id) else HasUnsupported(src, marked)
      ensures ok ==> exists X :: Explored(src, X, marked, members) && (id == 0 || (id, false) in X)
      ensures Justified(src, (id, false), old(marked), old(members), marked, members)
    {
      ghost var X;
      ok, X := MarkTypeMatch(id, false, rank);
      if ok { ClosedStep(src, old(marked), old(members), marked, members, id); }
    }

    /** btfgen_record_field_relo; `path` is the raw spec without its leading element.  Nothing is marked but what
        the path and the types on it ask for. */
    method RecordFieldRelo(root: nat, path: seq<nat>, ghost rank: seq<nat>) returns (ok: bool)
      requires Valid() && root < |src| && Ranked(src, false, rank) && InBounds(src, rank, root, path)
      modifies this`marked, this`members
      ensures old(marked) <= marked && old(members) <= members
      ensures ok ==> Valid() && MarkedOrVoid(marked, root) && PathMarked(src, rank, members, root, path)
      ensures !ok ==> HasRejected(src, marked) || Follow(src, rank, root, path).NoAccess?
      ensures forall X, XM :: Enough(src, rank, X, XM, root, path) ==>
                                marked <= old(marked) + X && members <= old(members) + XM
    {
      var id: nat := root;
      ghost var Y;
      ok, Y := RecordTypeRelo(id, false, rank);
      if !ok { return; }
      var i := 0;
      while i < |path|
        invariant 0 <= i <= |path| && id < |src| && Valid() && MarkedOrVoid(marked, id) && MarkedOrVoid(marked, root)
        invariant OnPath(src, rank, old(marked), old(members), marked, members, root, path, id, path[i..])
      {
        ghost var m1, mm1 := marked, members;
        var next;
        assert path[i..][0] == path[i] && path[i..][1..] == path[i + 1..];
        ok, next := StepInto(id, path[i], rank);
        StepOnPath(src, rank, old(marked), old(members), m1, mm1, marked, members, root, path, id, path[i..]);
        if !ok { return; }
        id := next;
        i := i + 1;
      }
      return true;
    }

    /** One element of an access path: behind typedefs and qualifiers, a member is marked and its type, or an
        array is entered. */
    method StepInto(id0: nat, k: nat, ghost rank: seq<nat>) returns (ok: bool, next: nat)
      requires Valid() && id0 < |src| && MarkedOrVoid(marked, id0) && Ranked(src, false, rank)
      requires var t := src[SkipMods(src, rank, id0)]; t.Composite? ==> k < |t.members|
      modifies this`marked, this`members
      ensures Stepped(src, SkipMods(src, rank, id0), k, old(marked), old(members), marked, members)
      ensures var s := SkipMods(src, rank, id0);
              if ok then Valid() && Leads(src, s, k, true) && next == Next(src, s, k) && MarkedOrVoid(marked, next)
                         && (src[s].Composite? ==> (s, k) in members)
              else HasRejected(src, marked) || !Leads(src, s, k, true)
    {
      var id: nat := id0;
      next := 0;
      SkipModsMarked(src, rank, marked, members, id);
      while src[id].Mod?
        invariant id < |src| && SkipMods(src, rank, id) == SkipMods(src, rank, id0)
        decreases if id == 0 then 0 else rank[id] + 1
      {
        assert src[id].target in AllRefs(src[id]) && src[id].target in Followed(src[id], false);
        id := src[id].target;
      }
      match src[id] {
        case Composite(_, _, _, ms) =>
          assert ms[k] in ms && ms[k].typ in AllRefs(src[id]);
          next := ms[k].typ;
          ok := MarkMemberAndType(id, k, rank);
        case Array(e, _, _) =>
          assert e in AllRefs(src[id]) && e in Refs(src[id]) && ClosedAt(src, marked, id);
          next := e;
          ok := true;
        case _ => ok := false;
      }
    }

    /** One composite step: mark the member, then its type. */
    method MarkMemberAndType(id: nat, k: nat, ghost rank: seq<nat>) returns (ok: bool)
      requires Valid() && id < |src| && id in marked && src[id].Composite? && k < |src[id].members|
      requires src[id].members[k].typ < |src| && Ranked(src, false, rank)
      modifies this`marked, this`members
      ensures old(marked) <= marked && members == old(members) + {(id, k)}
      ensures if ok then Valid() && MarkedOrVoid(marked, src[id].members[k].typ) else HasRejected(src, marked)
      ensures var typ := src[id].members[k].typ;
              forall X :: Absorbs(src, false, X) && MarkedOrVoid(X, typ) ==> marked <= old(marked) + X
    {
      MarkMember(id, k);
      ghost var Y;
      ok, Y := MarkType(src[id].members[k].typ, false, rank);
      if ok {
        DoneCloses(src, false, old(marked), old(members), Y);
        MemberCloses(src, marked, old(members), id, k);
      }
    }

    /** btfgen_record_reloc.  Nothing is marked but what the relocation needs. */
    method RecordReloc(relo: Relo, ghost rank: seq<nat>, ghost rankMatch: seq<(nat, nat)>) returns (ok: bool)
      requires Valid() && Ranked(src, true, rank) && ReloFits(src, rank, relo)
      requires relo.MatchRelo? ==> RankedMatch(src, rankMatch)
      modifies this`marked, this`members
      ensures old(marked) <= marked && old(members) <= members
      ensures if ok then Valid() && Recorded(src, rank, relo, marked, members) else FailsOn(src, rank, relo, marked)
      ensures ok ==> Needed(src, rank, relo, old(marked), old(members), marked, members)
    {
      RankedPlain(src, rank);
      ghost var Y;
      match relo {
        case FieldRelo(root, path) =>
          ok := RecordFieldRelo(root, path, rank);
          if ok { FieldRecorded(src, rank, relo, marked, members); }
        case TypeRelo(root) =>
          ok, Y := RecordTypeRelo(root, true, rank);
          if ok { DoneAbsorbs(src, true, Y); }
        case EnumvalRelo(root) =>
          ok, Y := RecordTypeRelo(root, false, rank);
          if ok { DoneAbsorbs(src, false, Y); }
        case MatchRelo(root) =>
          ok := RecordTypeMatchRelo(root, rankMatch);
          if ok { MatchBound(src, rank, relo, old(marked), old(members), marked, members); }
        case LocalRelo => ok := true;
        case UnknownRelo => ok := false;
      }
    }

    /** The relocations of all objects, one after another; an error ends the loop.  On success the new marks are the
        least ones under which every relocation is recorded. */
    method RecordAll(relos: seq<Relo>, ghost rank: seq<nat>, ghost rankMatch: seq<(nat, nat)>) returns (ok: bool)
      requires Valid() && Ranked(src, true, rank) && AllFit(src, rank, relos)
      requires forall j :: 0 <= j < |relos| && relos[j].MatchRelo? ==> RankedMatch(src, rankMatch)
      modifies this`marked, this`members
      ensures if ok then Recording(src, rank, relos, |relos|, old(marked), old(members), marked, members)
              else SomeFails(src, rank, relos, marked)
    {
      ghost var m0, mm0 := marked, members;
      var i := 0;
      while i < |relos|
        invariant 0 <= i <= |relos| && Recording(src, rank, relos, i, m0, mm0, marked, members)
      {
        ghost var m1, mm1 := marked, members;
        ok := RecordReloc(relos[i], rank, rankMatch);
        if !ok { return; }
        AllRecordedMore(src, rank, relos, i, m1, mm1, marked, members);
        LeastNext(src, rank, relos, i, m0, mm0, m1, mm1, marked, members);
        i := i + 1;
      }
      return true;
    }
  }

  lemma {:induction false} FieldRecorded(b: Btf, rank: seq<nat>, relo: Relo, m: set<nat>, mm: set<(nat, nat)>)
    requires ValidBtf(b) && Ranked(b, true, rank) && relo.FieldRelo? && ReloFits(b, rank, relo) && Closed(b, m, mm)
    requires Ranked(b, false, rank) && MarkedOrVoid(m, relo.root) && PathMarked(b, rank, mm, relo.root, relo.path)
    ensures Recorded(b, rank, relo, m, mm)
  {
    ClosedAbsorbs(b, m, mm);
    MarkedIsNeeded(b, rank, m, mm, relo.root, relo.path);
    assert m <= m && Enough(b, rank, m, mm, relo.root, relo.path);
  }

  lemma {:induction false} MatchBound(b: Btf, rank: seq<nat>, relo: Relo, m0: set<nat>, mm0: set<(nat, nat)>,
                                      m: set<nat>, mm: set<(nat, nat)>)
    requires ValidBtf(b) && Ranked(b, true, rank) && relo.MatchRelo? && ReloFits(b, rank, relo) && Closed(b, m, mm)
    requires Justified(b, (relo.root, false), m0, mm0, m, mm)
    ensures Needed(b, rank, relo, m0, mm0, m, mm)
  {
    forall X, XM | Recorded(b, rank, relo, X, XM) ensures m <= m0 + X && mm <= mm0 + XM {
      var C :| Explored(b, C, X, XM) && (relo.root == 0 || (relo.root, false) in C);
      JustifiedBound(b, (relo.root, false), m0, mm0, m, mm, C, X, XM);
    }
  }

  /** The marks made for element k of a path at type s: they only grow, and no more than that step needs. */
  ghost predicate Stepped(b: Btf, s: nat, k: nat, m0: set<nat>, mm0: set<(nat, nat)>, m: set<nat>, mm: set<(nat, nat)>)
    requires s < |b|
  {
    && m0 <= m && mm0 <= mm
    && forall X, XM :: Absorbs(b, false, X) && StepNeeds(b, s, k, X, XM) ==> m <= m0 + X && mm <= mm0 + XM
  }

  /** The state of btfgen_record_field_relo when type id is reached and the path rest remains. */
  ghost predicate OnPath(b: Btf, rank: seq<nat>, m0: set<nat>, mm0: set<(nat, nat)>, m: set<nat>, mm: set<(nat, nat)>,
                         root: nat, path: seq<nat>, id: nat, rest: seq<nat>)
    requires ValidBtf(b) && Ranked(b, false, rank) && root < |b| && id < |b|
  {
    && m0 <= m && mm0 <= mm && InBounds(b, rank, id, rest)
    && (Follow(b, rank, id, rest).NoAccess? ==> Follow(b, rank, root, path).NoAccess?)
    && (forall more :: mm <= more && PathMarked(b, rank, more, id, rest) ==> PathMarked(b, rank, more, root, path))
    && (forall X, XM :: Enough(b, rank, X, XM, root, path) ==>
                          m <= m0 + X && mm <= mm0 + XM && PathNeeds(b, rank, X, XM, id, rest))
  }

  lemma {:induction false} StepOnPath(b: Btf, rank: seq<nat>, m0: set<nat>, mm0: set<(nat, nat)>, m1: set<nat>,
                                      mm1: set<(nat, nat)>, m: set<nat>, mm: set<(nat, nat)>, root: nat,
                                      path: seq<nat>, id: nat, rest: seq<nat>)
    requires ValidBtf(b) && Ranked(b, false, rank) && root < |b| && id < |b| && rest != []
    requires OnPath(b, rank, m0, mm0, m1, mm1, root, path, id, rest)
    requires Stepped(b, SkipMods(b, rank, id), rest[0], m1, mm1, m, mm)
    ensures m0 <= m && mm0 <= mm
    ensures forall X, XM :: Enough(b, rank, X, XM, root, path) ==> m <= m0 + X && mm <= mm0 + XM
    ensures var s := SkipMods(b, rank, id);
            if Leads(b, s, rest[0], true) && (b[s].Composite? ==> (s, rest[0]) in mm)
            then OnPath(b, rank, m0, mm0, m, mm, root, path, Next(b, s, rest[0]), rest[1..])
            else Leads(b, s, rest[0], true) || Follow(b, rank, root, path).NoAccess?
  {
    var s := SkipMods(b, rank, id);
    forall X, XM | Enough(b, rank, X, XM, root, path)
      ensures m <= m0 + X && mm <= mm0 + XM && StepNeeds(b, s, rest[0], X, XM)
    {
      assert PathNeeds(b, rank, X, XM, id, rest);
    }
    if Leads(b, s, rest[0], true) {
      FirstStep(b, rank, id, rest);
    } else {
      assert Follow(b, rank, id, rest).NoAccess?;
    }
  }
}
