/**
  blazesym's file cache (lib/blazesym/src/file_cache.rs:129-206) over its insert-only maps
  (lib/blazesym/src/insert_map.rs:37-98).  The file system is seen through the results of `stat` and `open`
  that accompany a lookup.
*/
module FileCache {
  import opened Wrappers

  type Path = string

  datatype Meta = Meta(dev: int, inode: int, size: int, mtimeSec: int, mtimeNsec: int)

  /** A cache entry; `serial` is its identity: no two entries ever created share it. */
  datatype Entry = Entry(file: int, serial: nat)

  datatype Pin = Pinned | Unpinned

  datatype Failure = StatFailed | OpenFailed

  /** An insert-only map: present keys keep their values. */
  class InsertMap<K(==), V> {
    var m: map<K, V>

    constructor ()
      ensures m == map[]
    {
      m := map[];
    }

    method Get(key: K) returns (r: Option<V>)
      ensures r == if key in m then Some(m[key]) else None
    {
      r := if key in m then Some(m[key]) else None;
    }

    method GetOrInsert(key: K, init: V) returns (r: V)
      modifies this
      ensures key in m && r == m[key] && m.Keys == old(m).Keys + {key}
      ensures forall k :: k in old(m) ==> m[k] == old(m)[k]
      ensures key !in old(m) ==> r == init
    {
      if key !in m { m := m[key := init]; }
      r := m[key];
    }

    method GetOrTryInsert<E>(key: K, init: Result<V, E>) returns (r: Result<V, E>)
      modifies this
      ensures m == if key !in old(m) && init.Ok? then old(m)[key := init.value] else old(m)
      ensures if key in old(m) then r == Ok(old(m)[key]) else r == init
    {
      if key in m { return Ok(m[key]); }
      if init.Err? { return init; }
      m := m[key := init.value];
      r := init;
    }
  }

  // ---------------------------------------------------------------- the cache as a state machine

  /** `current[p]` is the metadata of the entry last handed out for path p, if any. */
  datatype State = State(current: map<Path, Option<(Pin, Meta)>>, entries: map<Meta, Entry>, next: nat)

  datatype Op =
    | Lookup(path: Path, stat: Option<Meta>, open: Option<int>)
    | SetPin(path: Path, pin: Pin)

  type Trace = seq<Op>

  predicate Held(s: State, p: Path) { p in s.current && s.current[p].Some? }

  /** A lookup of p returns the entry it already has. */
  predicate Sticky(auto: bool, s: State, p: Path) {
    Held(s, p) && (!auto || s.current[p].value.0 == Pinned)
  }

  function Touch(s: State, p: Path): State {
    if p in s.current then s else s.(current := s.current[p := None])
  }

  /** FileCache::get_or_insert */
  function Reload(s: State, p: Path, stat: Option<Meta>, open: Option<int>): (State, Result<Entry, Failure>) {
    match stat
    case None => (s, Err(StatFailed))
    case Some(m) =>
      if m in s.entries then (s.(current := s.current[p := Some((Unpinned, m))]), Ok(s.entries[m]))
      else match open
        case None => (s, Err(OpenFailed))
        case Some(file) =>
          var e := Entry(file, s.next);
          (State(s.current[p := Some((Unpinned, m))], s.entries[m := e], s.next + 1), Ok(e))
  }

  function Step(auto: bool, s: State, op: Op): State {
    match op
    case Lookup(p, stat, open) => if Sticky(auto, s, p) then s else Reload(Touch(s, p), p, stat, open).0
    case SetPin(p, pin) =>
      if Held(s, p) then s.(current := s.current[p := Some((pin, s.current[p].value.1))]) else s
  }

  /** The result of a lookup.  The entry of a sticky path is found by unwrapping. */
  function Answer(auto: bool, s: State, p: Path, stat: Option<Meta>, open: Option<int>): Result<Entry, Failure>
    requires Valid(s)
  {
    if Sticky(auto, s, p) then Ok(s.entries[s.current[p].value.1]) else Reload(Touch(s, p), p, stat, open).1
  }

  function Init(): State { State(map[], map[], 0) }

  function RunTo(auto: bool, tr: Trace, n: nat): State
    requires n <= |tr|
  {
    if n == 0 then Init() else Step(auto, RunTo(auto, tr, n - 1), tr[n - 1])
  }

  /** The metadata held for a path always has an entry, and entries are distinct objects. */
  predicate Valid(s: State) {
    && (forall p :: p in s.current && s.current[p].Some? ==> s.current[p].value.1 in s.entries)
    && (forall m :: m in s.entries ==> s.entries[m].serial < s.next)
    && (forall m, m' :: m in s.entries && m' in s.entries && m != m' ==> s.entries[m].serial != s.entries[m'].serial)
  }

  // ---------------------------------------------------------------- the cache as it runs

  /** The cell of one path. */
  class PathEntry {
    var current: Option<(Pin, Meta)>

    constructor ()
      ensures current == None
    {
      current := None;
    }
  }

  class Cache {
    const autoReload: bool
    const cache: InsertMap<Path, PathEntry>
    const entries: InsertMap<Meta, Entry>
    var next: nat

    /** Each path has a cell of its own. */
    ghost predicate Separate()
      reads cache
    {
      && cache as object != entries as object
      && forall p, q :: p in cache.m && q in cache.m && p != q ==> cache.m[p] != cache.m[q]
    }

    ghost function Cells(): map<Path, Option<(Pin, Meta)>>
      reads cache, cache.m.Values
    {
      map p | p in cache.m :: cache.m[p].current
    }

    ghost function View(): State
      reads this, cache, entries, cache.m.Values
    {
      State(Cells(), entries.m, next)
    }

    constructor (autoReload: bool)
      ensures this.autoReload == autoReload && fresh(cache) && fresh(entries)
      ensures Separate() && View() == Init() && Valid(View())
    {
      this.autoReload := autoReload;
      cache := new InsertMap();
      entries := new InsertMap();
      next := 0;
    }

    /** The entry for the metadata just read, opened if it is new. */
    method FindEntry(meta: Meta, open: Option<int>) returns (r: Result<Entry, Failure>)
      modifies this`next, entries
      ensures var m := old(entries.m);
              if meta in m then r == Ok(m[meta]) && entries.m == m && next == old(next)
              else if open.None? then r == Err(OpenFailed) && entries.m == m && next == old(next)
              else r == Ok(Entry(open.value, old(next))) && entries.m == m[meta := r.value] && next == old(next) + 1
    {
      var known := entries.Get(meta);
      var init := if open.Some? then Ok(Entry(open.value, next)) else Err(OpenFailed);
      r := entries.GetOrTryInsert(meta, init);
      if known.None? && r.Ok? { next := next + 1; }
    }

    /** One cell is written. */
    method SetCell(ghost path: Path, cell: PathEntry, value: (Pin, Meta))
      requires Separate() && path in cache.m && cache.m[path] == cell
      modifies cell
      ensures Cells() == old(Cells())[path := Some(value)]
    {
      cell.current := Some(value);
    }

    /** FileCache::get_or_insert */
    method GetOrInsert(path: Path, cell: PathEntry, stat: Option<Meta>, open: Option<int>)
      returns (r: Result<Entry, Failure>)
      requires Separate() && Valid(View()) && path in cache.m && cache.m[path] == cell
      modifies this, entries, cell
      ensures cache.m == old(cache.m) && (View(), r) == Reload(old(View()), path, stat, open) && Valid(View())
    {
      ReloadKeeps(View(), path, stat, open);
      if stat.None? { return Err(StatFailed); }
      r := FindEntry(stat.value, open);
      if r.Err? { return; }
      SetCell(path, cell, (Unpinned, stat.value));
    }

    /** The cell of a path, made if there is none. */
    method CellOf(path: Path) returns (cell: PathEntry)
      requires Separate()
      modifies cache
      ensures Separate() && path in cache.m && cache.m[path] == cell && fresh(cache.m.Values - old(cache.m.Values))
      ensures path in Cells() && Cells()[path] == cell.current
      ensures Cells() == if path in old(Cells()) then old(Cells()) else old(Cells())[path := None]
    {
      var blank := new PathEntry();
      cell := cache.GetOrInsert(path, blank);
    }

    /** FileCache::entry */
    method GetEntry(path: Path, stat: Option<Meta>, open: Option<int>) returns (r: Result<Entry, Failure>)
      requires Separate() && Valid(View())
      modifies this, cache, entries, cache.m.Values
      ensures Separate() && Valid(View()) && fresh(cache.m.Values - old(cache.m.Values))
      ensures View() == Step(autoReload, old(View()), Lookup(path, stat, open))
      ensures r == Answer(autoReload, old(View()), path, stat, open)
    {
      var cell := CellOf(path);
      ghost var s := View();
      assert s == Touch(old(View()), path) && Valid(s) && s.current[path] == cell.current;
      if cell.current.Some? {
        var (pin, meta) := cell.current.value;
        if !autoReload || pin == Pinned {
          return Ok(entries.m[meta]);
        }
      }
      r := GetOrInsert(path, cell, stat, open);
    }

    /** FileCache::set_pin_state, called by pin and unpin */
    method SetPinState(path: Path, pin: Pin) returns (ok: bool)
      requires Separate() && Valid(View())
      modifies cache.m.Values
      ensures Separate() && Valid(View()) && View() == Step(autoReload, old(View()), SetPin(path, pin))
      ensures ok <==> Held(old(View()), path)
    {
      var found := cache.Get(path);
      if found.None? || found.value.current.None? { return false; }
      SetCell(path, found.value, (pin, found.value.current.value.1));
      return true;
    }
  }

  // ---------------------------------------------------------------- what holds over every run

  /** Entries of s are still there, unchanged, in t. */
  ghost predicate Extends(s: State, t: State) {
    forall m :: m in s.entries ==> m in t.entries && t.entries[m] == s.entries[m]
  }

  lemma {:induction false} ReloadKeeps(s: State, p: Path, stat: Option<Meta>, open: Option<int>)
    requires Valid(s)
    ensures Valid(Reload(s, p, stat, open).0) && Extends(s, Reload(s, p, stat, open).0)
  {
    if stat.Some? && stat.value !in s.entries && open.Some? {
      var t := Reload(s, p, stat, open).0;
      assert t.entries[stat.value].serial == s.next;
      assert forall m :: m in t.entries && m != stat.value ==> m in s.entries && t.entries[m] == s.entries[m];
    }
  }

  lemma {:induction false} StepKeeps(auto: bool, s: State, op: Op)
    requires Valid(s)
    ensures Valid(Step(auto, s, op)) && Extends(s, Step(auto, s, op))
  {
    match op
    case Lookup(p, stat, open) =>
      if !Sticky(auto, s, p) {
        assert Valid(Touch(s, p));
        ReloadKeeps(Touch(s, p), p, stat, open);
      }
    case SetPin(p, pin) =>
  }

  /** In every run the unwrap of a held entry succeeds. */
  lemma {:induction false} AlwaysValid(auto: bool, tr: Trace, n: nat)
    requires n <= |tr|
    ensures Valid(RunTo(auto, tr, n))
  {
    if n > 0 {
      AlwaysValid(auto, tr, n - 1);
      StepKeeps(auto, RunTo(auto, tr, n - 1), tr[n - 1]);
    }
  }

  /** In every run no entry is ever replaced. */
  lemma {:induction false} EntriesNeverReplaced(auto: bool, tr: Trace, i: nat, n: nat)
    requires i <= n <= |tr|
    ensures Extends(RunTo(auto, tr, i), RunTo(auto, tr, n))
  {
    if i < n {
      EntriesNeverReplaced(auto, tr, i, n - 1);
      AlwaysValid(auto, tr, n - 1);
      StepKeeps(auto, RunTo(auto, tr, n - 1), tr[n - 1]);
    }
  }

  predicate SameHold(s: State, t: State, p: Path)
    requires Held(s, p)
  {
    Held(t, p) && t.current[p].value.1 == s.current[p].value.1
  }

  lemma {:induction false} StickyStep(auto: bool, s: State, op: Op, p: Path)
    requires Sticky(auto, s, p) && op != SetPin(p, Unpinned)
    ensures Sticky(auto, Step(auto, s, op), p) && SameHold(s, Step(auto, s, op), p)
  {
    match op
    case Lookup(q, stat, open) =>
    case SetPin(q, pin) =>
  }

  lemma {:induction false} StickyHold(auto: bool, tr: Trace, i: nat, n: nat, p: Path)
    requires i <= n <= |tr| && Sticky(auto, RunTo(auto, tr, i), p)
    requires forall j :: i <= j < n ==> tr[j] != SetPin(p, Unpinned)
    ensures Sticky(auto, RunTo(auto, tr, n), p) && SameHold(RunTo(auto, tr, i), RunTo(auto, tr, n), p)
  {
    if i < n {
      StickyHold(auto, tr, i, n - 1, p);
      StickyStep(auto, RunTo(auto, tr, n - 1), tr[n - 1], p);
    }
  }

  /** A path that is pinned, or any held path without auto-reload, keeps returning the same entry until it
      is unpinned, whatever happens to the file system meanwhile. */
  lemma {:induction false} StickyEntry(auto: bool, tr: Trace, i: nat, n: nat, p: Path, stat: Option<Meta>,
                                       open: Option<int>, stat': Option<Meta>, open': Option<int>)
    requires i <= n <= |tr| && Sticky(auto, RunTo(auto, tr, i), p)
    requires forall j :: i <= j < n ==> tr[j] != SetPin(p, Unpinned)
    ensures Valid(RunTo(auto, tr, i)) && Valid(RunTo(auto, tr, n))
    ensures Answer(auto, RunTo(auto, tr, n), p, stat, open) == Answer(auto, RunTo(auto, tr, i), p, stat', open')
  {
    AlwaysValid(auto, tr, i);
    AlwaysValid(auto, tr, n);
    EntriesNeverReplaced(auto, tr, i, n);
    StickyHold(auto, tr, i, n, p);
  }

  predicate SameCell(s: State, t: State, p: Path) {
    (p in t.current <==> p in s.current) && (p in s.current ==> t.current[p] == s.current[p])
  }

  /** What pinning and unpinning a held path does: it changes whether the path is reloaded, and nothing else. */
  lemma {:induction false} PinStep(auto: bool, s: State, p: Path, pin: Pin)
    requires Held(s, p)
    ensures var t := Step(auto, s, SetPin(p, pin));
            && SameHold(s, t, p) && t.entries == s.entries && (forall q :: q != p ==> SameCell(s, t, q))
            && (Sticky(auto, t, p) <==> !auto || pin == Pinned)
  {
  }

  /** A path on which there is nothing to pin is left alone. */
  lemma {:induction false} PinNothing(auto: bool, s: State, p: Path, pin: Pin)
    requires !Held(s, p)
    ensures Step(auto, s, SetPin(p, pin)) == s
  {
  }

  /** From the pin on: a held path that is pinned returns the entry it held then until it is unpinned. */
  lemma {:induction false} PinnedEntry(auto: bool, tr: Trace, i: nat, n: nat, p: Path, stat: Option<Meta>,
                                       open: Option<int>)
    requires i < n <= |tr| && tr[i] == SetPin(p, Pinned) && Held(RunTo(auto, tr, i), p)
    requires forall j :: i < j < n ==> tr[j] != SetPin(p, Unpinned)
    ensures Valid(RunTo(auto, tr, i)) && Valid(RunTo(auto, tr, n))
    ensures var s := RunTo(auto, tr, i);
            Answer(auto, RunTo(auto, tr, n), p, stat, open) == Ok(s.entries[s.current[p].value.1])
  {
    var s := RunTo(auto, tr, i);
    AlwaysValid(auto, tr, i);
    PinStep(auto, s, p, Pinned);
    assert RunTo(auto, tr, i + 1) == Step(auto, s, SetPin(p, Pinned));
    StickyEntry(auto, tr, i + 1, n, p, stat, open, stat, open);
  }

  lemma {:induction false} LooseStep(s: State, op: Op, p: Path)
    requires !Sticky(true, s, p) && op != SetPin(p, Pinned)
    ensures !Sticky(true, Step(true, s, op), p)
  {
    match op
    case Lookup(q, stat, open) =>
    case SetPin(q, pin) =>
  }

  /** With auto-reload a path is exempt from reloading iff it was pinned while it held an entry, and not unpinned
      since. */
  lemma {:induction false} StickyIffPinned(tr: Trace, n: nat, p: Path)
    requires n <= |tr|
    ensures Sticky(true, RunTo(true, tr, n), p) <==>
            exists i :: 0 <= i < n && tr[i] == SetPin(p, Pinned) && Held(RunTo(true, tr, i), p)
                        && forall j :: i < j < n ==> tr[j] != SetPin(p, Unpinned)
  {
    if n > 0 {
      var s, op := RunTo(true, tr, n - 1), tr[n - 1];
      StickyIffPinned(tr, n - 1, p);
      match op
      case SetPin(q, pin) =>
        if q == p && Held(s, p) {
          PinStep(true, s, p, pin);
        } else if q == p {
          PinNothing(true, s, p, pin);
        } else if Held(s, q) {
          PinStep(true, s, q, pin);
          assert SameCell(s, RunTo(true, tr, n), p);
        }
      case Lookup(_, _, _) =>
        if Sticky(true, s, p) { StickyStep(true, s, op, p); } else { LooseStep(s, op, p); }
    }
  }

  /** The answer that event i of the run gets. */
  ghost function AnswerAt(auto: bool, tr: Trace, i: nat): Result<Entry, Failure>
    requires i < |tr| && tr[i].Lookup?
  {
    AlwaysValid(auto, tr, i);
    Answer(auto, RunTo(auto, tr, i), tr[i].path, tr[i].stat, tr[i].open)
  }

  lemma {:induction false} HeldStep(auto: bool, s: State, op: Op, p: Path)
    requires Valid(s)
    ensures Held(Step(auto, s, op), p) <==>
            Held(s, p) || (op.Lookup? && op.path == p && Answer(auto, s, p, op.stat, op.open).Ok?)
  {
    match op
    case Lookup(q, stat, open) =>
    case SetPin(q, pin) =>
  }

  /** Event i is a lookup of p that succeeds. */
  ghost predicate Succeeds(auto: bool, tr: Trace, i: nat, p: Path) {
    i < |tr| && tr[i].Lookup? && tr[i].path == p && AnswerAt(auto, tr, i).Ok?
  }

  lemma {:induction false} HeldNext(auto: bool, tr: Trace, n: nat, p: Path)
    requires 0 < n <= |tr|
    ensures Held(RunTo(auto, tr, n), p) <==> Held(RunTo(auto, tr, n - 1), p) || Succeeds(auto, tr, n - 1, p)
  {
    AlwaysValid(auto, tr, n - 1);
    HeldStep(auto, RunTo(auto, tr, n - 1), tr[n - 1], p);
  }

  lemma {:induction false} HeldOrigin(auto: bool, tr: Trace, n: nat, p: Path) returns (i: nat)
    requires n <= |tr| && Held(RunTo(auto, tr, n), p)
    ensures i < n && Succeeds(auto, tr, i, p)
  {
    assert n > 0;
    HeldNext(auto, tr, n, p);
    if Succeeds(auto, tr, n - 1, p) { i := n - 1; } else { i := HeldOrigin(auto, tr, n - 1, p); }
  }

  lemma {:induction false} SuccessHolds(auto: bool, tr: Trace, i: nat, n: nat, p: Path)
    requires i < n <= |tr| && Succeeds(auto, tr, i, p)
    ensures Held(RunTo(auto, tr, n), p)
  {
    HeldNext(auto, tr, n, p);
    if i < n - 1 { SuccessHolds(auto, tr, i, n - 1, p); }
  }

  /** A path holds an entry iff some lookup of it has succeeded; without auto-reload it then keeps it. */
  lemma {:induction false} HeldIffAnswered(auto: bool, tr: Trace, n: nat, p: Path)
    requires n <= |tr|
    ensures Held(RunTo(auto, tr, n), p) <==> exists i :: 0 <= i < n && Succeeds(auto, tr, i, p)
  {
    if Held(RunTo(auto, tr, n), p) {
      var i := HeldOrigin(auto, tr, n, p);
    } else if i :| 0 <= i < n && Succeeds(auto, tr, i, p) {
      SuccessHolds(auto, tr, i, n, p);
    }
  }

  /** A lookup whose stat fails changes no entry and no held path. */
  lemma {:induction false} StatFails(auto: bool, s: State, p: Path, open: Option<int>)
    requires Valid(s) && !Sticky(auto, s, p)
    ensures Answer(auto, s, p, None, open) == Err(StatFailed)
    ensures var t := Step(auto, s, Lookup(p, None, open));
            t.entries == s.entries && (forall q :: Held(s, q) || q != p ==> SameCell(s, t, q))
  {
  }

  /** A sticky path is not looked at again. */
  lemma {:induction false} StickyLookup(auto: bool, s: State, p: Path, stat: Option<Meta>, open: Option<int>)
    requires Valid(s) && Sticky(auto, s, p)
    ensures Step(auto, s, Lookup(p, stat, open)) == s
    ensures Answer(auto, s, p, stat, open) == Ok(s.entries[s.current[p].value.1])
  {
  }

  /** An unpinned lookup with auto-reload hands out the entry for the metadata just read; a file with other
      metadata gets another entry. */
  lemma {:induction false} ReloadedEntry(auto: bool, tr: Trace, n: nat, p: Path, m: Meta, open: Option<int>)
    requires n <= |tr| && !Sticky(auto, RunTo(auto, tr, n), p)
    ensures Valid(RunTo(auto, tr, n))
    ensures var s := RunTo(auto, tr, n);
            var s' := Step(auto, s, Lookup(p, Some(m), open));
            var r := Answer(auto, s, p, Some(m), open);
            && (r.Ok? <==> m in s.entries || open.Some?)
            && (r.Ok? ==> m in s'.entries && r.value == s'.entries[m] && s'.current[p] == Some((Unpinned, m)))
            && (r.Ok? && m !in s.entries ==> r.value.file == open.value && r.value !in s.entries.Values)
            && (r.Err? ==> r.error == OpenFailed && s'.entries == s.entries && (Held(s, p) ==> s'.current == s.current))
            && (forall q :: q != p ==> SameCell(s, s', q))
            && (forall m' :: m' in s'.entries && m' != m && r.Ok? ==> s'.entries[m'] != r.value)
  {
    AlwaysValid(auto, tr, n);
    StepKeeps(auto, RunTo(auto, tr, n), Lookup(p, Some(m), open));
  }

  /** The entry that a reloading lookup hands out is from then on that of the metadata it read. */
  lemma {:induction false} AnswerIsEntry(auto: bool, tr: Trace, i: nat, m: Meta)
    requires i < |tr| && tr[i].Lookup? && tr[i].stat == Some(m) && !Sticky(auto, RunTo(auto, tr, i), tr[i].path)
    requires AnswerAt(auto, tr, i).Ok?
    ensures m in RunTo(auto, tr, i + 1).entries && RunTo(auto, tr, i + 1).entries[m] == AnswerAt(auto, tr, i).value
  {
    var s, p := RunTo(auto, tr, i), tr[i].path;
    ReloadedEntry(auto, tr, i, p, m, tr[i].open);
    assert tr[i] == Lookup(p, Some(m), tr[i].open);
    assert RunTo(auto, tr, i + 1) == Step(auto, s, tr[i]);
  }

  /** Paths that show equal metadata share one entry, however far apart they are looked up. */
  lemma {:induction false} SharedEntry(auto: bool, tr: Trace, i: nat, n: nat)
    requires i < n < |tr| && tr[i].Lookup? && tr[n].Lookup? && tr[i].stat.Some? && tr[n].stat == tr[i].stat
    requires !Sticky(auto, RunTo(auto, tr, i), tr[i].path) && !Sticky(auto, RunTo(auto, tr, n), tr[n].path)
    ensures AnswerAt(auto, tr, i).Ok? ==> AnswerAt(auto, tr, n) == AnswerAt(auto, tr, i)
  {
    var m, j := tr[i].stat.value, i + 1;
    if AnswerAt(auto, tr, i).Ok? {
      AnswerIsEntry(auto, tr, i, m);
      EntriesNeverReplaced(auto, tr, j, n);
      KnownAnswer(auto, tr, n, m);
    }
  }

  lemma {:induction false} KnownAnswer(auto: bool, tr: Trace, n: nat, m: Meta)
    requires n < |tr| && tr[n].Lookup? && tr[n].stat == Some(m) && !Sticky(auto, RunTo(auto, tr, n), tr[n].path)
    requires m in RunTo(auto, tr, n).entries
    ensures AnswerAt(auto, tr, n) == Ok(RunTo(auto, tr, n).entries[m])
  {
    AlwaysValid(auto, tr, n);
    KnownEntry(auto, RunTo(auto, tr, n), tr[n].path, m, tr[n].open);
  }

  lemma {:induction false} KnownEntry(auto: bool, s: State, p: Path, m: Meta, open: Option<int>)
    requires Valid(s) && !Sticky(auto, s, p) && m in s.entries
    ensures Answer(auto, s, p, Some(m), open) == Ok(s.entries[m])
  {
  }
}
