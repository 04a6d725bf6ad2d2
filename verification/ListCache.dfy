/** The per-handle cache behind ListLen and ListAt. */
module ListCaches {
  import opened Bytes
  import opened ArtTree
  import opened ArtPools
  import opened ArtInsert
  import opened ArtLookup
  import opened ArtMount
  import opened ArtScan
  import opened Coord
  import opened ArtChildren
  import opened Listing
  import opened Stores

  /** These names are an answer for the key map of t. */
  ghost predicate Answer(t: Tree, target: Key, ext: Key, names: seq<Key>)
    requires Named(t)
  {
    && (exists was :: Emitted(t, target, ext, was) && Kept(target, was, names))
    && (Orderable(t, target, ext) ==> ListOf(t, target, ext, names) && Arranged(names) && Distinct(names))
  }

  /** A list depends on which keys are live, and on nothing else. */
  lemma SameKeysSameAnswer(t: Tree, t': Tree, target: Key, ext: Key, names: seq<Key>)
    requires Named(t) && Named(t') && Contents(t).Keys == Contents(t').Keys && Answer(t, target, ext, names)
    ensures Answer(t', target, ext, names)
  {
    hide Named, Kept, Arranged, Distinct, Straddles, Visible, Whole, Stem, Name, Contents;
    SameKeysSameChildren(t, t', target, ext);
    var was :| Emitted(t, target, ext, was) && Kept(target, was, names);
    assert Emitted(t', target, ext, was);
  }

  lemma SameKeysSameChildren(t: Tree, t': Tree, pfx: Key, ext: Key)
    requires Named(t) && Named(t') && Contents(t).Keys == Contents(t').Keys
    ensures forall n :: HasEither(t, pfx, ext, n) == HasEither(t', pfx, ext, n)
    ensures forall n :: MarkedEither(t, pfx, ext, n) == MarkedEither(t', pfx, ext, n)
  {
    hide Named, Name, Contents;
    assert forall x :: x in Contents(t) <==> x in Contents(t');
  }

  /** There is only one sorted list of the children: a hit gives exactly what a fresh scan would. */
  lemma OneAnswer(t: Tree, target: Key, ext: Key, a: seq<Key>, b: seq<Key>)
    requires Named(t) && Orderable(t, target, ext) && Answer(t, target, ext, a) && Answer(t, target, ext, b)
    ensures a == b
  {
    hide Named, HasEither, MarkedEither, Orderable, Arranged, Distinct, Emitted, Kept, Whole, Visible;
    forall e ensures e in a <==> e in b {
      StemTail(e);
    }
    SortedOnce(a, b);
  }

  lemma {:induction false} SortedOnce(a: seq<Key>, b: seq<Key>)
    requires Arranged(a) && Distinct(a) && Arranged(b) && Distinct(b) && forall e :: e in a <==> e in b
    ensures a == b
  {
    hide ChildOrder, SameChild;
    if a == [] {
      if b != [] {
        HeadIn(b);
      }
    } else {
      HeadIn(a);
      assert b != [];
      HeadIn(b);
      var i, j :| 0 <= i < |a| && a[i] == b[0] && 0 <= j < |b| && b[j] == a[0];
      ChildFlip(a[0], b[0]);
      forall e ensures e in a[1..] <==> e in b[1..] {
        InTail(a, e);
        InTail(b, e);
      }
      SortedOnce(a[1..], b[1..]);
      assert a == [a[0]] + a[1..] && b == [b[0]] + b[1..];
    }
  }

  lemma HeadIn(a: seq<Key>)
    requires a != []
    ensures a[0] in a
  {
  }

  lemma InTail(a: seq<Key>, e: Key)
    requires a != [] && Distinct(a)
    ensures e in a[1..] <==> e in a && e != a[0]
  {
    SameFlip(e, e);
    if e in a[1..] {
      var i :| 0 <= i < |a| - 1 && a[1..][i] == e;
      assert a[i + 1] == e;
    }
  }

  datatype Where = Scan(target: Key, ext: Key) | Nowhere | Refusal

  /** "/", or anything that ends in '/' or U+00B7. */
  predicate BadDirPrefix(p: Key) {
    p == [] || !(p[|p| - 1] == SLASH || (|p| >= 2 && p[|p| - 2] == DOT0 && p[|p| - 1] == DOT1))
  }

  /** Which directory, and which one mounted on it, a List call means. */
  ghost function ListTarget(t: Tree, prefix: Key, ex: bool, resolve: bool, v: Values): (r: Where)
    requires Named(t)
    ensures r.Scan? ==> !ReservedMeta(prefix) && !ReservedMeta(r.target) && !BadDirPrefix(prefix)
    ensures r.Scan? ==> |prefix| < (if resolve then KEY_LIMIT else SCAN_BUFFER)
    ensures r == Refusal <==>
              && !ReservedMeta(prefix)
              && (BadDirPrefix(prefix) || |prefix| >= (if resolve then KEY_LIMIT else SCAN_BUFFER))
    ensures r == Nowhere ==> ReservedMeta(prefix) || (resolve && ReservedMeta(Resolve(t, prefix, v, 16).0))
    ensures r.Scan? ==> r.target == if resolve then Resolve(t, prefix, v, 16).0 else prefix
    ensures r.Scan? && !ex ==> r.ext == []
    ensures r.Scan? && ex ==> MountedOn(t, r.target, r.ext, v)
  {
    if ReservedMeta(prefix) then Nowhere
    else if BadDirPrefix(prefix) || |prefix| >= (if resolve then KEY_LIMIT else SCAN_BUFFER) then Refusal
    else
      var target := if resolve then Resolve(t, prefix, v, HOPS).0 else prefix;
      var ext := if ex then Mount(t, Directory(target), v) else None;
      MountedOnIs(t, target, v);
      if ReservedMeta(target) then Nowhere
      else Scan(target, if ext.Some? then ext.value else [])
  }

  /** ext is the directory mounted on target, or empty when there is none. */
  ghost predicate MountedOn(t: Tree, target: Key, ext: Key, v: Values)
    requires Named(t)
  {
    && (forall src :: Mounts(t, Directory(target), src, v) ==> ext == src)
    && (ext == [] || Mounts(t, Directory(target), ext, v))
  }

  lemma MountedOnIs(t: Tree, target: Key, v: Values)
    requires Named(t)
    ensures var m := Mount(t, Directory(target), v); MountedOn(t, target, if m.Some? then m.value else [], v)
  {
    hide Named, Mounts, Mount, Directory;
    forall src ensures Mounts(t, Directory(target), src, v) <==> Mount(t, Directory(target), v) == Some(src) {
      MountsIs(t, Directory(target), src, v);
    }
  }

  /** With links followed the directory listed is the one at the end of them, or the seventeenth key on the way. */
  lemma ListFollows(t: Tree, keys: seq<Key>, ex: bool, v: Values)
    requires Named(t) && 0 < |keys| <= 17 && LinkChain(t, keys, v)
    requires |keys| == 17 || !LinksOn(t, keys[|keys| - 1], v)
    ensures var r := ListTarget(t, keys[0], ex, true, v); r.Scan? ==> r.target == keys[|keys| - 1]
  {
    hide Named, LinksTo, ArtMount.Link, ReadableBox, LinkChain;
    ChainResolves(t, keys, v, 16);
    if |keys| < 17 {
      NoLink(t, keys[|keys| - 1], v);
    }
  }

  /** A directory ends in '/' or U+00B7. */
  lemma BadDirSpelled(p: Key, x: byte)
    ensures !BadDirPrefix(p + [0x2F]) && !BadDirPrefix(p + [0xC2, 0xB7]) && BadDirPrefix([])
    ensures x != 0x2F && !(x == 0xB7 && p != [] && p[|p| - 1] == 0xC2) ==> BadDirPrefix(p + [x])
  {
  }

  method FindTarget(p: ArtPool, prefix: Key, ex: bool, resolve: bool, v: Values) returns (r: Where)
    requires p.Valid() && Inv(p.t, map[])
    ensures Named(p.t) && r == ListTarget(p.t, prefix, ex, resolve, v)
  {
    hide Inv, Named, Mount, Resolve;
    MissOrHit(p.t, prefix);
    if ReservedMeta(prefix) {
      return Nowhere;
    }
    if BadDirPrefix(prefix) || |prefix| >= (if resolve then KEY_LIMIT else SCAN_BUFFER) {
      return Refusal;
    }
    var target := prefix;
    if resolve {
      var end, _ := ResolveFetch(p, prefix, v);
      target := end;
    }
    if ReservedMeta(target) {
      return Nowhere;
    }
    if !ex {
      return Scan(target, []);
    }
    var ext := DirExtPath(p, Directory(target), v);
    return Scan(target, if ext.Some? then ext.value else []);
  }

  class ListCache {
    var have: bool
    var prefix: Key
    var target: Key
    var ext: Key
    var ex: bool
    var res: bool
    var gen: nat
    var names: seq<Key>

    constructor ()
      ensures !have && names == []
    {
      have, prefix, target, ext, ex, res, gen, names := false, [], [], [], false, false, 0, [];
    }

    /** As long as the list generation has not moved, the cached names are current. */
    ghost predicate Coherent(t: Tree, listGen: nat)
      requires Named(t)
      reads this
    {
      have ==> gen <= listGen && (gen == listGen ==> Answer(t, target, ext, names))
    }

    method Drop()
      modifies this
      ensures !have && names == []
    {
      have, names := false, [];
    }

    /** The names for ListLen and ListAt: from the cache when nothing has changed, else from a new scan. */
    method List(s: Store, p: Key, withExt: bool, resolve: bool, v: Values) returns (rc: int)
      requires s.Valid() && Coherent(s.pool.t, s.listGen) && this !in s.pool.repr
      modifies this
      ensures s.Valid() && Coherent(s.pool.t, s.listGen)
      ensures Named(s.pool.t)
      ensures var at := ListTarget(s.pool.t, p, withExt, resolve, v);
              && (at == Refusal ==> rc == -1)
              && (at == Nowhere ==> rc == 0 && !have && names == [])
              && (at.Scan? && rc == 0 ==> have && Answer(s.pool.t, at.target, at.ext, names))
              && (at.Scan? && rc != 0 ==> rc == -1 && !have && (|at.target| >= SCAN_BUFFER || |at.ext| >= SCAN_BUFFER))
    {
      hide Named, Contents, Sound, Answer, ReservedMeta, BadDirPrefix, Inv, ListTarget;
      var g := s.listGen;
      var w := FindTarget(s.pool, p, withExt, resolve, v);
      if w == Refusal {
        return -1;
      }
      if w == Nowhere {
        Drop();
        return 0;
      }
      if have && gen == g && ex == withExt && res == resolve && prefix == p && target == w.target && ext == w.ext {
        return 0;
      }
      rc := Refill(s, p, w.target, w.ext, withExt, resolve, g);
    }

    method Refill(s: Store, p: Key, target: Key, ext: Key, withExt: bool, resolve: bool, g: nat) returns (rc: int)
      requires s.Valid() && this !in s.pool.repr && g == s.listGen
      modifies this
      ensures s.Valid() && Coherent(s.pool.t, s.listGen)
      ensures rc == 0 ==> have && Answer(s.pool.t, target, ext, names)
      ensures rc == 0 || (rc == -1 && !have && (|target| >= SCAN_BUFFER || |ext| >= SCAN_BUFFER))
    {
      hide Named, Contents, AtRest, Sound, Answer, Inv, Emitted, Kept, Orderable, ListOf, Arranged, Distinct, Straddles,
        CoordsVisible, ArtPool.Valid;
      Drop();
      var ok, found := ListScan(s.pool, target, ext);
      if !ok {
        return -1;
      }
      Answered(s.pool.t, target, ext, found);
      prefix, this.target, this.ext, names, ex, res, gen, have := p, target, ext, found, withExt, resolve, g, true;
      return 0;
    }
  }

  lemma Answered(t: Tree, target: Key, ext: Key, names: seq<Key>)
    requires Named(t)
    requires exists was :: Emitted(t, target, ext, was) && Kept(target, was, names)
    requires Orderable(t, target, ext) ==> ListOf(t, target, ext, names) && Arranged(names) && Distinct(names)
    ensures Answer(t, target, ext, names)
  {
  }

  /** Whatever other handles do to the store, a cache stays coherent: each write either moves the list generation or
      leaves the set of live keys alone. */
  lemma {:induction false} CacheSurvives(c: ListCache, run: seq<Tree>, gens: seq<nat>)
    requires 0 < |run| == |gens| && (forall i :: 0 <= i < |run| ==> Named(run[i]))
    requires forall i :: 0 <= i < |run| - 1 ==> Announced(run[i], gens[i], run[i + 1], gens[i + 1])
    requires c.Coherent(run[0], gens[0])
    ensures c.Coherent(run[|run| - 1], gens[|run| - 1])
  {
    hide Named, Answer, Contents;
    var n := |run| - 1;
    if n > 0 {
      CacheSurvives(c, run[..n], gens[..n]);
      assert Announced(run[n - 1], gens[n - 1], run[n], gens[n]);
      if c.have && c.gen == gens[n] {
        SameKeysSameAnswer(run[n - 1], run[n], c.target, c.ext, c.names);
      }
    }
  }
}
