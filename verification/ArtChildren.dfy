/** Listing the direct children of a prefix without visiting what lies below them. */
module ArtChildren {
  import opened Bytes
  import opened ArtNodes
  import opened ArtTree
  import opened ArtPools
  import opened ArtInsert
  import opened ArtLookup
  import opened ArtScan
  import opened Coord

  /** A child name ends before the first boundary. */
  function NameEnd(r: Key, i: nat): (n: nat)
    requires i <= |r|
    ensures i <= n <= |r| && (n < |r| ==> Boundary(r, n))
    ensures forall j {:trigger Boundary(r, j)} :: i <= j < n ==> !Boundary(r, j)
    decreases |r| - i
  {
    if i == |r| || Boundary(r, i) then i else NameEnd(r, i + 1)
  }

  /** The child of pfx that x shows. */
  function Name(pfx: Key, x: Key): (n: Key)
    requires pfx <= x
    ensures pfx + n <= x
  {
    var r := x[|pfx|..];
    r[..NameEnd(r, 0)]
  }

  /** No '/' and no U+00B7 in it. */
  predicate Unbroken(n: Key) {
    forall i :: 0 <= i < |n| ==> n[i] != 0x2F && !(n[i] == 0xC2 && i + 1 < |n| && n[i + 1] == 0xB7)
  }

  /** Nothing, or '/' or U+00B7 and anything. */
  predicate Rest(rest: Key) {
    rest == [] || rest[0] == 0x2F || (|rest| >= 2 && rest[0] == 0xC2 && rest[1] == 0xB7)
  }

  /** The child that a key shows is what stands between the prefix and the first '/' or U+00B7 after it. */
  lemma NameSpelled(pfx: Key, n: Key, rest: Key, x: Key)
    requires Unbroken(n) && Rest(rest) && pfx <= x
    ensures pfx <= pfx + n + rest && Name(pfx, pfx + n + rest) == n
    ensures exists r :: Rest(r) && x == pfx + Name(pfx, x) + r
    ensures Unbroken(Name(pfx, x))
  {
    var r := (pfx + n + rest)[|pfx|..];
    assert r == n + rest;
    forall j | 0 <= j < |n| ensures !Boundary(r, j) {
      assert r[j] == n[j] && (j + 1 < |n| ==> r[j + 1] == n[j + 1]);
    }
    assert |n| < |r| ==> Boundary(r, |n|);
    assert r[..|n|] == n;
    var s := x[|pfx|..];
    var m := NameEnd(s, 0);
    assert x == pfx + s[..m] + s[m..] && Rest(s[m..]);
    forall i | 0 <= i < m ensures s[i] != 0x2F && !(s[i] == 0xC2 && i + 1 < m && s[i + 1] == 0xB7) {
      assert !Boundary(s, i);
    }
  }

  method ChildNameLen(r: Key) returns (n: nat)
    ensures n == NameEnd(r, 0)
  {
    n := 0;
    while n < |r|
      invariant n <= |r| && NameEnd(r, 0) == NameEnd(r, n)
    {
      if r[n] == SLASH {
        return;
      }
      if n + 1 < |r| && r[n] == DOT0 && r[n + 1] == DOT1 {
        return;
      }
      n := n + 1;
    }
  }

  /** Rechecking from the last byte of an unbounded part finds the boundary of the whole. */
  lemma EndFrom(r: Key, start: nat)
    requires start == 0 || (start < |r| && NameEnd(r[..start + 1], 0) == start + 1)
    requires start <= |r|
    ensures NameEnd(r, 0) == start + NameEnd(r[start..], 0)
  {
    hide Boundary;
    var n, m := NameEnd(r, 0), start + NameEnd(r[start..], 0);
    if m < |r| {
      BoundaryShift(r, start, m);
    }
    if n < start {
      BoundaryCut(r, start + 1, n);
    } else if n < |r| {
      BoundaryShift(r, start, n);
    }
  }

  lemma BoundaryShift(r: Key, start: nat, j: nat)
    requires start <= j < |r|
    ensures Boundary(r[start..], j - start) == Boundary(r, j)
  {
  }

  lemma BoundaryCut(r: Key, m: nat, j: nat)
    requires j + 1 < m <= |r|
    ensures Boundary(r[..m], j) == Boundary(r, j)
  {
  }

  /** A child name has no boundary of its own. */
  lemma NameWhole(pfx: Key, x: Key)
    requires pfx <= x
    ensures NameEnd(Name(pfx, x), 0) == |Name(pfx, x)|
  {
    var n, r := Name(pfx, x), x[|pfx|..];
    var j := NameEnd(n, 0);
    if j < |n| {
      assert Boundary(r, j);
    }
  }

  /** All keys through a node with a boundary show the same child. */
  lemma SameName(pfx: Key, k: Key, x: Key)
    requires pfx <= k <= x && |pfx| + |Name(pfx, k)| < |k|
    ensures Name(pfx, x) == Name(pfx, k)
  {
    var r, s := k[|pfx|..], x[|pfx|..];
    assert r <= s;
    var n, m := NameEnd(r, 0), NameEnd(s, 0);
    assert Boundary(s, n);
    if m < n {
      assert Boundary(r, m);
    }
    assert r[..n] == s[..n];
  }

  predicate ShownBy(pfx: Key, x: Key, e: Key) {
    && pfx <= x && Name(pfx, x) != []
    && (e == Name(pfx, x) || (e == Name(pfx, x) + [SLASH] && x == pfx + e))
  }

  predicate Listed(pfx: Key, x: Key, names: seq<Key>) {
    pfx <= x && Name(pfx, x) != [] ==>
      if x == pfx + Name(pfx, x) + [SLASH] then Name(pfx, x) + [SLASH] in names
      else Name(pfx, x) in names || Name(pfx, x) + [SLASH] in names
  }

  ghost predicate Shown(t: Tree, pfx: Key, k: Key, e: Key)
    requires Named(t)
  {
    exists x :: Under(t, k, x) && ShownBy(pfx, x, e)
  }

  /** Where the code looks for the boundary of a node's part beyond pfx, it finds the first one. */
  lemma RestEnd(buf: Key, tail: Key, pfx: Key, start: nat)
    requires |pfx| < |buf + tail|
    requires start == if |buf| > |pfx| + 1 then |buf| - |pfx| - 2 else 0
    requires |buf| > |pfx| + 1 ==> NameEnd(buf[|pfx|..|buf| - 1], 0) == |buf| - 1 - |pfx|
    ensures var r := (buf + tail)[|pfx|..]; start <= |r| && NameEnd(r, 0) == start + NameEnd(r[start..], 0)
  {
    hide NameEnd;
    var r := (buf + tail)[|pfx|..];
    if start > 0 {
      assert r[..start + 1] == buf[|pfx|..|buf| - 1];
    }
    EndFrom(r, start);
  }

  lemma NameIs(pfx: Key, k: Key)
    requires pfx <= k
    ensures Name(pfx, k) == k[|pfx|..][..NameEnd(k[|pfx|..], 0)] && k == pfx + k[|pfx|..]
  {
  }

  /** Nothing to list: no name, or nobody alive. */
  lemma NoNames(t: Tree, pfx: Key, k: Key)
    requires Named(t) && pfx < k && (Name(pfx, k) == [] || !Alive(t, k))
    ensures forall x :: Under(t, k, x) ==> Listed(pfx, x, [])
  {
    hide Named, Bound, Name;
    forall x | Under(t, k, x) ensures Listed(pfx, x, []) {
      SameName(pfx, k, x);
    }
  }

  /** A boundary inside the node: everything alive below shows one name, as a directory iff its marker is here. */
  lemma OneName(t: Tree, pfx: Key, k: Key, e: Key)
    requires Named(t) && pfx <= k && Alive(t, k) && Name(pfx, k) != [] && |pfx| + |Name(pfx, k)| < |k|
    requires e == if k == pfx + Name(pfx, k) + [SLASH] && Bound(t, k) then Name(pfx, k) + [SLASH] else Name(pfx, k)
    ensures Shown(t, pfx, k, e)
    ensures forall x :: Under(t, k, x) ==> Listed(pfx, x, [e])
  {
    hide Named, Bound, Name;
    var n := Name(pfx, k);
    var x0 :| Under(t, k, x0);
    var x1 := if e == n then x0 else k;
    SameName(pfx, k, x1);
    assert pfx + e == pfx + n + [SLASH] || e == n;
    assert Under(t, k, x1) && ShownBy(pfx, x1, e);
    forall x | Under(t, k, x) ensures Listed(pfx, x, [e]) {
      SameName(pfx, k, x);
      if x == pfx + n + [SLASH] {
        assert x == k;
      }
    }
  }

  /** No boundary in the node: its own key, if alive, is a child name as it stands. */
  lemma OwnName(t: Tree, pfx: Key, k: Key, names: seq<Key>)
    requires Named(t) && pfx <= k && (Name(pfx, k) == k[|pfx|..])
    requires names == if Bound(t, k) && k != pfx then [k[|pfx|..]] else []
    ensures forall e :: e in names ==> Shown(t, pfx, k, e)
    ensures Under(t, k, k) ==> Listed(pfx, k, names)
  {
    hide Named, Bound, Name;
    if Bound(t, k) && k != pfx {
      assert Under(t, k, k) && ShownBy(pfx, k, k[|pfx|..]);
    }
  }

  lemma ListedMore(pfx: Key, names: seq<Key>, more: seq<Key>)
    ensures forall x :: Listed(pfx, x, names) || Listed(pfx, x, more) ==> Listed(pfx, x, names + more)
  {
  }

  lemma ShownAbove(t: Tree, pfx: Key, k: Key, b: byte)
    requires AtRest(t) && Named(t) && k in t.at && b in NodeAt(t, k).edges
    ensures 0 <= NodeAt(t, k).edges[b] < |t.path|
    ensures forall e :: Shown(t, pfx, t.path[NodeAt(t, k).edges[b]], e) ==> Shown(t, pfx, k, e)
  {
    hide Inv, Named, NodeAt, Under, ShownBy;
    UnderChild(t, k, b);
  }

  /** The unbounded part of the parent, as its child sees it. */
  lemma Unbounded(pfx: Key, k: Key, b: byte)
    requires pfx <= k && Name(pfx, k) == k[|pfx|..]
    ensures var buf := k + [b];
            |buf| > |pfx| + 1 ==> NameEnd(buf[|pfx|..|buf| - 1], 0) == |buf| - 1 - |pfx|
  {
    var buf := k + [b];
    assert buf[|pfx|..|buf| - 1] == k[|pfx|..];
  }

  /** The child names below the children of a node that has no boundary, after its own. */
  method ScanEdges(p: ArtPool, nid: int, path: Key, pfx: Key, own: seq<Key>) returns (names: seq<Key>)
    requires p.Valid() && AtRest(p.t) && 0 <= nid < |p.nodes| && nid < |p.t.path| && !p.t.nodes[nid].moved
    requires path == p.t.path[nid] && pfx <= path && Name(pfx, p.t.path[nid]) == p.t.path[nid][|pfx|..]
    requires Named(p.t) && forall e :: e in own ==> Shown(p.t, pfx, p.t.path[nid], e)
    requires Under(p.t, p.t.path[nid], p.t.path[nid]) ==> Listed(pfx, p.t.path[nid], own)
    ensures Named(p.t) && forall e :: e in names ==> Shown(p.t, pfx, p.t.path[nid], e)
    ensures forall x :: Under(p.t, p.t.path[nid], x) ==> Listed(pfx, x, names)
    decreases KEY_LIMIT - |p.t.path[nid]|, 0
  {
    hide Inv, Bound, NodeAt, Named, AtRest, Under, Listed, Shown, Boundary, Name, ArtPool.Valid, ArtNode.Valid;
    RestNamed(p.t);
    PoolSizes(p);
    StandingNode(p.t, nid);
    NodeMatches(p, nid);
    ghost var t, k := p.t, p.t.path[nid];
    var l := Edges(p.nodes[nid]);
    UnderSplit(t, k, l);
    names := own;
    for i := 0 to |l|
      invariant forall e :: e in names ==> Shown(t, pfx, k, e)
      invariant Under(t, k, k) ==> Listed(pfx, k, names)
      invariant forall j, x :: 0 <= j < i && 0 <= l[j].1 < |t.path| && Under(t, t.path[l[j].1], x) ==>
        Listed(pfx, x, names)
    {
      ChildNode(t, k, l[i].0);
      ShownAbove(t, pfx, k, l[i].0);
      Unbounded(pfx, k, l[i].0);
      var sub := ScanChildren(p, l[i].1, path + [l[i].0], pfx);
      ListedMore(pfx, names, sub);
      names := names + sub;
    }
  }

  /** The child names below one node; `buf` spells the slot it hangs from. */
  method ScanChildren(p: ArtPool, nid: int, buf: Key, pfx: Key) returns (names: seq<Key>)
    requires p.Valid() && AtRest(p.t) && 0 <= nid < |p.nodes| && nid < |p.t.path| && !p.t.nodes[nid].moved
    requires p.t.path[nid] == buf + p.t.nodes[nid].prefix && pfx <= p.t.path[nid]
    requires |buf| > |pfx| + 1 ==> NameEnd(buf[|pfx|..|buf| - 1], 0) == |buf| - 1 - |pfx|
    ensures Named(p.t) && forall e :: e in names ==> Shown(p.t, pfx, p.t.path[nid], e)
    ensures forall x :: Under(p.t, p.t.path[nid], x) ==> Listed(pfx, x, names)
    decreases KEY_LIMIT - |p.t.path[nid]|, 1
  {
    hide Inv, Bound, NodeAt, Named, AtRest, Under, Listed, Shown, Boundary, Name, ArtPool.Valid, ArtNode.Valid;
    RestNamed(p.t);
    PoolSizes(p);
    StandingNode(p.t, nid);
    NodeMatches(p, nid);
    ghost var t, k := p.t, p.t.path[nid];
    var h := p.nodes[nid];
    names := [];
    var start := if |buf| > |pfx| + 1 then |buf| - |pfx| - 2 else 0;
    var path := buf + h.prefix;
    NameIs(pfx, path);
    if |path| > |pfx| {
      var rest := path[|pfx|..];
      var len := ChildNameLen(rest[start..]);
      len := start + len;
      RestEnd(buf, h.prefix, pfx, start);
      if len < |rest| {
        if len == 0 {
          NoNames(t, pfx, k);
          return;
        }
        var live := HasLiveValue(p, nid);
        if !live {
          NoNames(t, pfx, k);
          return;
        }
        if rest[len] == SLASH && len + 1 == |rest| && h.word.has {
          OneName(t, pfx, k, rest[..len + 1]);
          return [rest[..len + 1]];
        }
        OneName(t, pfx, k, rest[..len]);
        return [rest[..len]];
      }
      if h.word.has {
        names := [rest];
      }
    }
    OwnName(t, pfx, k, names);
    names := ScanEdges(p, nid, path, pfx, names);
  }

  predicate Whole(n: Key) {
    n != [] && NameEnd(n, 0) == |n|
  }

  ghost predicate HasChild(t: Tree, pfx: Key, n: Key)
    requires Named(t)
  {
    exists x :: x in Contents(t) && pfx <= x && Name(pfx, x) == n
  }

  /** What a flat filter over the key map would list: each child name, as "name/" exactly when that marker is live. */
  ghost predicate Children(t: Tree, pfx: Key, names: seq<Key>)
    requires Named(t)
  {
    && (forall e :: e in names ==> Whole(Stem(e)))
    && (forall n :: Whole(n) ==> (HasChild(t, pfx, n) <==> n in names || n + [SLASH] in names))
    && (forall n :: Whole(n) ==> (pfx + n + [SLASH] in Contents(t) <==> n + [SLASH] in names))
  }

  lemma WholeStem(n: Key)
    requires Whole(n)
    ensures Stem(n) == n && Stem(n + [SLASH]) == n
  {
    assert !Boundary(n, |n| - 1);
  }

  lemma MarkerName(pfx: Key, n: Key)
    requires Whole(n)
    ensures Name(pfx, pfx + n + [SLASH]) == n
  {
    var x := pfx + n + [SLASH];
    var r := x[|pfx|..];
    assert r == n + [SLASH];
    assert Boundary(r, |n|);
    var j := NameEnd(r, 0);
    if j < |n| {
      assert Boundary(n, j);
    }
  }

  /** Names that are shown and cover every live key are the children. */
  lemma ShownIsChildren(t: Tree, pfx: Key, names: seq<Key>, k: Key)
    requires Named(t) && (forall x :: x in Contents(t) && pfx <= x ==> Under(t, k, x))
    requires forall e :: e in names ==> Shown(t, pfx, k, e)
    requires forall x :: Under(t, k, x) ==> Listed(pfx, x, names)
    ensures Children(t, pfx, names)
  {
    hide Named, NameEnd, Name, Contents, Bound;
    LiveKeys(t);
    forall e | e in names
      ensures Whole(Stem(e)) && HasChild(t, pfx, Stem(e))
      ensures e == Stem(e) || (e == Stem(e) + [SLASH] && pfx + e in Contents(t))
    {
      ShownChild(t, pfx, k, e);
    }
    forall n | Whole(n) ensures (HasChild(t, pfx, n) <==> n in names || n + [SLASH] in names)
                        ensures pfx + n + [SLASH] in Contents(t) <==> n + [SLASH] in names {
      WholeStem(n);
      MarkerName(pfx, n);
      assert pfx + (n + [SLASH]) == pfx + n + [SLASH];
    }
  }

  lemma ShownChild(t: Tree, pfx: Key, k: Key, e: Key)
    requires Named(t) && Shown(t, pfx, k, e)
    ensures Whole(Stem(e)) && HasChild(t, pfx, Stem(e))
    ensures (e == Stem(e) || (e == Stem(e) + [SLASH] && pfx + e in Contents(t)))
  {
    hide Named, NameEnd, Name, Contents, Bound;
    LiveKeys(t);
    var x :| Under(t, k, x) && ShownBy(pfx, x, e);
    NameWhole(pfx, x);
    WholeStem(Name(pfx, x));
  }

  /** List the direct children of pfx; a prefix that does not fit the buffer is refused. */
  method ScanPfx(p: ArtPool, pfx: Key) returns (ok: bool, names: seq<Key>)
    requires p.Valid() && AtRest(p.t)
    ensures ok == (|pfx| < SCAN_BUFFER)
    ensures Named(p.t) && (ok ==> Children(p.t, pfx, names))
  {
    hide Inv, NodeAt, Named, Listed, NameEnd, Name, Shown, Children;
    RestNamed(p.t);
    LiveKeys(p.t);
    names := [];
    if |pfx| >= SCAN_BUFFER {
      return false, names;
    }
    var nid, bpos := Cover(p, pfx);
    if nid < 0 {
      ShownIsChildren(p.t, pfx, names, pfx);
      return true, names;
    }
    names := ScanChildren(p, nid, pfx[..bpos], pfx);
    ShownIsChildren(p.t, pfx, names, p.t.path[nid]);
    return true, names;
  }
}
