/** Lookup by key, by cached reference, and deletion. */
module ArtLookup {
  import opened Bytes
  import opened ArtNodes
  import opened ArtTree
  import opened ArtSteps
  import opened ArtPools
  import opened ArtInsert

  ghost predicate Bound(t: Tree, key: Key)
    requires Named(t)
  {
    key in t.at && NodeAt(t, key).word.has
  }

  /** The node id that holds the value of key, or -1. */
  ghost function Holder(t: Tree, key: Key): int
    requires Named(t)
  {
    if Bound(t, key) then t.at[key] else -1
  }

  /** A walk for key that has used d bytes is at node nid, or has already missed. */
  ghost predicate Walking(t: Tree, nid: int, key: Key, d: nat) {
    Inv(t, map[]) && d <= |key| && if nid < 0 then key !in t.at else Hangs(t, key[..d], nid)
  }

  lemma WalkStarts(t: Tree, key: Key)
    requires Inv(t, map[])
    ensures Walking(t, t.root, key, 0)
  {
    hide Named, Forwards, Up, EdgesHang, SlotsHang;
    assert key[..0] == [];
    if t.root < 0 && key in t.at {
      NothingBehind(t, map[], [], key);
    }
  }

  /** At a node whose prefix does not continue key, the walk has missed; at its end it has arrived. */
  lemma WalkPrefix(t: Tree, nid: int, key: Key, d: nat)
    requires Walking(t, nid, key, d) && nid >= 0
    ensures nid < |t.nodes| == |t.path| && !t.nodes[nid].moved
    ensures var pfx := t.nodes[nid].prefix;
            && (!(pfx <= key[d..]) ==> key !in t.at)
            && (pfx <= key[d..] ==> key[..d + |pfx|] in t.at && t.at[key[..d + |pfx|]] == nid)
  {
    hide Forwards, Up, Down;
    HangingNode(t, key[..d], nid);
    var pfx := t.nodes[nid].prefix;
    assert key == key[..d] + key[d..];
    if pfx <= key[d..] {
      assert key[..d + |pfx|] == key[..d] + pfx;
    } else {
      Continues(key, d, pfx);
      if key in t.at { SlotLeadsTo(t, map[], t.path[nid], key); }
    }
  }

  lemma Continues(key: Key, d: nat, pfx: Key)
    requires d <= |key|
    ensures key[..d] + pfx <= key ==> pfx <= key[d..]
  {
    if key[..d] + pfx <= key {
      assert key[d..d + |pfx|] == key[..d + |pfx|][d..] == pfx;
    }
  }

  lemma WalkEdge(t: Tree, key: Key, e: nat, c: int)
    requires Inv(t, map[]) && e < |key| && key[..e] in t.at
    requires c == if key[e] in NodeAt(t, key[..e]).edges then NodeAt(t, key[..e]).edges[key[e]] else -1
    ensures Walking(t, c, key, e + 1)
  {
    hide Forwards, Up, SlotsHang, NodeAt, Named, Hangs;
    var s := key[..e + 1];
    assert s == key[..e] + [key[e]] && s[..|s| - 1] == key[..e] && s[|s| - 1] == key[e];
    if key[e] in NodeAt(t, key[..e]).edges {
      HangsAt(t, s, c);
    } else if key in t.at {
      NothingBehind(t, map[], s, key);
    }
  }

  lemma HangsAt(t: Tree, s: Key, c: int)
    requires Named(t) && Hangs(t, s, c)
    ensures c >= 0
  {
  }

  /** Descends for key from node nid, d bytes in. */
  method Walk(p: ArtPool, nid: int, key: Key, d: nat) returns (r: int)
    requires p.Valid() && Walking(p.t, nid, key, d)
    ensures Named(p.t) && r == Holder(p.t, key)
  {
    hide Inv, Named, NodeAt, Hangs, Bound;
    var n, e := nid, d;
    while n >= 0
      invariant Walking(p.t, n, key, e)
      decreases |key| - e, n
    {
      WalkPrefix(p.t, n, key, e);
      var h := p.nodes[n];
      var s := PfxShared(h.prefix, key[e..]);
      if s != |h.prefix| {
        MissHolder(p.t, key);
        return -1;
      }
      e := e + |h.prefix|;
      WalkNamed(p.t, key[..e]);
      if e == |key| {
        assert key[..e] == key;
        HitHolder(p.t, key);
        return if h.word.has then n else -1;
      }
      n := h.Child(key[e]);
      WalkEdge(p.t, key, e, n);
      e := e + 1;
    }
    MissHolder(p.t, key);
    return -1;
  }

  lemma WalkNamed(t: Tree, k: Key)
    requires Inv(t, map[]) && k in t.at
    ensures Named(t) && 0 <= t.at[k] < |t.nodes| && NodeAt(t, k) == t.nodes[t.at[k]] && !NodeAt(t, k).moved
  {
    hide Named, Forwards, Up, Down, NodeAt;
    NodeIs(t, k);
  }

  lemma MissHolder(t: Tree, key: Key)
    requires Inv(t, map[]) && key !in t.at
    ensures Named(t) && Holder(t, key) == -1
  {
    hide Named, Forwards, Up, Down;
  }

  lemma HitHolder(t: Tree, key: Key)
    requires Inv(t, map[]) && key in t.at
    ensures Named(t) && Holder(t, key) == if NodeAt(t, key).word.has then t.at[key] else -1
  {
    hide Named, Forwards, Up, Down;
  }

  /** Search from the root. */
  method Find(p: ArtPool, key: Key) returns (r: int)
    requires p.Valid() && Inv(p.t, map[])
    ensures Named(p.t) && r == Holder(p.t, key)
  {
    hide Inv, Named, Holder;
    WalkStarts(p.t, key);
    r := Walk(p, p.root, key, 0);
  }

  /** Ids of which each but the last is a stub that forwards to the next: |ids| - 1 hops. */
  ghost predicate Stubs(t: Tree, ids: seq<nat>) {
    ids != [] && (forall i :: 0 <= i < |ids| ==> ids[i] < |t.nodes|)
    && forall i :: 0 <= i < |ids| - 1 ==> t.nodes[ids[i]].moved && t.nodes[ids[i]].word.off == ids[i + 1]
  }

  /** Layouts only get larger along a chain of stubs, so no chain, followed or not, has more than three hops. */
  lemma {:induction false} ThreeHops(t: Tree, ids: seq<nat>)
    requires Inv(t, map[]) && Stubs(t, ids)
    ensures t.nodes[ids[|ids| - 1]].rank >= |ids| - 1 && |ids| <= 4
  {
    hide Inv;
    IdPath(t, ids[|ids| - 1]);
    if |ids| > 1 {
      ThreeHops(t, ids[..|ids| - 1]);
      IdPath(t, ids[|ids| - 2]);
    }
  }

  /** Follows the stubs that growth left behind; at most three, so eight steps always suffice. */
  method Follow(p: ArtPool, id: nat) returns (r: int, ghost chain: seq<nat>)
    requires p.Valid() && Inv(p.t, map[]) && id < |p.nodes|
    ensures Stubs(p.t, chain) && chain[0] == id && chain[|chain| - 1] == r && |chain| <= 4
    ensures |p.t.path| == |p.t.nodes| == |p.nodes| && p.t.path[id] in p.t.at && r == p.t.at[p.t.path[id]]
  {
    hide Inv, Matches;
    IdPath(p.t, id);
    r, chain := id, [id];
    for i := 0 to 8
      invariant 0 <= r < |p.nodes| && p.t.path[r] == p.t.path[id]
      invariant Stubs(p.t, chain) && |chain| == i + 1 && chain[0] == id && chain[i] == r
      invariant p.t.nodes[r].rank >= i
    {
      IdPath(p.t, r);
      var h := p.nodes[r];
      NodeMatches(p, r);
      if h.kind != Moved {
        return;
      }
      r := h.word.off;
      chain := chain + [r];
    }
    IdPath(p.t, r);
    assert false;
  }

  lemma NodeMatches(p: ArtPool, id: nat)
    requires p.Valid() && id < |p.nodes|
    ensures p.t.nodes[id].moved == (p.nodes[id].kind == Moved) && p.t.nodes[id].word == p.nodes[id].word
    ensures p.nodes[id].Valid() && p.t.nodes[id].prefix == p.nodes[id].prefix
    ensures p.nodes[id].kind != Moved ==> p.t.nodes[id].edges == p.nodes[id].edges
  {
  }

  /** Every id ever handed out has a standing node at its path; a stub points one layout further towards it. */
  lemma IdPath(t: Tree, id: nat)
    requires Inv(t, map[]) && id < |t.nodes|
    ensures |t.path| == |t.nodes| && t.path[id] in t.at && t.nodes[id].rank <= 3
    ensures !t.nodes[id].moved ==> t.at[t.path[id]] == id
    ensures t.nodes[id].moved ==> t.nodes[id].word.off < |t.nodes| && t.path[t.nodes[id].word.off] == t.path[id]
                                  && t.nodes[t.nodes[id].word.off].rank > t.nodes[id].rank
  {
    hide Down, Up;
  }

  /** A cached reference: the node of the key, and the deepest-needed ancestor with the bytes its path takes. */
  datatype Ref = Ref(block: nat, gen: nat, parent: nat, depth: nat)

  /** `len` bytes at position `at` are the last separator of key, '/' or U+00B7; a lone '/' at the front is none. */
  predicate LastSep(key: Key, at: int, len: nat) {
    if at < 0 then at == -1 && len == 0 && forall j :: 0 <= j < |key| && Boundary(key, j) ==> j == 0 && key[j] == SLASH
    else
      && at < |key| && Boundary(key, at) && len == (if key[at] == SLASH then 1 else 2) && (at == 0 ==> len == 2)
      && forall j :: at < j < |key| ==> !Boundary(key, j)
  }

  /** The last separator of a key: a path slash or a two-byte member dot. */
  method LastKeySep(key: Key) returns (at: int, len: nat)
    ensures LastSep(key, at, len)
    ensures -1 <= at && at + len <= |key| && (at >= 0 ==> len > 0)
    ensures at >= 0 ==> Boundary(key, at) && len == (if key[at] == SLASH then 1 else 2) && (at == 0 ==> len == 2)
    ensures at < 0 ==> len == 0
    ensures forall j :: at < j < |key| && Boundary(key, j) ==> at < 0 && j == 0 && key[j] == SLASH
  {
    var slash, mid := -1, -1;
    for i := 0 to |key|
      invariant -1 <= slash < i && -1 <= mid < i &&
        (mid >= 0 ==> mid + 1 < |key| && key[mid] == DOT0 && key[mid + 1] == DOT1)
      invariant slash >= 0 ==> key[slash] == SLASH
      invariant forall j :: 0 <= j < i && Boundary(key, j) ==> if key[j] == SLASH then j <= slash else j <= mid
    {
      if key[i] == SLASH {
        slash := i;
      }
      if i + 1 < |key| && key[i] == DOT0 && key[i + 1] == DOT1 {
        mid := i;
      }
    }
    if mid > slash {
      return mid, 2;
    }
    if slash > 0 {
      return slash, 1;
    }
    return -1, 0;
  }

  /** The node at k has the separator among the bytes of its own prefix, or ends right after it. */
  ghost predicate Covers(t: Tree, k: Key, sep: int, seplen: nat)
    requires Named(t) && k in t.at
  {
    |Base(t, k)| <= sep < |k| || |k| == sep + seplen
  }

  /** No node on the way to key that ends within fewer than e bytes covers the separator. */
  ghost predicate Uncovered(t: Tree, key: Key, sep: int, seplen: nat, e: nat)
    requires Named(t)
  {
    forall j {:trigger key[..j]} :: 0 <= j < e && j <= |key| && key[..j] in t.at ==> !Covers(t, key[..j], sep, seplen)
  }

  /** Between the slot of a node on the way and its end nothing else stands. */
  lemma UncoveredStep(t: Tree, n: int, key: Key, e: nat, sep: int, seplen: nat)
    requires Walking(t, n, key, e) && n >= 0 && n < |t.nodes| && t.nodes[n].prefix <= key[e..]
    requires Named(t) && Uncovered(t, key, sep, seplen, e)
    ensures var k := key[..e + |t.nodes[n].prefix|];
            && k in t.at && Uncovered(t, key, sep, seplen, |k|)
            && (Covers(t, k, sep, seplen) <==> e <= sep < |k| || |k| == sep + seplen)
            && (!Covers(t, k, sep, seplen) ==> Uncovered(t, key, sep, seplen, |k| + 1))
  {
    hide Forwards, Up, Down, Covers;
    HangingNode(t, key[..e], n);
    WalkPrefix(t, n, key, e);
    var k := key[..e + |t.nodes[n].prefix|];
    assert t.path[n] == k;
    forall j | e <= j < |k| && key[..j] in t.at ensures false {
      SlotLeadsTo(t, map[], k, key[..j]);
    }
    CoversIs(t, k, sep, seplen);
  }

  lemma CoversIs(t: Tree, k: Key, sep: int, seplen: nat)
    requires Named(t) && k in t.at
    ensures Covers(t, k, sep, seplen) <==> |Base(t, k)| <= sep < |k| || |k| == sep + seplen
  {
  }

  /** One walk that finds the holder of key and, on the way, the first node that covers the separator. */
  method FindDir(p: ArtPool, key: Key, sep: int, seplen: nat) returns (r: int, dir: int, dird: nat)
    requires p.Valid() && Inv(p.t, map[])
    ensures Named(p.t) && r == Holder(p.t, key)
    ensures dir >= 0 ==> 0 < sep < dird <= |key| && key[..dird] in p.t.at && dir == p.t.at[key[..dird]]
    ensures dir >= 0 ==> Covers(p.t, key[..dird], sep, seplen) && Uncovered(p.t, key, sep, seplen, dird)
    ensures key in p.t.at && dir < 0 && sep > 0 && seplen > 0 ==> Uncovered(p.t, key, sep, seplen, |key| + 1)
    ensures key !in p.t.at ==> dir == -1 && dird == 0
  {
    hide Inv, Named, NodeAt, Hangs, Bound, Base, Covers, Uncovered, ArtPool.Valid, ArtNode.Valid;
    WalkStarts(p.t, key);
    PoolSizes(p);
    NothingUncovered(p.t, key, sep, seplen);
    var n, e, d, dd := p.root, 0, -1, 0;
    while n >= 0
      invariant Walking(p.t, n, key, e)
      invariant d < 0 && sep > 0 && seplen > 0 ==> Uncovered(p.t, key, sep, seplen, e)
      invariant d >= 0 ==> 0 < sep < dd <= |key| && key[..dd] in p.t.at && d == p.t.at[key[..dd]]
      invariant d >= 0 ==> Covers(p.t, key[..dd], sep, seplen) && Uncovered(p.t, key, sep, seplen, dd)
      invariant d < 0 ==> d == -1 && dd == 0
      decreases |key| - e, n
    {
      WalkPrefix(p.t, n, key, e);
      NodeMatches(p, n);
      var h := p.nodes[n];
      var s := PfxShared(h.prefix, key[e..]);
      if s != |h.prefix| {
        MissHolder(p.t, key);
        return -1, -1, 0;
      }
      var entry := e;
      e := e + |h.prefix|;
      WalkNamed(p.t, key[..e]);
      if d < 0 && sep > 0 && seplen > 0 {
        UncoveredStep(p.t, n, key, entry, sep, seplen);
        if (entry <= sep && sep < e) || e == sep + seplen {
          d, dd := n, e;
        }
      }
      if e == |key| {
        assert key[..e] == key;
        HitHolder(p.t, key);
        return if h.word.has then n else -1, d, dd;
      }
      n := h.Child(key[e]);
      WalkEdge(p.t, key, e, n);
      e := e + 1;
    }
    MissHolder(p.t, key);
    return -1, -1, 0;
  }

  lemma NothingUncovered(t: Tree, key: Key, sep: int, seplen: nat)
    requires Inv(t, map[])
    ensures Named(t) && Uncovered(t, key, sep, seplen, 0)
  {
    hide Forwards, Up, Down;
  }

  /** Does the reference fit the tree: a leaf reference to key, or a directory reference `gen` bytes deep? */
  ghost predicate LeafRef(t: Tree, ref: Ref, key: Key) {
    ref.block < |t.path| && t.path[ref.block] == key && ref.gen == 0
  }

  ghost predicate DirRef(t: Tree, ref: Ref, key: Key) {
    0 < ref.gen <= |key| && ref.block < |t.path| && t.path[ref.block] == key[..ref.gen]
  }

  /** The reference to a live key, with the first node on the way to it that has the last separator in its own prefix or
      ends with it, if there is one. */
  method ResolveRef(p: ArtPool, key: Key) returns (r: Option<Ref>)
    requires p.Valid() && Inv(p.t, map[])
    ensures Named(p.t) && (r.Some? <==> Bound(p.t, key) && !ReservedMeta(key))
    ensures r.Some? ==> LeafRef(p.t, r.value, key)
    ensures r.Some? && r.value.depth > 0 ==> DirRef(p.t, Ref(r.value.parent, r.value.depth, 0, 0), key)
    ensures r.Some? ==> forall at, len :: LastSep(key, at, len) ==> DirDepth(p.t, key, at, len, r.value.depth)
  {
    hide Inv, Named, NodeAt, LastSep, DirDepth;
    MissOrHit(p.t, key);
    if ReservedMeta(key) {
      return None;
    }
    var sep, seplen := LastKeySep(key);
    OneLastSep(key, sep, seplen);
    var id, dir, dird := FindDir(p, key, sep, seplen);
    if id < 0 {
      NoHolder(p.t, key);
      return None;
    }
    HolderPath(p.t, key);
    if dir >= 0 && dird > 0 {
      WalkNamed(p.t, key[..dird]);
      PathOfNode(p.t, key[..dird]);
      r := Some(Ref(id, 0, dir, dird));
    } else {
      r := Some(Ref(id, 0, 0, 0));
    }
    DepthIs(p.t, key, sep, seplen, r.value.depth);
  }

  /** The node at the first j bytes of key has the separator in its prefix, or ends with it. */
  ghost predicate HasSep(t: Tree, key: Key, at: int, len: nat, j: int)
    requires Named(t)
  {
    0 < at < j <= |key| && key[..j] in t.at && (|Base(t, key[..j])| <= at || j == at + len)
  }

  /** How deep a directory reference is: the length of the shortest such path, 0 when there is none. */
  ghost predicate DirDepth(t: Tree, key: Key, at: int, len: nat, depth: nat)
    requires Named(t)
  {
    (depth > 0 ==> HasSep(t, key, at, len, depth)) && forall j :: HasSep(t, key, at, len, j) ==> 0 < depth <= j
  }

  lemma DepthIs(t: Tree, key: Key, at: int, len: nat, depth: nat)
    requires Named(t) && LastSep(key, at, len)
    requires depth > 0 ==> 0 < at < depth <= |key| && key[..depth] in t.at
    requires depth > 0 ==> Covers(t, key[..depth], at, len) && Uncovered(t, key, at, len, depth)
    requires depth == 0 && at > 0 && len > 0 ==> Uncovered(t, key, at, len, |key| + 1)
    ensures DirDepth(t, key, at, len, depth)
  {
    hide Base;
    forall j | HasSep(t, key, at, len, j) ensures 0 < depth <= j {
      CoversIs(t, key[..j], at, len);
      assert Covers(t, key[..j], at, len);
    }
  }

  lemma OneLastSep(key: Key, at: int, len: nat)
    requires LastSep(key, at, len)
    ensures forall a, l :: LastSep(key, a, l) ==> a == at && l == len
  {
    forall a, l | LastSep(key, a, l) ensures a == at && l == len {
      if a >= 0 && at >= 0 {
        assert Boundary(key, a) && Boundary(key, at);
      }
    }
  }

  lemma PathOfNode(t: Tree, k: Key)
    requires Inv(t, map[]) && k in t.at
    ensures 0 <= t.at[k] < |t.nodes| == |t.path| && t.path[t.at[k]] == k
  {
    hide Forwards, Down, Up;
  }

  lemma NoHolder(t: Tree, key: Key)
    requires Inv(t, map[])
    ensures Named(t) && (Holder(t, key) < 0 <==> !Bound(t, key))
  {
    hide Forwards, Down, Up;
  }

  lemma HolderPath(t: Tree, key: Key)
    requires Inv(t, map[])
    ensures Named(t)
    ensures (Holder(t, key) >= 0 ==> Bound(t, key) && Holder(t, key) < |t.path| && t.path[Holder(t, key)] == key)
  {
    hide Forwards, Down, Up;
  }

  /** The node a reference leads to: the leaf itself, or a search from the parent for the rest of key. The reference
      comes back with its stubs followed. */
  method RefLeaf(p: ArtPool, ref: Ref, key: Key) returns (r: int, ref': Ref)
    requires p.Valid() && Inv(p.t, map[])
    requires LeafRef(p.t, ref, key) || DirRef(p.t, ref, key)
    ensures Named(p.t)
    ensures ref.gen == 0 || ref.gen == |key| ==> key in p.t.at && r == p.t.at[key]
    ensures 0 < ref.gen < |key| ==> r == Holder(p.t, key)
    ensures ref'.gen == ref.gen && (LeafRef(p.t, ref', key) || DirRef(p.t, ref', key))
  {
    hide Inv, Named, NodeAt, Hangs, Bound;
    PoolSizes(p);
    var id, _ := Follow(p, ref.block);
    ref' := ref.(block := id);
    PathOfNode(p.t, p.t.path[ref.block]);
    MissOrHit(p.t, key);
    if ref.gen == 0 {
      return id, ref';
    }
    if ref.gen == |key| {
      assert key[..|key|] == key;
      PathOfNode(p.t, key);
      var again, _ := Follow(p, id);
      return again, ref';
    }
    WalkNamed(p.t, key[..ref.gen]);
    var h := p.nodes[id];
    var c := h.Child(key[ref.gen]);
    WalkEdge(p.t, key, ref.gen, c);
    if c < 0 {
      MissHolder(p.t, key);
      return -1, ref';
    }
    r := Walk(p, c, key, ref.gen + 1);
  }

  lemma MissOrHit(t: Tree, key: Key)
    requires Inv(t, map[])
    ensures Named(t)
  {
    hide Named, Forwards, Down, Up;
  }

  lemma InRepr(p: ArtPool, id: nat)
    requires p.Valid() && id < |p.nodes|
    ensures p.nodes[id] in p.repr
  {
  }

  lemma PoolSizes(p: ArtPool)
    requires p.Valid() && Inv(p.t, map[])
    ensures |p.t.path| == |p.t.nodes| == |p.nodes| && p.root == p.t.root
  {
    hide Forwards, Down, Up;
  }

  ghost function Lookup(t: Tree, key: Key): Option<nat>
    requires Named(t)
  {
    if key in Contents(t) then Some(Contents(t)[key]) else None
  }

  /** The box of key, by search from the root. */
  method Get(p: ArtPool, key: Key) returns (r: Option<nat>)
    requires p.Valid() && Inv(p.t, map[])
    ensures Named(p.t) && r == Lookup(p.t, key)
  {
    hide Inv, Named, NodeAt;
    var id := Find(p, key);
    HolderLookup(p.t, key);
    if id < 0 {
      return None;
    }
    return Some(p.nodes[id].word.off);
  }

  lemma HolderLookup(t: Tree, key: Key)
    requires Inv(t, map[])
    ensures Named(t)
    ensures Holder(t, key) >= 0 ==>
      Holder(t, key) < |t.nodes| && Lookup(t, key) == Some(t.nodes[Holder(t, key)].word.off)
    ensures Holder(t, key) < 0 ==> Lookup(t, key) == None
    ensures key in t.at ==> 0 <= t.at[key] < |t.nodes| && NodeAt(t, key) == t.nodes[t.at[key]]
    ensures key in t.at ==> (Bound(t, key) <==> t.nodes[t.at[key]].word.has)
  {
    hide Forwards, Down, Up;
  }

  lemma LookupBound(t: Tree, key: Key)
    requires Named(t)
    ensures Lookup(t, key).Some? <==> Bound(t, key)
  {
  }

  /** References never expire: whatever has happened since, the id still spells the same path. */
  lemma {:induction false} RefsLast(run: seq<Tree>, writes: seq<set<Key>>, ref: Ref, key: Key)
    requires 0 < |run| == |writes| + 1
    requires forall i :: 0 <= i < |writes| ==> Evolves(run[i], run[i + 1], writes[i])
    ensures LeafRef(run[0], ref, key) ==> LeafRef(run[|writes|], ref, key)
    ensures DirRef(run[0], ref, key) ==> DirRef(run[|writes|], ref, key)
  {
    if |writes| > 0 {
      RefsLast(run[..|writes|], writes[..|writes| - 1], ref, key);
      var t, t' := run[|writes| - 1], run[|writes|];
      assert Evolves(t, t', writes[|writes| - 1]);
      assert ref.block < |t.path| ==> t'.path[ref.block] == t.path[ref.block];
    }
  }

  /** A view token remembers the word and the generation of a node. If at the end of a run in which every step writes
      only behind a changed generation both are as they were, then the node was bound to that same box all along. */
  lemma {:induction false} TokensCatchChange(run: seq<Tree>, id: nat, w: Word)
    requires 0 < |run| && id < |run[0].nodes|
    requires forall i :: 0 <= i < |run| - 1 ==> Evolves(run[i], run[i + 1], {})
    requires run[0].nodes[id].word == w
    ensures id < |run[|run| - 1].nodes|
    ensures run[|run| - 1].nodes[id].gen >= run[0].nodes[id].gen
    ensures run[|run| - 1].nodes[id].gen == run[0].nodes[id].gen && run[|run| - 1].nodes[id].word.has ==>
              forall i :: 0 <= i < |run| ==> id < |run[i].nodes| && run[i].nodes[id].word == w
  {
    var n := |run| - 1;
    if n > 0 {
      TokensCatchChange(run[..n], id, w);
      var t, t' := run[n - 1], run[n];
      assert Evolves(t, t', {});
      if t'.nodes[id].gen == run[0].nodes[id].gen && t'.nodes[id].word.has {
        assert t'.nodes[id].word == t.nodes[id].word;
        assert forall i :: 0 <= i < n ==> run[..n][i] == run[i];
      }
    }
  }

  // ---- what covers a prefix ----

  /** A walk for the prefix pfx that has used d bytes is at node n, or nothing stands behind pfx. */
  ghost predicate Covering(t: Tree, n: int, pfx: Key, d: nat) {
    && Inv(t, map[]) && d <= |pfx|
    && if n < 0 then forall x :: x in t.at ==> !(pfx <= x) else Named(t) && Hangs(t, pfx[..d], n)
  }

  lemma CoverStarts(t: Tree, pfx: Key)
    requires Inv(t, map[])
    ensures Covering(t, t.root, pfx, 0)
  {
    hide Named, Forwards, Up, EdgesHang, SlotsHang;
    assert pfx[..0] == [];
    if t.root < 0 {
      NothingBeyond(t, [], pfx);
    }
  }

  lemma CoverNode(t: Tree, n: int, pfx: Key, d: nat)
    requires Covering(t, n, pfx, d) && n >= 0
    ensures n < |t.nodes| == |t.path| && !t.nodes[n].moved && t.path[n] == pfx[..d] + t.nodes[n].prefix
    ensures t.path[n] in t.at && t.at[t.path[n]] == n
    ensures forall x :: x in t.at && pfx <= x ==> t.path[n] <= x
    ensures var h := t.nodes[n].prefix;
            && (h <= pfx[d..] ==> pfx[..d + |h|] in t.at && t.at[pfx[..d + |h|]] == n && pfx[..d + |h|] == t.path[n])
            && (pfx[d..] <= h ==> pfx <= t.path[n])
            && (!(h <= pfx[d..]) && !(pfx[d..] <= h) ==> forall x :: x in t.at ==> !(pfx <= x))
  {
    hide Forwards, Up, Down;
    HangingNode(t, pfx[..d], n);
    var h := t.nodes[n].prefix;
    assert pfx == pfx[..d] + pfx[d..];
    forall x | x in t.at && pfx <= x ensures t.path[n] <= x && (h <= pfx[d..] || pfx[d..] <= h) {
      SlotLeadsTo(t, map[], t.path[n], x);
      BothPrefix(pfx, d, h, x);
    }
    if h <= pfx[d..] {
      assert pfx[..d + |h|] == pfx[..d] + h;
    }
  }

  lemma BothPrefix(pfx: Key, d: nat, h: Key, x: Key)
    requires d <= |pfx| && pfx <= x && pfx[..d] + h <= x
    ensures h <= pfx[d..] || pfx[d..] <= h
  {
    assert x[d..][..|h|] == x[d..d + |h|] == (pfx[..d] + h)[d..] == h;
    assert x[d..][..|pfx| - d] == pfx[d..];
  }

  lemma CoverEdge(t: Tree, pfx: Key, e: nat, c: int)
    requires Inv(t, map[]) && Named(t) && e < |pfx| && pfx[..e] in t.at
    requires c == if pfx[e] in NodeAt(t, pfx[..e]).edges then NodeAt(t, pfx[..e]).edges[pfx[e]] else -1
    ensures Covering(t, c, pfx, e + 1)
  {
    hide Forwards, Up, SlotsHang, NodeAt, Named, Hangs;
    var s := pfx[..e + 1];
    assert s == pfx[..e] + [pfx[e]] && s[..|s| - 1] == pfx[..e] && s[|s| - 1] == pfx[e];
    if pfx[e] in NodeAt(t, pfx[..e]).edges {
      HangsAt(t, s, c);
    } else {
      NothingBeyond(t, s, pfx);
    }
  }

  /** Nothing stands behind a vacant slot, nor behind anything longer. */
  lemma NothingBeyond(t: Tree, s: Key, pfx: Key)
    requires Inv(t, map[]) && Target(t, map[], s) == -1 && s <= pfx && (s == [] || s[..|s| - 1] in t.at)
    ensures forall x :: x in t.at ==> !(pfx <= x)
  {
    hide Inv, Target, Named;
    forall x | x in t.at && pfx <= x ensures false {
      assert s <= x;
      NothingBehind(t, map[], s, x);
    }
  }

  /** The node at the end of key, with or without a value; else the one that everything behind key stands behind, or -1
      when nothing does. */
  method NodeAtKey(p: ArtPool, key: Key) returns (r: int)
    requires p.Valid() && Inv(p.t, map[])
    ensures key in p.t.at ==> r == p.t.at[key]
    ensures r < 0 <==> forall x :: x in p.t.at ==> !(key <= x)
    ensures r >= 0 ==> r < |p.t.path| && key <= p.t.path[r] && p.t.path[r] in p.t.at && p.t.at[p.t.path[r]] == r
    ensures r >= 0 ==> forall x :: x in p.t.at && key <= x ==> p.t.path[r] <= x
  {
    hide Inv, Named, NodeAt, Hangs, ArtPool.Valid, ArtNode.Valid;
    PoolSizes(p);
    CoverStarts(p.t, key);
    var n, e := p.root, 0;
    while n >= 0
      invariant Covering(p.t, n, key, e)
      decreases |key| - e, n
    {
      CoverNode(p.t, n, key, e);
      NodeMatches(p, n);
      var h := p.nodes[n];
      var s := PfxShared(h.prefix, key[e..]);
      if s != |h.prefix| && e + s != |key| {
        return -1;
      }
      if s != |h.prefix| {
        return n;
      }
      e := e + s;
      WalkNamed(p.t, key[..e]);
      if e == |key| {
        assert key[..e] == key;
        return n;
      }
      n := h.Child(key[e]);
      CoverEdge(p.t, key, e, n);
      e := e + 1;
    }
    return -1;
  }

  /** A write that moves key to the box at off: insert, then make every token on the node stale. */
  method Bind(p: ArtPool, key: Key, off: nat)
    requires p.Valid() && AtRest(p.t) && |key| < KEY_LIMIT
    modifies p, p.repr
    ensures p.Valid() && fresh(p.repr - old(p.repr)) && old(p.repr) <= p.repr
    ensures AtRest(p.t) && Contents(p.t) == Contents(old(p.t))[key := off] && Evolves(old(p.t), p.t, {})
  {
    hide Inv, Named, NodeAt, Contents, Evolves, AtRest, ArtPool.Valid;
    ghost var t0 := p.t;
    Insert(p, key, off);
    ghost var t1 := p.t;
    RestNamed(t1);
    var id := NodeAtKey(p, key);
    PathOfNode(t1, key);
    PoolSizes(p);
    InRepr(p, id);
    p.BumpStructGen(id);
    Bumped(t0, t1, key);
  }

  ghost function Rewritten(t: Tree, key: Key, w: Word): Tree
    requires Named(t) && key in t.at
  {
    SetNode(t, key, NodeAt(t, key).(word := w, gen := NodeAt(t, key).gen + 1))
  }

  lemma Bumped(t0: Tree, t1: Tree, key: Key)
    requires AtRest(t1) && key in t1.at && Evolves(t0, t1, {key})
    ensures Named(t1) && AtRest(Rewritten(t1, key, NodeAt(t1, key).word))
    ensures Evolves(t0, Rewritten(t1, key, NodeAt(t1, key).word), {})
    ensures Contents(Rewritten(t1, key, NodeAt(t1, key).word)) == Contents(t1)
    ensures var id := t1.at[key];
            0 <= id < |t1.nodes| && Rewritten(t1, key, NodeAt(t1, key).word) ==
                t1.(nodes := t1.nodes[id := t1.nodes[id].(gen := t1.nodes[id].gen + 1)])
  {
    hide Forwards, Down, Up;
    RewrittenRests(t1, key, NodeAt(t1, key).word);
    RewrittenIs(t1, key, NodeAt(t1, key).word);
    BumpedEvolves(t0, t1, key);
  }

  lemma RewrittenIs(t: Tree, key: Key, w: Word)
    requires Named(t) && key in t.at
    ensures var id, t' := t.at[key], Rewritten(t, key, w);
            && 0 <= id < |t.nodes| == |t'.nodes| && t'.nodes[id] == t.nodes[id].(word := w, gen := t.nodes[id].gen + 1)
            && t' == t.(nodes := t'.nodes) && forall i :: 0 <= i < |t.nodes| && i != id ==> t'.nodes[i] == t.nodes[i]
  {
  }

  lemma BumpedEvolves(t0: Tree, t1: Tree, key: Key)
    requires Named(t1) && key in t1.at && Evolves(t0, t1, {key})
    ensures Evolves(t0, Rewritten(t1, key, NodeAt(t1, key).word), {})
  {
  }

  lemma RewrittenRests(t: Tree, key: Key, w: Word)
    requires AtRest(t) && key in t.at
    ensures Named(t) && AtRest(Rewritten(t, key, w))
    ensures Contents(Rewritten(t, key, w)) == if w.has then Contents(t)[key := w.off] else Contents(t) - {key}
  {
    hide Named, NodeAt, Inv, Contents;
    RestNamed(t);
    var n := NodeAt(t, key).(word := w, gen := NodeAt(t, key).gen + 1);
    NodeChangedWhole(t, key, n);
    ChangedContents(t, key, n);
  }

  lemma NodeChangedWhole(t: Tree, key: Key, n: Node)
    requires Inv(t, map[]) && key in t.at && n.moved == NodeAt(t, key).moved && n.prefix == NodeAt(t, key).prefix
    requires n.edges == NodeAt(t, key).edges && n.rank == NodeAt(t, key).rank
    ensures Named(SetNode(t, key, n)) && Inv(SetNode(t, key, n), map[]) && SetNode(t, key, n).at == t.at
  {
    hide Forwards, Down, Up, Base, Target;
    NodeChanged(t, map[], key, n);
  }

  lemma ChangedContents(t: Tree, key: Key, n: Node)
    requires Named(t) && key in t.at && Named(SetNode(t, key, n))
    ensures Contents(SetNode(t, key, n)) == if n.word.has then Contents(t)[key := n.word.off] else Contents(t) - {key}
  {
    hide Named, NodeAt;
    ChangedNodes(t, key, n);
  }

  lemma ChangedNodes(t: Tree, key: Key, n: Node)
    requires Named(t) && key in t.at && Named(SetNode(t, key, n))
    ensures SetNode(t, key, n).at == t.at
    ensures forall x :: x in t.at ==> NodeAt(SetNode(t, key, n), x) == if x == key then n else NodeAt(t, x)
  {
  }

  datatype Deleted = Gone | Missing | Refused

  /** Deletes key from the subtree at nid; `room` says whether the garbage ring accepts the retired box. */
  method Del(p: ArtPool, nid: int, key: Key, d: nat, room: bool) returns (r: Deleted)
    requires p.Valid() && AtRest(p.t) && Walking(p.t, nid, key, d)
    modifies p, p.repr
    ensures p.Valid() && p.repr == old(p.repr) && AtRest(p.t) && Evolves(old(p.t), p.t, {})
    ensures Named(old(p.t)) && r == if !Bound(old(p.t), key) then Missing else if room then Gone else Refused
    ensures Contents(p.t) == if r == Gone then Contents(old(p.t)) - {key} else Contents(old(p.t))
    decreases |key| - d
  {
    hide Inv, Named, NodeAt, Hangs, Contents, Evolves, ArtPool.Valid, ArtNode.Valid;
    RestNamed(p.t);
    PoolSizes(p);
    ghost var t0 := p.t;
    EvolvesSelf(t0);
    MissHolderIf(t0, key);
    if nid < 0 {
      return Missing;
    }
    WalkPrefix(p.t, nid, key, d);
    NodeMatches(p, nid);
    InRepr(p, nid);
    var h := p.nodes[nid];
    var s := PfxShared(h.prefix, key[d..]);
    if s != |h.prefix| {
      return Missing;
    }
    var e := d + |h.prefix|;
    WalkNamed(p.t, key[..e]);
    if e == |key| {
      assert key[..e] == key;
      if !h.word.has {
        return Missing;
      }
      if !room {
        return Refused;
      }
      Clear(p, nid, key);
      return Gone;
    }
    var c := h.Child(key[e]);
    WalkEdge(p.t, key, e, c);
    r := Del(p, c, key, e + 1, room);
  }

  /** The value word goes to zero and the generation moves on; the node stays as a tombstone. */
  method Clear(p: ArtPool, nid: nat, ghost key: Key)
    requires p.Valid() && AtRest(p.t) && key in p.t.at && p.t.at[key] == nid < |p.nodes|
    modifies p`t, p.nodes[nid]
    ensures p.Valid() && AtRest(p.t) && Evolves(old(p.t), p.t, {})
    ensures Named(old(p.t)) && Contents(p.t) == Contents(old(p.t)) - {key}
  {
    hide Inv, Named, NodeAt, Contents, Evolves, AtRest, Rewritten;
    ghost var t0 := p.t;
    RestNamed(t0);
    RewrittenRests(t0, key, EMPTY_WORD);
    RewrittenIs(t0, key, EMPTY_WORD);
    RewrittenEvolves(t0, key, EMPTY_WORD);
    p.SetWord(nid, EMPTY_WORD);
    p.BumpStructGen(nid);
    assert p.t.nodes == Rewritten(t0, key, EMPTY_WORD).nodes;
  }

  lemma RestNamed(t: Tree)
    requires AtRest(t)
    ensures Named(t) && Inv(t, map[])
  {
    hide Named, Forwards, Down, Up;
  }

  lemma EvolvesSelf(t: Tree)
    requires Inv(t, map[])
    ensures Evolves(t, t, {})
  {
    hide Forwards, Down, Up;
  }

  lemma MissHolderIf(t: Tree, key: Key)
    requires Inv(t, map[])
    ensures Named(t) && (key !in t.at ==> !Bound(t, key))
  {
    hide Forwards, Down, Up;
  }

  lemma RewrittenEvolves(t: Tree, key: Key, w: Word)
    requires Named(t) && key in t.at
    ensures Evolves(t, Rewritten(t, key, w), {})
  {
  }

  /** Deletion from the root. */
  method Unbind(p: ArtPool, key: Key, room: bool) returns (r: Deleted)
    requires p.Valid() && AtRest(p.t)
    modifies p, p.repr
    ensures p.Valid() && p.repr == old(p.repr) && AtRest(p.t) && Evolves(old(p.t), p.t, {})
    ensures Named(old(p.t)) && r == if key !in Contents(old(p.t)) then Missing else if room then Gone else Refused
    ensures Contents(p.t) == if r == Gone then Contents(old(p.t)) - {key} else Contents(old(p.t))
  {
    hide Inv, Named, NodeAt, Evolves;
    WalkStarts(p.t, key);
    MissHolderIf(p.t, key);
    r := Del(p, p.root, key, 0, room);
  }
}
