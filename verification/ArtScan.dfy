/** Scans of a subtree: is anything alive, which keys are alive, and which child names do they show. */
module ArtScan {
  import opened Bytes
  import opened ArtNodes
  import opened ArtTree
  import opened ArtPools
  import opened ArtInsert
  import opened ArtLookup

  const SCAN_BUFFER := 4096

  /** x is a live key at or below path k. */
  ghost predicate Under(t: Tree, k: Key, x: Key)
    requires Named(t)
  {
    k <= x && Bound(t, x)
  }

  /** The child of the node at k for byte b stands at a longer path, behind slot k + [b]. */
  lemma ChildNode(t: Tree, k: Key, b: byte)
    requires AtRest(t) && k in t.at && b in NodeAt(t, k).edges
    ensures var c := NodeAt(t, k).edges[b];
            && 0 <= c < |t.nodes| == |t.path| && !t.nodes[c].moved && t.path[c] == k + [b] + t.nodes[c].prefix
            && t.path[c] in t.at && t.at[t.path[c]] == c && Base(t, t.path[c]) == k + [b] &&
                |k| < |t.path[c]| < KEY_LIMIT
            && NodeAt(t, t.path[c]) == t.nodes[c]
  {
    hide Forwards, Up, SlotsHang, Hangs;
    ghost var c := NodeAt(t, k).edges[b];
    HangingNode(t, k + [b], c);
    NodeIs(t, t.path[c]);
  }

  /** Whatever stands strictly below k stands at or below the child its next byte selects. */
  lemma BelowChild(t: Tree, k: Key, x: Key)
    requires AtRest(t) && k in t.at && x in t.at && k <= x && x != k
    ensures x[|k|] in NodeAt(t, k).edges
    ensures var c := NodeAt(t, k).edges[x[|k|]]; 0 <= c < |t.path| && t.path[c] <= x
  {
    hide Forwards, Up, Down, Named, NodeAt, Base, Hangs;
    var s := k + [x[|k|]];
    assert s <= x && s[..|s| - 1] == k;
    if x[|k|] !in NodeAt(t, k).edges {
      NothingBehind(t, map[], s, x);
    } else {
      ChildNode(t, k, x[|k|]);
      SlotLeadsTo(t, map[], t.path[NodeAt(t, k).edges[x[|k|]]], x);
    }
  }

  /** The children of a node with their bytes, in the order its layout visits them. */
  method Edges(h: ArtNode) returns (l: seq<(byte, int)>)
    requires h.Valid() && h.kind != Moved
    ensures forall e :: e in l ==> e.0 in h.edges && h.edges[e.0] == e.1
    ensures forall b :: b in h.edges ==> (b, h.edges[b]) in l
    ensures forall i, j :: 0 <= i < j < |l| ==> l[i].0 != l[j].0
  {
    hide ArtNode.Valid;
    if h.kind == N4 || h.kind == N16 {
      l := EdgesInSlots(h);
    } else {
      l := EdgesByByte(h);
    }
  }

  method EdgesInSlots(h: ArtNode) returns (l: seq<(byte, int)>)
    requires h.Valid() && (h.kind == N4 || h.kind == N16)
    ensures forall e :: e in l ==> e.0 in h.edges && h.edges[e.0] == e.1
    ensures forall b :: b in h.edges ==> (b, h.edges[b]) in l
    ensures forall i, j :: 0 <= i < j < |l| ==> l[i].0 != l[j].0
  {
    hide Sorted;
    l := [];
    for i := 0 to h.count
      invariant forall e :: e in l ==> e.0 in h.edges && h.edges[e.0] == e.1
      invariant forall b :: b in h.edges && h.slot[b] < i ==> (b, h.edges[b]) in l
      invariant |l| == i && forall j :: 0 <= j < i ==> l[j].0 == h.order[j]
    {
      assert h.order[i] == h.bytes[i] && h.children[i] == h.children[..h.count][i];
      l := l + [(h.bytes[i], h.children[i])];
    }
  }

  method EdgesByByte(h: ArtNode) returns (l: seq<(byte, int)>)
    requires h.Valid() && h.kind != Moved
    ensures forall e :: e in l ==> e.0 in h.edges && h.edges[e.0] == e.1
    ensures forall b :: b in h.edges ==> (b, h.edges[b]) in l
    ensures forall i, j :: 0 <= i < j < |l| ==> l[i].0 != l[j].0
  {
    hide Sorted, Lists, Holds, ArtNode.Valid;
    l := [];
    for b := 0 to 256
      invariant forall e :: e in l ==> e.0 in h.edges && h.edges[e.0] == e.1 && e.0 < b
      invariant forall x :: x in h.edges && x < b ==> (x, h.edges[x]) in l
      invariant forall i, j :: 0 <= i < j < |l| ==> l[i].0 != l[j].0
    {
      var c := h.Child(b);
      ChildEdge(h, b, c);
      if c >= 0 {
        l := l + [(b, c)];
      }
    }
  }

  lemma ChildEdge(h: ArtNode, b: byte, c: int)
    requires h.Valid() && h.kind != Moved && c == if b in h.edges then h.edges[b] else -1
    ensures c >= 0 <==> b in h.edges
  {
  }

  ghost predicate Alive(t: Tree, k: Key)
    requires Named(t)
  {
    exists x :: Under(t, k, x)
  }

  /** Is any key at or below this node alive? Deleted values leave their nodes behind. */
  method HasLiveValue(p: ArtPool, nid: int) returns (live: bool)
    requires p.Valid() && AtRest(p.t) && 0 <= nid < |p.nodes| && nid < |p.t.path| && !p.t.nodes[nid].moved
    ensures Named(p.t) && live == Alive(p.t, p.t.path[nid])
    decreases KEY_LIMIT - |p.t.path[nid]|
  {
    hide Inv, Bound, NodeAt, Named, Alive, AtRest, ArtPool.Valid, ArtNode.Valid;
    RestNamed(p.t);
    PoolSizes(p);
    StandingNode(p.t, nid);
    NodeMatches(p, nid);
    ghost var t, k := p.t, p.t.path[nid];
    var h := p.nodes[nid];
    var l := Edges(h);
    if h.word.has {
      AliveHere(t, k);
      return true;
    }
    for i := 0 to |l|
      invariant forall j :: 0 <= j < i ==> 0 <= l[j].1 < |t.path| && !Alive(t, t.path[l[j].1])
    {
      ChildNode(t, k, l[i].0);
      live := HasLiveValue(p, l[i].1);
      if live {
        AliveAbove(t, k, l[i].0);
        return;
      }
    }
    DeadBelow(t, k, l);
    return false;
  }

  lemma AliveHere(t: Tree, k: Key)
    requires Named(t) && Bound(t, k)
    ensures Alive(t, k)
  {
    assert Under(t, k, k);
  }

  lemma AliveAbove(t: Tree, k: Key, b: byte)
    requires AtRest(t) && Named(t) && k in t.at && b in NodeAt(t, k).edges && 0 <= NodeAt(t, k).edges[b] < |t.path|
    requires Alive(t, t.path[NodeAt(t, k).edges[b]])
    ensures Alive(t, k)
  {
    hide Inv, Named, NodeAt, Bound;
    RestNamed(t);
    ChildNode(t, k, b);
    var x :| Under(t, t.path[NodeAt(t, k).edges[b]], x);
    assert Under(t, k, x);
  }

  lemma AliveBy(t: Tree, k: Key, x: Key)
    requires Named(t) && Under(t, k, x)
    ensures Alive(t, k)
  {
  }

  lemma DeadBelow(t: Tree, k: Key, l: seq<(byte, int)>)
    requires AtRest(t) && Named(t) && k in t.at && !Bound(t, k)
    requires forall b :: b in NodeAt(t, k).edges ==> (b, NodeAt(t, k).edges[b]) in l
    requires forall j :: 0 <= j < |l| ==> 0 <= l[j].1 < |t.path| && !Alive(t, t.path[l[j].1])
    ensures !Alive(t, k)
  {
    hide Inv, Named, NodeAt;
    forall x ensures !Under(t, k, x) {
      if Under(t, k, x) {
        BelowChild(t, k, x);
        var c := NodeAt(t, k).edges[x[|k|]];
        var j :| 0 <= j < |l| && l[j] == (x[|k|], c);
        AliveBy(t, t.path[c], x);
      }
    }
  }

  lemma StandingNode(t: Tree, nid: int)
    requires AtRest(t) && 0 <= nid < |t.nodes| && nid < |t.path| && !t.nodes[nid].moved
    ensures Named(t) && Inv(t, map[]) && |t.path| == |t.nodes| && t.path[nid] in t.at && t.at[t.path[nid]] == nid
    ensures NodeAt(t, t.path[nid]) == t.nodes[nid] && |t.path[nid]| < KEY_LIMIT
    ensures Bound(t, t.path[nid]) <==> t.nodes[nid].word.has
  {
    hide Forwards, Up, Down;
  }

  /** Every live key at or below node nid; `buf` spells the slot it hangs from. */
  method CollectKeys(p: ArtPool, nid: int, buf: Key) returns (keys: seq<Key>)
    requires p.Valid() && AtRest(p.t) && 0 <= nid < |p.nodes| && nid < |p.t.path| && !p.t.nodes[nid].moved
    requires p.t.path[nid] == buf + p.t.nodes[nid].prefix
    ensures Named(p.t) && forall x :: x in keys <==> Under(p.t, p.t.path[nid], x)
    ensures Once(keys)
    decreases KEY_LIMIT - |p.t.path[nid]|
  {
    hide Inv, Bound, NodeAt, Named, AtRest, Under, ArtPool.Valid, ArtNode.Valid;
    RestNamed(p.t);
    PoolSizes(p);
    StandingNode(p.t, nid);
    NodeMatches(p, nid);
    ghost var t, k := p.t, p.t.path[nid];
    var h := p.nodes[nid];
    var l := Edges(h);
    var path := buf + h.prefix;
    keys := if h.word.has then [path] else [];
    UnderSplit(t, k, l);
    for i := 0 to |l|
      invariant forall x :: x in keys ==> Under(t, k, x)
      invariant Under(t, k, k) ==> k in keys
      invariant forall j, x :: 0 <= j < i && 0 <= l[j].1 < |t.path| && Under(t, t.path[l[j].1], x) ==> x in keys
      invariant Once(keys) && Branches(k, l, i, keys)
    {
      ChildNode(t, k, l[i].0);
      UnderChild(t, k, l[i].0);
      var sub := CollectKeys(p, l[i].1, path + [l[i].0]);
      UnderByte(t, k, l[i].0, t.path[l[i].1], sub);
      OnceMore(k, l, i, keys, sub);
      keys := keys + sub;
    }
  }

  predicate Once(keys: seq<Key>) {
    forall i, j :: 0 <= i < j < |keys| ==> keys[i] != keys[j]
  }

  /** The keys collected so far are k itself and keys that leave k by one of the first i bytes. */
  predicate Branches(k: Key, l: seq<(byte, int)>, i: nat, keys: seq<Key>) {
    i <= |l| && forall x :: x in keys ==> x == k || (k < x && exists j :: 0 <= j < i && l[j].0 == x[|k|])
  }

  lemma OnceMore(k: Key, l: seq<(byte, int)>, i: nat, keys: seq<Key>, sub: seq<Key>)
    requires i < |l| && Once(keys) && Branches(k, l, i, keys) && Once(sub)
    requires forall a, b :: 0 <= a < b < |l| ==> l[a].0 != l[b].0
    requires forall x :: x in sub ==> k < x && x[|k|] == l[i].0
    ensures Once(keys + sub) && Branches(k, l, i + 1, keys + sub)
  {
    forall x | x in keys ensures x !in sub {
    }
    var all := keys + sub;
    forall a, b | 0 <= a < b < |all| ensures all[a] != all[b] {
      if a < |keys| <= b {
        assert all[a] in keys && all[b] in sub;
      }
    }
  }

  lemma UnderByte(t: Tree, k: Key, b: byte, c: Key, sub: seq<Key>)
    requires Named(t) && k + [b] <= c && forall x :: x in sub ==> Under(t, c, x)
    ensures forall x :: x in sub ==> k < x && x[|k|] == b
  {
    hide Named, Bound;
  }

  lemma UnderChild(t: Tree, k: Key, b: byte)
    requires AtRest(t) && Named(t) && k in t.at && b in NodeAt(t, k).edges
    ensures 0 <= NodeAt(t, k).edges[b] < |t.path|
    ensures forall x :: Under(t, t.path[NodeAt(t, k).edges[b]], x) ==> Under(t, k, x)
  {
    hide Inv, Named, NodeAt, Bound;
    RestNamed(t);
    ChildNode(t, k, b);
  }

  /** The live keys at or below k: k itself, and what is below its children. */
  lemma UnderSplit(t: Tree, k: Key, l: seq<(byte, int)>)
    requires AtRest(t) && Named(t) && k in t.at
    requires forall b :: b in NodeAt(t, k).edges ==> (b, NodeAt(t, k).edges[b]) in l
    ensures Bound(t, k) <==> Under(t, k, k)
    ensures forall x :: Under(t, k, x) && x != k ==>
              exists j :: 0 <= j < |l| && 0 <= l[j].1 < |t.path| && Under(t, t.path[l[j].1], x)
  {
    hide Inv, Named, NodeAt;
    forall x | Under(t, k, x) && x != k
      ensures exists j :: 0 <= j < |l| && 0 <= l[j].1 < |t.path| && Under(t, t.path[l[j].1], x)
    {
      BelowChild(t, k, x);
      var c := NodeAt(t, k).edges[x[|k|]];
      var j :| 0 <= j < |l| && l[j] == (x[|k|], c);
      assert Under(t, t.path[l[j].1], x);
    }
  }

  /** The node that covers a prefix, with the length of the slot it hangs from; -1 when nothing stands behind it. */
  method Cover(p: ArtPool, pfx: Key) returns (r: int, bpos: nat)
    requires p.Valid() && AtRest(p.t)
    ensures r < 0 ==> forall x :: x in p.t.at ==> !(pfx <= x)
    ensures r >= 0 ==> r < |p.nodes| && r < |p.t.path| && !p.t.nodes[r].moved
                       && bpos <= |pfx| && p.t.path[r] == pfx[..bpos] + p.t.nodes[r].prefix && pfx <= p.t.path[r]
    ensures r >= 0 ==> forall x :: x in p.t.at && pfx <= x ==> p.t.path[r] <= x
  {
    hide Inv, NodeAt, Named, Hangs, ArtPool.Valid, ArtNode.Valid, AtRest;
    RestNamed(p.t);
    PoolSizes(p);
    CoverStarts(p.t, pfx);
    var d, n := 0, p.root;
    while n >= 0
      invariant Covering(p.t, n, pfx, d)
      decreases |pfx| - d, n
    {
      CoverNode(p.t, n, pfx, d);
      NodeMatches(p, n);
      var h := p.nodes[n];
      var s := PfxShared(h.prefix, pfx[d..]);
      if s < |h.prefix| {
        if d + s < |pfx| {
          return -1, 0;
        }
        return n, d;
      }
      if d + |h.prefix| == |pfx| {
        return n, d;
      }
      d := d + |h.prefix|;
      WalkNamed(p.t, pfx[..d]);
      n := h.Child(pfx[d]);
      CoverEdge(p.t, pfx, d, n);
      d := d + 1;
    }
    return -1, 0;
  }

  /** Exactly the live keys that start with pfx; a prefix that does not fit the buffer is refused. */
  method ScanKeys(p: ArtPool, pfx: Key) returns (ok: bool, keys: seq<Key>)
    requires p.Valid() && AtRest(p.t)
    ensures ok == (|pfx| < SCAN_BUFFER)
    ensures Named(p.t) && (ok ==> Once(keys) && forall x :: x in keys <==> pfx <= x && x in Contents(p.t))
  {
    hide Inv, NodeAt, Named;
    RestNamed(p.t);
    LiveKeys(p.t);
    if |pfx| >= SCAN_BUFFER {
      return false, [];
    }
    var nid, bpos := Cover(p, pfx);
    if nid < 0 {
      return true, [];
    }
    keys := CollectKeys(p, nid, pfx[..bpos]);
    return true, keys;
  }

  lemma LiveKeys(t: Tree)
    requires Named(t)
    ensures forall x :: x in Contents(t) <==> Bound(t, x)
  {
  }
}
