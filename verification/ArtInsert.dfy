/** Insertion: walk down, split a prefix or hang a new leaf, and grow a full node on the way. */
module ArtInsert {
  import opened Bytes
  import opened ArtNodes
  import opened ArtTree
  import opened ArtSteps
  import opened ArtEffects
  import opened ArtPools

  /** Node nid is about to receive key, of which d bytes lead to its slot. */
  ghost predicate Enters(t: Tree, pend: Pending, nid: int, key: Key, d: nat) {
    && Inv(t, pend) && d <= |key| && key[..d] in pend && pend[key[..d]] == nid
    && (forall s :: s in pend ==> |s| <= d)
  }

  /** Insertion below slot key[..d] changes t into t' and answers with the node r that now hangs there. */
  ghost predicate Inserted(t: Tree, t': Tree, pend: Pending, key: Key, d: nat, off: nat, r: int) {
    && d <= |key| && Inv(t', pend[key[..d] := r])
    && Effect(t, t', d, map[key := Word(true, off)])
    && (forall k :: k in t'.at && k !in t.at ==> |k| <= |key|)
  }

  /** The same, with the path k of that node spelled out. */
  ghost predicate Stands(t: Tree, pend: Pending, k: Key, key: Key, d: nat) {
    && Inv(t, pend) && k in t.at && d <= |key|
    && key[..d] in pend && pend[key[..d]] == t.at[k]
    && k == key[..d] + NodeAt(t, k).prefix && Base(t, k) == key[..d]
    && (forall s :: s in pend ==> |s| <= d)
  }

  lemma EntryNode(t: Tree, pend: Pending, nid: int, key: Key, d: nat)
    requires Enters(t, pend, nid, key, d)
    ensures 0 <= nid < |t.nodes| && !t.nodes[nid].moved && |t.path| == |t.nodes|
    ensures Stands(t, pend, t.path[nid], key, d) && t.at[t.path[nid]] == nid && NodeAt(t, t.path[nid]) == t.nodes[nid]
  {
    hide Forwards, Up, Down, Hangs;
    EntryHangs(t, pend, key[..d]);
    HangingNode(t, key[..d], nid);
  }

  lemma StandsNamed(t: Tree, pend: Pending, k: Key, key: Key, d: nat)
    requires Stands(t, pend, k, key, d)
    ensures Named(t) && k in t.at && d <= |key|
  {
    hide Named, Forwards, Down, Up;
  }

  lemma EntryHangs(t: Tree, pend: Pending, s: Key)
    requires Named(t) && Down(t, pend) && s in pend
    ensures Hangs(t, s, pend[s])
  {
    hide EdgesHang, Hangs, Named;
  }

  lemma HangingNode(t: Tree, s: Key, c: int)
    requires Named(t) && Hangs(t, s, c)
    ensures 0 <= c < |t.nodes| == |t.path| && !t.nodes[c].moved
    ensures t.path[c] in t.at && t.at[t.path[c]] == c && t.path[c] == s + t.nodes[c].prefix && Base(t, t.path[c]) == s
  {
  }

  method PfxShared(a: Key, b: Key) returns (n: nat)
    ensures n <= |a| && n <= |b| && a[..n] == b[..n]
    ensures n < |a| && n < |b| ==> a[n] != b[n]
  {
    n := 0;
    while n < |a| && n < |b|
      invariant n <= |a| && n <= |b| && a[..n] == b[..n]
    {
      if a[n] != b[n] {
        return;
      }
      n := n + 1;
    }
  }

  /** Slot key[..d] is free for a chain that spells the rest of key. */
  ghost predicate Vacant(t: Tree, pend: Pending, key: Key, d: nat) {
    && Inv(t, pend) && d <= |key| && Target(t, pend, key[..d]) == -1 && (d == 0 || key[..d - 1] in t.at)
    && (forall s :: s in pend ==> |s| < d)
  }

  /** The chain of nodes that spells key[d..]: ten prefix bytes and one edge byte per link. */
  method LeafChain(p: ArtPool, key: Key, d: nat, off: nat, ghost pend: Pending) returns (id: nat)
    requires p.Valid() && d <= |key| && Vacant(p.t, pend, key, d)
    modifies p
    ensures p.Valid() && fresh(p.repr - old(p.repr)) && old(p.repr) <= p.repr && old(p.nodes) <= p.nodes
    ensures Inserted(old(p.t), p.t, pend, key, d, off, id)
    decreases |key| - d
  {
    hide Vacant, Inserted, AddLeaf, Attach, Named, Inv, SetNode, Target, Effect;
    ghost var t0, gen := p.t, p.genEpoch + 1;
    if |key| - d <= PREFIX_MAX {
      ChainEnd(t0, pend, key, d, off, gen);
      id := p.NewLeaf(key[..d], key[d..], Word(true, off));
    } else {
      ChainLink(t0, pend, key, d, gen);
      id := p.NewLeaf(key[..d], key[d..d + PREFIX_MAX], EMPTY_WORD);
      var sub := LeafChain(p, key, d + PREFIX_MAX + 1, off, pend[key[..d] := id]);
      ChainAttach(t0, Link(t0, key, d, gen), p.t, pend, key, d, off, sub);
      AttachChild(p, id, key[..d + PREFIX_MAX], key[d + PREFIX_MAX], sub);
    }
  }

  /** Node id, standing at k, takes or replaces the child for byte b. */
  method AttachChild(p: ArtPool, id: int, ghost k: Key, b: byte, c: int)
    requires p.Valid() && Named(p.t) && k in p.t.at && p.t.at[k] == id && c >= 0 && 0 <= id < |p.nodes|
    requires b in p.t.nodes[id].edges || p.nodes[id].kind == N256 || p.nodes[id].count < Capacity(p.nodes[id].kind)
    modifies p`t, p.nodes[id], p.nodes[id].bytes, p.nodes[id].children
    ensures p.Valid() && p.t == Attach(old(p.t), k, b, c)
  {
    hide Named;
    NodeIs(p.t, k);
    var c0 := p.nodes[id].Child(b);
    if c0 >= 0 {
      p.ReplaceEdge(id, b, c);
    } else {
      var ok := p.AddEdge(id, b, c);
    }
  }

  lemma ChainEnd(t: Tree, pend: Pending, key: Key, d: nat, off: nat, gen: nat)
    requires Vacant(t, pend, key, d) && |key| - d <= PREFIX_MAX
    ensures Inserted(t, AddLeaf(t, key[..d], Node(false, 0, key[d..], map[], Word(true, off), gen)), pend, key, d,
      off, |t.nodes|)
  {
    hide AddLeaf, Named, Forwards, Down, Up, Target;
    var n := Node(false, 0, key[d..], map[], Word(true, off), gen);
    assert key[..d] + n.prefix == key && (d > 0 ==> key[..d][..d - 1] == key[..d - 1]);
    LeafAdded(t, pend, key[..d], n);
    LeafEffect(t, key[..d], n, d);
    LeafAt(t, key[..d], n);
  }

  /** A link that does not reach the end of key, before its child exists. */
  ghost function Link(t: Tree, key: Key, d: nat, gen: nat): Tree
    requires d + PREFIX_MAX <= |key|
  {
    AddLeaf(t, key[..d], Node(false, 0, key[d..d + PREFIX_MAX], map[], EMPTY_WORD, gen))
  }

  lemma ChainLink(t: Tree, pend: Pending, key: Key, d: nat, gen: nat)
    requires Vacant(t, pend, key, d) && |key| - d > PREFIX_MAX
    ensures Vacant(Link(t, key, d, gen), pend[key[..d] := |t.nodes|], key, d + PREFIX_MAX + 1)
    ensures Effect(t, Link(t, key, d, gen), d, map[])
    ensures var t', k := Link(t, key, d, gen), key[..d + PREFIX_MAX];
            k in t'.at && t'.at[k] == |t.nodes| && k !in t.at && t'.at.Keys == t.at.Keys + {k}
  {
    hide AddLeaf, Named, Forwards, Down, Up;
    var n := Node(false, 0, key[d..d + PREFIX_MAX], map[], EMPTY_WORD, gen);
    var k, s := key[..d + PREFIX_MAX], key[..d + PREFIX_MAX + 1];
    assert key[..d] + n.prefix == k && s[..|s| - 1] == k && (d > 0 ==> key[..d][..d - 1] == key[..d - 1]);
    LeafAdded(t, pend, key[..d], n);
    LeafEffect(t, key[..d], n, d);
    LeafAt(t, key[..d], n);
    LeafNamed(t, key[..d], n);
  }

  /** Once the rest of the chain hangs in its slot, the link takes it as a child. */
  lemma ChainAttach(t0: Tree, t1: Tree, t2: Tree, pend: Pending, key: Key, d: nat, off: nat, sub: int)
    requires Vacant(t0, pend, key, d) && |key| - d > PREFIX_MAX
    requires Effect(t0, t1, d, map[]) && forall k :: k in t1.at && k !in t0.at ==> |k| <= |key|
    requires key[..d + PREFIX_MAX] in t1.at
    requires Inserted(t1, t2, pend[key[..d] := t1.at[key[..d + PREFIX_MAX]]], key, d + PREFIX_MAX + 1, off, sub)
    ensures var k := key[..d + PREFIX_MAX];
            && Named(t2) && k in t2.at && t2.at[k] == t1.at[k] && NodeAt(t2, k) == NodeAt(t1, k)
            && Inserted(t0, Attach(t2, k, key[d + PREFIX_MAX], sub), pend, key, d, off, t1.at[k])
  {
    hide Attach, Inv, NodeAt, Written, Target, Named;
    var k, s := key[..d + PREFIX_MAX], key[..d + PREFIX_MAX + 1];
    assert k + [key[d + PREFIX_MAX]] == s;
    assert s !in pend[key[..d] := t1.at[k]];
    AttachInserted(t1, t2, pend[key[..d] := t1.at[k]], key, d + PREFIX_MAX, off, sub);
    EffectThen(t0, t1, Attach(t2, k, key[d + PREFIX_MAX], sub), d, |k|, map[], map[key := Word(true, off)]);
  }

  /** Attaching what was inserted below slot key[..e + 1] to the node at key[..e]. */
  lemma AttachInserted(t1: Tree, t2: Tree, pend: Pending, key: Key, e: nat, off: nat, sub: int)
    requires e < |key| && key[..e] in t1.at && key[..e + 1] !in pend
    requires Inserted(t1, t2, pend, key, e + 1, off, sub)
    ensures Named(t2) && key[..e] in t2.at
    ensures var k, t3 := key[..e], Attach(t2, key[..e], key[e], sub);
            && t2.at[k] == t1.at[k] && NodeAt(t2, k) == NodeAt(t1, k)
            && Inv(t3, pend) && Effect(t1, t3, e, map[key := Word(true, off)]) && t3.at == t2.at
  {
    hide Attach, NodeAt, Written, Target, Named, Forwards, Down, Up;
    var k := key[..e];
    assert k + [key[e]] == key[..e + 1];
    Attached(t2, pend, k, key[e], sub);
    EffectLess(t1, t2, e, e + 1, map[key := Word(true, off)]);
    EffectThen(t1, t2, Attach(t2, k, key[e], sub), e, e, map[key := Word(true, off)], map[]);
    AttachAt(t2, k, key[e], sub);
  }

  /** The key ends inside the prefix of the node it enters: the new parent carries the value. */
  lemma EndsInside(t: Tree, pend: Pending, k: Key, key: Key, d: nat, off: nat, gen: nat)
    requires Stands(t, pend, k, key, d) && |key| - d < |NodeAt(t, k).prefix|
    requires key[d..] == NodeAt(t, k).prefix[..|key| - d]
    ensures Inserted(t, Split(t, k, |key| - d, Word(true, off), gen), pend, key, d, off, |t.nodes|)
  {
    hide Split, Forwards, Up, Down, Named, NodeAt, Base;
    var m := |key| - d;
    assert key[..d] + key[d..] == key;
    WasSplit(t, pend, k, m, Word(true, off), gen);
    SplitNamed(t, k, m, Word(true, off), gen);
    SplitEffect(t, k, m, Word(true, off), gen);
  }

  /** The key leaves the prefix at byte m: after the split its slot under the new parent is vacant. */
  lemma LeavesPrefix(t: Tree, pend: Pending, k: Key, key: Key, d: nat, m: nat, gen: nat)
    requires Stands(t, pend, k, key, d) && m < |NodeAt(t, k).prefix| && m < |key| - d
    requires key[d..d + m] == NodeAt(t, k).prefix[..m] && key[d + m] != NodeAt(t, k).prefix[m]
    ensures var t' := Split(t, k, m, EMPTY_WORD, gen);
            && Named(t') && Vacant(t', pend[key[..d] := |t.nodes|], key, d + m + 1) && Effect(t, t', d, map[])
            && (forall s :: s in pend ==> |s| <= d)
            && key[..d + m] in t'.at && t'.at[key[..d + m]] == |t.nodes| && t'.at.Keys == t.at.Keys + {key[..d + m]}
  {
    hide Split, Forwards, Up, Down, Named, NodeAt, Base;
    var q, s := key[..d + m], key[..d + m + 1];
    assert key[..d] + key[d..d + m] == q && s[..|s| - 1] == q && s[|s| - 1] == key[d + m];
    WasSplit(t, pend, k, m, EMPTY_WORD, gen);
    SplitNamed(t, k, m, EMPTY_WORD, gen);
    SplitEffect(t, k, m, EMPTY_WORD, gen);
  }

  lemma SplitAndHung(t: Tree, t1: Tree, t2: Tree, pend: Pending, key: Key, d: nat, m: nat, off: nat, nn: int, leaf: int)
    requires d + m < |key| && key[..d + m] in t1.at && t1.at[key[..d + m]] == nn
    requires Effect(t, t1, d, map[]) && t1.at.Keys == t.at.Keys + {key[..d + m]}
    requires forall s :: s in pend ==> |s| <= d
    requires Inserted(t1, t2, pend[key[..d] := nn], key, d + m + 1, off, leaf)
    ensures Named(t2) && key[..d + m] in t2.at && t2.at[key[..d + m]] == nn
    ensures NodeAt(t2, key[..d + m]) == NodeAt(t1, key[..d + m])
    ensures Inserted(t, Attach(t2, key[..d + m], key[d + m], leaf), pend, key, d, off, nn)
  {
    hide Attach, Inv, NodeAt, Written, Target, Named;
    assert |key[..d + m + 1]| == d + m + 1 && |key[..d]| == d;
    AttachInserted(t1, t2, pend[key[..d] := nn], key, d + m, off, leaf);
    EffectThen(t, t1, Attach(t2, key[..d + m], key[d + m], leaf), d, d + m, map[], map[key := Word(true, off)]);
  }

  /** The key ends at the node it enters: a fresh value, an overwrite or a revived tombstone. */
  lemma EndsAt(t: Tree, pend: Pending, key: Key, d: nat, off: nat)
    requires Stands(t, pend, key, key, d)
    ensures Inserted(t, SetNode(t, key, NodeAt(t, key).(word := Word(true, off))), pend, key, d, off, t.at[key])
  {
    hide Forwards, Up, Down, Target;
    var n := NodeAt(t, key).(word := Word(true, off));
    assert pend[key[..d] := t.at[key]] == pend;
    NodeChanged(t, pend, key, n);
    SetEffect(t, key, n);
    EffectLess(t, SetNode(t, key, n), d, |key|, map[key := n.word]);
  }

  /** The key goes on below the node it enters, at path key[..e]. */
  lemma GoesDown(t: Tree, pend: Pending, key: Key, d: nat, e: nat)
    requires e < |key| && Stands(t, pend, key[..e], key, d)
    ensures d <= e && key[..e + 1] !in pend
    ensures key[e] in NodeAt(t, key[..e]).edges ==>
              Enters(t, pend[key[..e + 1] := NodeAt(t, key[..e]).edges[key[e]]],
                     NodeAt(t, key[..e]).edges[key[e]], key, e + 1)
    ensures key[e] !in NodeAt(t, key[..e]).edges ==> Vacant(t, pend, key, e + 1)
  {
    hide Forwards, Up, Down, Named, Base, NodeAt;
    var s := key[..e + 1];
    assert s == key[..e] + [key[e]] && s[..|s| - 1] == key[..e] && s[|s| - 1] == key[e];
    if key[e] in NodeAt(t, key[..e]).edges {
      PendEdge(t, pend, key[..e], key[e]);
    }
  }

  /** The subtree kept its root: the edge above it already points there. */
  lemma ChildKept(t: Tree, t': Tree, pend: Pending, key: Key, d: nat, e: nat, off: nat, c: int)
    requires e < |key| && Stands(t, pend, key[..e], key, d) && key[..e + 1] !in pend
    requires key[e] in NodeAt(t, key[..e]).edges && NodeAt(t, key[..e]).edges[key[e]] == c
    requires Inserted(t, t', pend[key[..e + 1] := c], key, e + 1, off, c)
    ensures Inserted(t, t', pend, key, d, off, t.at[key[..e]])
  {
    hide Forwards, Up, Down, Named, Base, NodeAt, Written;
    var s, pend' := key[..e + 1], pend[key[..e + 1] := c];
    assert s[..|s| - 1] == key[..e] && pend'[s := c] == pend' && pend' - {s} == pend &&
        pend[key[..d] := t.at[key[..e]]] == pend;
    DropPending(t', pend', s);
    EffectLess(t, t', d, e + 1, map[key := Word(true, off)]);
  }

  /** Something new hangs below the node it enters and is attached there. */
  lemma ChildHung(t: Tree, t': Tree, pend: Pending, pend': Pending, key: Key, d: nat, e: nat, off: nat, c: int)
    requires e < |key| && Stands(t, pend, key[..e], key, d) && key[..e + 1] !in pend
    requires pend'[key[..e + 1] := c] == pend[key[..e + 1] := c]
    requires Inserted(t, t', pend', key, e + 1, off, c)
    ensures Named(t') && key[..e] in t'.at && t'.at[key[..e]] == t.at[key[..e]]
    ensures NodeAt(t', key[..e]) == NodeAt(t, key[..e])
    ensures Inserted(t, Attach(t', key[..e], key[e], c), pend, key, d, off, t.at[key[..e]])
  {
    hide Forwards, Up, Down, Named, Base, NodeAt, Written, Attach, Target;
    assert pend[key[..d] := t.at[key[..e]]] == pend;
    AttachInserted(t, t', pend, key, e, off, c);
    EffectLess(t, Attach(t', key[..e], key[e], c), d, e, map[key := Word(true, off)]);
  }

  /** The node is full: it grows before it takes the new child. */
  lemma ChildHungGrown(t: Tree, t': Tree, pend: Pending, key: Key, d: nat, e: nat, off: nat, c: int, rank: nat,
      gen: nat)
    requires e < |key| && Stands(t, pend, key[..e], key, d) && key[..e + 1] !in pend
    requires Inserted(t, t', pend, key, e + 1, off, c) && NodeAt(t, key[..e]).rank < rank <= 3
    ensures Named(t') && key[..e] in t'.at && t'.at[key[..e]] == t.at[key[..e]]
    ensures NodeAt(t', key[..e]) == NodeAt(t, key[..e])
    ensures var t2 := Grow(t', key[..e], rank, gen);
            && Named(t2) && t2.at == t'.at[key[..e] := |t'.nodes|]
            && Inserted(t, Attach(t2, key[..e], key[e], c), pend, key, d, off, |t'.nodes|)
  {
    hide Forwards, Up, Down, Named, NodeAt, Written, Attach, Target, Grow;
    var k, w := key[..e], map[key := Word(true, off)];
    GrowBase(t, t', pend, key, d, e, off, c);
    Grown(t', pend[key[..e + 1] := c], k, rank, gen);
    GrowEffect(t', k, rank, gen);
    GrownNamed(t', k, rank, gen);
    var t2, pend2 := Grow(t', k, rank, gen), pend[key[..d] := |t'.nodes|];
    assert pend[key[..e + 1] := c][key[..d] := |t'.nodes|] == pend2[key[..e + 1] := c];
    assert k + [key[e]] == key[..e + 1];
    Attached(t2, pend2, k, key[e], c);
    AttachAt(t2, k, key[e], c);
    EffectLess(t, t', d, e + 1, w);
    EffectThen(t, t', t2, d, e, w, map[]);
    EffectThen(t, t2, Attach(t2, k, key[e], c), d, e, w, map[]);
  }

  lemma GrowBase(t: Tree, t': Tree, pend: Pending, key: Key, d: nat, e: nat, off: nat, c: int)
    requires e < |key| && Stands(t, pend, key[..e], key, d) && Inserted(t, t', pend, key, e + 1, off, c)
    ensures Named(t') && key[..e] in t'.at && t'.at[key[..e]] == t.at[key[..e]]
    ensures NodeAt(t', key[..e]) == NodeAt(t, key[..e])
    ensures Base(t', key[..e]) == key[..d] && d <= e
  {
    hide Forwards, Up, Down, Written, Target;
  }

  lemma SliceOf(key: Key, d: nat, n: nat)
    requires d + n <= |key|
    ensures key[d..][..n] == key[d..d + n]
  {
  }

  /** Inserts key, of which d bytes lead to node nid, and returns the node that stands there afterwards. */
  method Ins(p: ArtPool, nid: int, key: Key, d: nat, off: nat, ghost pend: Pending) returns (r: nat)
    requires p.Valid() && Enters(p.t, pend, nid, key, d)
    modifies p, p.repr
    ensures p.Valid() && fresh(p.repr - old(p.repr)) && old(p.repr) <= p.repr
    ensures Inserted(old(p.t), p.t, pend, key, d, off, r)
    decreases |key| - d, 3
  {
    hide Inserted, Inv, SetNode, Base, NodeAt, Named, Split;
    EntryNode(p.t, pend, nid, key, d);
    StandsNamed(p.t, pend, p.t.path[nid], key, d);
    ghost var k := p.t.path[nid];
    var h := p.nodes[nid];
    var shared := PfxShared(h.prefix, key[d..]);
    if shared == |key| - d && shared < |h.prefix| {
      r := InsInside(p, nid, key, d, off, pend, k);
    } else if shared < |h.prefix| {
      SliceOf(key, d, shared);
      r := InsAside(p, nid, key, d, shared, off, pend, k);
    } else {
      assert k == key[..d + |h.prefix|];
      r := InsBelow(p, nid, key, d, d + |h.prefix|, off, pend);
    }
  }

  /** The key ends within the node's prefix. */
  method InsInside(p: ArtPool, nid: int, key: Key, d: nat, off: nat, ghost pend: Pending, ghost k: Key) returns (r: nat)
    requires p.Valid() && Named(p.t) && d <= |key| && k in p.t.at && Stands(p.t, pend, k, key, d) && p.t.at[k] == nid
    requires |key| - d < |NodeAt(p.t, k).prefix| && key[d..] == NodeAt(p.t, k).prefix[..|key| - d]
    modifies p, p.repr
    ensures p.Valid() && fresh(p.repr - old(p.repr)) && old(p.repr) <= p.repr
    ensures Inserted(old(p.t), p.t, pend, key, d, off, r)
  {
    hide Inserted, Stands, Split, Base, Named, NodeAt;
    NodeIs(p.t, k);
    ghost var gen := p.genEpoch + 2;
    EndsInside(p.t, pend, k, key, d, off, gen);
    SplitFacts(p.t, k, |key| - d, Word(true, off), gen);
    r := p.SplitNode(nid, |key| - d, Word(true, off), Split(p.t, k, |key| - d, Word(true, off), gen));
  }

  /** The key parts from the node's prefix after m bytes. */
  method InsAside(p: ArtPool, nid: int, key: Key, d: nat, m: nat, off: nat, ghost pend: Pending, ghost k: Key)
      returns (r: nat)
    requires p.Valid() && Named(p.t) && k in p.t.at && Stands(p.t, pend, k, key, d) && p.t.at[k] == nid
    requires m < |NodeAt(p.t, k).prefix| && m < |key| - d && key[d..d + m] == NodeAt(p.t, k).prefix[..m]
    requires key[d + m] != NodeAt(p.t, k).prefix[m]
    modifies p, p.repr
    ensures p.Valid() && fresh(p.repr - old(p.repr)) && old(p.repr) <= p.repr
    ensures Inserted(old(p.t), p.t, pend, key, d, off, r)
  {
    hide Inserted, Inv, Split, Vacant, Attach, Effect, Base, Stands, Named, NodeAt;
    ghost var t0, gen := p.t, p.genEpoch + 2;
    NodeIs(t0, k);
    SplitFacts(t0, k, m, EMPTY_WORD, gen);
    LeavesPrefix(t0, pend, k, key, d, m, gen);
    r := p.SplitNode(nid, m, EMPTY_WORD, Split(t0, k, m, EMPTY_WORD, gen));
    HangAside(p, t0, key, d, m, off, pend, r);
  }

  /** The second half of the split: the new parent gets a chain for the rest of key. */
  method HangAside(p: ArtPool, ghost t0: Tree, key: Key, d: nat, m: nat, off: nat, ghost pend: Pending, nn: nat)
    requires p.Valid() && d + m < |key| && Named(p.t) && key[..d + m] in p.t.at && p.t.at[key[..d + m]] == nn
    requires nn < |p.nodes| && p.nodes[nn].kind == N4 && p.nodes[nn].count == 1 && key[d + m] !in p.t.nodes[nn].edges
    requires Effect(t0, p.t, d, map[]) && p.t.at.Keys == t0.at.Keys + {key[..d + m]}
    requires Vacant(p.t, pend[key[..d] := nn], key, d + m + 1) && forall s :: s in pend ==> |s| <= d
    modifies p, p.nodes[nn], p.nodes[nn].bytes, p.nodes[nn].children
    ensures p.Valid() && fresh(p.repr - old(p.repr)) && old(p.repr) <= p.repr
    ensures Inserted(t0, p.t, pend, key, d, off, nn)
  {
    hide Inserted, Inv, Vacant, Attach, Effect, Named, NodeAt;
    ghost var t1 := p.t;
    NodeIs(t1, key[..d + m]);
    var leaf := LeafChain(p, key, d + m + 1, off, pend[key[..d] := nn]);
    SplitAndHung(t0, t1, p.t, pend, key, d, m, off, nn, leaf);
    AttachChild(p, nn, key[..d + m], key[d + m], leaf);
  }

  /** The key runs through the whole prefix of node nid, which stands at key[..e]. */
  method InsBelow(p: ArtPool, nid: int, key: Key, d: nat, e: nat, off: nat, ghost pend: Pending) returns (r: nat)
    requires p.Valid() && e <= |key| && Named(p.t) && key[..e] in p.t.at && Stands(p.t, pend, key[..e], key, d)
    requires p.t.at[key[..e]] == nid
    modifies p, p.repr
    ensures p.Valid() && fresh(p.repr - old(p.repr)) && old(p.repr) <= p.repr
    ensures Inserted(old(p.t), p.t, pend, key, d, off, r)
    decreases |key| - d, 2
  {
    hide Inserted, Inv, Vacant, Attach, Effect, Stands, Enters, Base, Named, NodeAt;
    NodeIs(p.t, key[..e]);
    if e == |key| {
      assert key[..e] == key;
      EndsAt(p.t, pend, key, d, off);
      p.SetWord(nid, Word(true, off));
      return nid;
    }
    GoesDown(p.t, pend, key, d, e);
    var cid := p.nodes[nid].Child(key[e]);
    if cid >= 0 {
      r := InsChild(p, nid, cid, key, d, e, off, pend);
    } else {
      r := InsHang(p, nid, key, d, e, off, pend);
    }
  }

  method InsChild(p: ArtPool, nid: int, cid: int, key: Key, d: nat, e: nat, off: nat, ghost pend: Pending)
      returns (r: nat)
    requires p.Valid() && d <= e < |key| && Named(p.t) && key[..e] in p.t.at && Stands(p.t, pend, key[..e], key, d)
    requires p.t.at[key[..e]] == nid
    requires key[e] in NodeAt(p.t, key[..e]).edges && NodeAt(p.t, key[..e]).edges[key[e]] == cid
    modifies p, p.repr
    ensures p.Valid() && fresh(p.repr - old(p.repr)) && old(p.repr) <= p.repr
    ensures Inserted(old(p.t), p.t, pend, key, d, off, r)
    decreases |key| - d, 1
  {
    hide Inserted, Inv, Vacant, Attach, Effect, Stands, Enters, Base, Named, NodeAt;
    ghost var t0, pend' := p.t, pend[key[..e + 1] := cid];
    NodeIs(t0, key[..e]);
    GoesDown(t0, pend, key, d, e);
    var nc := Ins(p, cid, key, e + 1, off, pend');
    r := nid;
    if nc != cid {
      assert pend'[key[..e + 1] := nc] == pend[key[..e + 1] := nc];
      ChildHung(t0, p.t, pend, pend', key, d, e, off, nc);
      NodeIs(p.t, key[..e]);
      AttachChild(p, nid, key[..e], key[e], nc);
    } else {
      ChildKept(t0, p.t, pend, key, d, e, off, cid);
    }
  }

  method InsHang(p: ArtPool, nid: int, key: Key, d: nat, e: nat, off: nat, ghost pend: Pending) returns (r: nat)
    requires p.Valid() && d <= e < |key| && Named(p.t) && key[..e] in p.t.at && Stands(p.t, pend, key[..e], key, d)
    requires p.t.at[key[..e]] == nid
    requires key[e] !in NodeAt(p.t, key[..e]).edges
    modifies p, p.repr
    ensures p.Valid() && fresh(p.repr - old(p.repr)) && old(p.repr) <= p.repr
    ensures Inserted(old(p.t), p.t, pend, key, d, off, r)
  {
    hide Inserted, Inv, Vacant, Attach, Effect, Stands, Enters, Base, Named, NodeAt, Grow;
    ghost var t0 := p.t;
    NodeIs(t0, key[..e]);
    GoesDown(t0, pend, key, d, e);
    var h := p.nodes[nid];
    var leaf := LeafChain(p, key, e + 1, off, pend);
    if h.kind != N256 && h.count >= Capacity(h.kind) {
      r := HangGrown(p, t0, nid, key, d, e, off, pend, leaf);
    } else {
      ChildHung(t0, p.t, pend, pend, key, d, e, off, leaf);
      AttachChild(p, nid, key[..e], key[e], leaf);
      r := nid;
    }
  }

  /** A full node grows into the next layout, which takes the new child. */
  method HangGrown(p: ArtPool, ghost t0: Tree, nid: nat, key: Key, d: nat, e: nat, off: nat, ghost pend: Pending,
      leaf: nat) returns (g: nat)
    requires p.Valid() && d <= e < |key| && Named(t0) && key[..e] in t0.at && Stands(t0, pend, key[..e], key, d)
    requires t0.at[key[..e]] == nid < |p.nodes| && key[..e + 1] !in pend && key[e] !in NodeAt(t0, key[..e]).edges
    requires Inserted(t0, p.t, pend, key, e + 1, off, leaf)
    requires p.nodes[nid].kind != N256 && p.nodes[nid].kind != Moved
    requires p.nodes[nid].count <= Capacity(p.nodes[nid].kind)
    requires NodeAt(t0, key[..e]).rank == Rank(p.nodes[nid].kind)
    modifies p, p.nodes[nid]
    ensures p.Valid() && fresh(p.repr - old(p.repr)) && old(p.repr) <= p.repr
    ensures Inserted(t0, p.t, pend, key, d, off, g)
  {
    hide Inserted, Inv, Attach, Effect, Stands, Base, Named, NodeAt, Grow;
    ghost var rank, gen := Rank(NextKind(p.nodes[nid].kind)), p.genEpoch + 2;
    ChildHungGrown(t0, p.t, pend, key, d, e, off, leaf, rank, gen);
    NodeIs(p.t, key[..e]);
    GrowFacts(p.t, key[..e], rank, gen);
    g := p.GrowNode(nid, Grow(p.t, key[..e], rank, gen));
    AttachChild(p, g, key[..e], key[e], leaf);
  }

  /** A tree at rest: nothing pending, and no path longer than a key may be. */
  ghost predicate AtRest(t: Tree) {
    Inv(t, map[]) && forall k :: k in t.at ==> |k| < KEY_LIMIT
  }

  const KEY_LIMIT := 1024

  /** Binds key to the box at off, whatever it was bound to before, and nothing else. */
  method Insert(p: ArtPool, key: Key, off: nat)
    requires p.Valid() && AtRest(p.t) && |key| < KEY_LIMIT
    modifies p, p.repr
    ensures p.Valid() && fresh(p.repr - old(p.repr)) && old(p.repr) <= p.repr
    ensures AtRest(p.t) && key in p.t.at && Contents(p.t) == Contents(old(p.t))[key := off]
    ensures Evolves(old(p.t), p.t, {key})
  {
    hide Inv, Contents;
    ghost var t0 := p.t;
    if p.root < 0 {
      RootVacant(t0, key);
      var r := LeafChain(p, key, 0, off, map[]);
      RootTaken(t0, p.t, map[], key, off, r);
      p.SetRoot(r);
    } else {
      RootPending(t0, key);
      var r := Ins(p, p.root, key, 0, off, map[[] := p.root]);
      RootTaken(t0, p.t, map[[] := t0.root], key, off, r);
      p.SetRoot(r);
    }
  }

  /** Over any stretch of operations: no path changes, a standing path keeps a node, and behind an unchanged
      generation a node keeps its word or has lost its value, unless it stands at a path in `written`. */
  ghost predicate Evolves(t: Tree, t': Tree, written: set<Key>) {
    && |t.path| == |t.nodes| && |t'.path| == |t'.nodes| && t.path <= t'.path && t.at.Keys <= t'.at.Keys
    && (forall i :: 0 <= i < |t.nodes| ==>
          && t'.nodes[i].gen >= t.nodes[i].gen
          && (t'.nodes[i].gen == t.nodes[i].gen && (t.path[i] !in written || t'.nodes[i].moved) ==>
                t'.nodes[i].word == t.nodes[i].word || !t'.nodes[i].word.has))
  }

  lemma EffectEvolves(t: Tree, t': Tree, key: Key, w: Word, r: int)
    requires Effect(t, t', 0, map[key := w])
    ensures Evolves(t, t'.(root := r), {key})
  {
    forall i | 0 <= i < |t.nodes| && t'.nodes[i].gen == t.nodes[i].gen && (t.path[i] != key || t'.nodes[i].moved)
      ensures t'.nodes[i].word == t.nodes[i].word
    {
      assert t'.path[i] == t.path[i];
      if !t.nodes[i].moved {
        assert t.at[t.path[i]] == i && t'.at[t'.path[i]] == i;
        assert NodeAt(t', t.path[i]).word == NodeAt(t, t.path[i]).word;
      }
    }
  }

  lemma RootVacant(t: Tree, key: Key)
    requires AtRest(t) && t.root < 0
    ensures Vacant(t, map[], key, 0)
  {
    hide Named, Forwards, EdgesHang, SlotsHang, Up;
    assert key[..0] == [];
  }

  lemma RootPending(t: Tree, key: Key)
    requires AtRest(t) && t.root >= 0
    ensures Enters(t, map[[] := t.root], t.root, key, 0)
  {
    hide Named, Forwards, Up, EdgesHang, SlotsHang;
    var none: Pending := map[];
    assert key[..0] == [];
    assert Target(t, none, []) == t.root;
    PendDown(t, none, [], t.root);
    SameTargets(t, none, []);
  }

  /** The root pointer is updated last. */
  lemma RootTaken(t: Tree, t': Tree, pend: Pending, key: Key, off: nat, r: int)
    requires AtRest(t) && |key| < KEY_LIMIT && pend.Keys <= {[]}
    requires Inserted(t, t', pend, key, 0, off, r)
    ensures AtRest(t'.(root := r)) && key in t'.at
    ensures Contents(t'.(root := r)) == Contents(t)[key := off]
    ensures Evolves(t, t'.(root := r), {key})
  {
    hide Forwards, Up, Down, Named, NodeAt, Evolves;
    assert key[..0] == [] && pend[[] := r] == map[[] := r];
    EffectEvolves(t, t', key, Word(true, off), r);
    RootSet(t', r);
    assert Contents(t'.(root := r)) == Contents(t');
    WrittenContents(t, t', key, off);
  }

  lemma WrittenContents(t: Tree, t': Tree, key: Key, off: nat)
    requires Named(t) && Named(t') && Written(t, t', map[key := Word(true, off)]) && t.at.Keys <= t'.at.Keys
    ensures Contents(t') == Contents(t)[key := off]
  {
    hide Named, NodeAt;
  }

  lemma RootSet(t: Tree, r: int)
    requires Inv(t, map[[] := r])
    ensures Inv(t.(root := r), map[]) && Contents(t.(root := r)) == Contents(t)
  {
    hide Forwards, Named, EdgesHang, SlotsHang, Up, NodeAt;
    var t', none: Pending := t.(root := r), map[];
    RootUnread(t, map[[] := r], r);
    assert none[[] := r] - {[]} == none;
    DropPending(t', map[[] := r], []);
  }

  /** While the root slot is pending, the root pointer is not read. */
  lemma RootUnread(t: Tree, pend: Pending, r: int)
    requires Inv(t, pend) && [] in pend
    ensures Inv(t.(root := r), pend) && Contents(t.(root := r)) == Contents(t)
  {
    hide Named, Up, Down, Forwards, NodeAt;
    RootUnreadNamed(t, r);
    RootUnreadUp(t, pend, r);
    RootUnreadDown(t, pend, r);
  }

  lemma RootUnreadNamed(t: Tree, r: int)
    requires Named(t) && Forwards(t)
    ensures Named(t.(root := r)) && Forwards(t.(root := r))
    ensures forall x :: x in t.at ==> NodeAt(t.(root := r), x) == NodeAt(t, x)
  {
    var t' := t.(root := r);
    forall i | 0 <= i < |t'.nodes| ensures ForwardsAt(t', i) {
      assert t.nodes[i].moved == t'.nodes[i].moved && ForwardsAt(t, i);
    }
  }

  lemma RootUnreadUp(t: Tree, pend: Pending, r: int)
    requires Named(t) && Named(t.(root := r)) && Up(t, pend) && [] in pend
    ensures Up(t.(root := r), pend)
  {
    hide Named;
    var t' := t.(root := r);
    forall x | x in t.at ensures Target(t', pend, Base(t', x)) == t.at[x] {
      assert Base(t', x) == Base(t, x);
    }
  }

  lemma RootUnreadDown(t: Tree, pend: Pending, r: int)
    requires Named(t) && Named(t.(root := r)) && Down(t, pend) && [] in pend
    ensures Down(t.(root := r), pend)
  {
    hide Named;
    var t' := t.(root := r);
    forall x, b | x in t.at && b in NodeAt(t', x).edges && x + [b] !in pend
      ensures Hangs(t', x + [b], NodeAt(t', x).edges[b])
    {
      assert Hangs(t, x + [b], NodeAt(t, x).edges[b]);
    }
  }
}
