/** What each change does to the rest of the tree: which words it writes and which nodes it leaves alone. */
module ArtEffects {
  import opened Bytes
  import opened ArtNodes
  import opened ArtTree
  import opened ArtSteps

  /** Paths stay, generations do not fall, standing nodes with a path shorter than d are untouched,
      and exactly the words in m are written; a new node outside m has no value. */
  ghost predicate Effect(t: Tree, t': Tree, d: nat, m: map<Key, Word>) {
    Kept(t, t', d) && Written(t, t', m)
  }

  ghost predicate Kept(t: Tree, t': Tree, d: nat) {
    && Named(t) && Named(t') && t.path <= t'.path && t'.root == t.root && |t.nodes| <= |t'.nodes|
    && t.at.Keys <= t'.at.Keys
    && (forall k :: k in t.at && |k| < d ==> t'.at[k] == t.at[k] && NodeAt(t', k) == NodeAt(t, k))
    && (forall i :: 0 <= i < |t.nodes| ==> Aged(t.nodes[i], t'.nodes[i]))
  }

  /** A node only gets older, and no stub is made or changed behind an unchanged generation. */
  ghost predicate Aged(n: Node, n': Node) {
    && n'.gen >= n.gen
    && (n'.gen == n.gen ==> n'.moved == n.moved && (n.moved ==> n'.word == n.word))
  }

  ghost predicate Written(t: Tree, t': Tree, m: map<Key, Word>)
    requires Named(t) && Named(t')
  {
    && m.Keys <= t'.at.Keys
    && forall k :: k in t'.at ==> NodeAt(t', k).word == (if k in m then m[k] else WordOf(t, k))
  }

  ghost function WordOf(t: Tree, k: Key): Word
    requires Named(t)
  {
    if k in t.at then NodeAt(t, k).word else EMPTY_WORD
  }

  /** Two changes in a row write what either writes, the later one winning. */
  lemma EffectThen(t0: Tree, t1: Tree, t2: Tree, d: nat, e: nat, m1: map<Key, Word>, m2: map<Key, Word>)
    requires Effect(t0, t1, d, m1) && Effect(t1, t2, e, m2) && d <= e
    ensures Effect(t0, t2, d, m1 + m2)
    ensures m1 == map[] ==> Effect(t0, t2, d, m2)
    ensures m2 == map[] ==> Effect(t0, t2, d, m1)
  {
    hide Named, NodeAt, Kept;
    KeptThen(t0, t1, t2, d, e);
    assert m1 == map[] ==> m1 + m2 == m2;
    assert m2 == map[] ==> m1 + m2 == m1;
  }

  lemma KeptThen(t0: Tree, t1: Tree, t2: Tree, d: nat, e: nat)
    requires Kept(t0, t1, d) && Kept(t1, t2, e) && d <= e
    ensures Kept(t0, t2, d) && Named(t0) && Named(t1) && Named(t2) && t0.at.Keys <= t1.at.Keys <= t2.at.Keys
  {
    hide Named, NodeAt;
  }

  lemma SetEffect(t: Tree, k: Key, n: Node)
    requires Named(t) && Forwards(t) && k in t.at && !n.moved
    requires n.prefix == NodeAt(t, k).prefix && n.rank == NodeAt(t, k).rank && n.gen >= NodeAt(t, k).gen
    ensures Effect(t, SetNode(t, k, n), |k|, map[k := n.word])
    ensures n.word == NodeAt(t, k).word ==> Effect(t, SetNode(t, k, n), |k|, map[])
  {
    hide Forwards, Hangs, Named, NodeAt;
    NodeIs(t, k);
    ChangedNamed(t, k, n);
    NodeIs(SetNode(t, k, n), k);
  }

  lemma LeafEffect(t: Tree, s: Key, n: Node, d: nat)
    requires Named(t) && Forwards(t) && !n.moved && n.edges == map[] && n.rank <= 3 && s + n.prefix !in t.at
    ensures Effect(t, AddLeaf(t, s, n), d, map[s + n.prefix := n.word])
    ensures n.word == EMPTY_WORD ==> Effect(t, AddLeaf(t, s, n), d, map[])
  {
    hide Forwards, Hangs, NodeAt, Named;
    LeafNamed(t, s, n);
    LeafAt(t, s, n);
  }

  lemma LeafAt(t: Tree, s: Key, n: Node)
    requires Named(t)
    ensures var t' := AddLeaf(t, s, n);
            && t.path <= t'.path && |t.nodes| <= |t'.nodes| && t'.root == t.root
            && t'.at == t.at[s + n.prefix := |t.nodes|]
            && forall i :: 0 <= i < |t.nodes| ==> Aged(t.nodes[i], t'.nodes[i])
  {
    hide NodeAt;
  }

  lemma GrowEffect(t: Tree, k: Key, rank: nat, gen: nat)
    requires Named(t) && Forwards(t) && k in t.at && NodeAt(t, k).rank < rank <= 3
    ensures Effect(t, Grow(t, k, rank, gen), |k|, map[])
  {
    hide Forwards, Named, NodeAt;
    GrownNamed(t, k, rank, gen);
    GrownFaces(t, k, rank, gen);
    GrowKept(t, k, rank, gen);
  }

  lemma GrowKept(t: Tree, k: Key, rank: nat, gen: nat)
    requires Named(t) && k in t.at && Named(Grow(t, k, rank, gen))
    ensures Kept(t, Grow(t, k, rank, gen), |k|)
  {
    hide Grow;
    GrowFacts(t, k, rank, gen);
    var t' := Grow(t, k, rank, gen);
    assert t.path == t'.path[..|t.path|];
    forall x | x in t.at && |x| < |k| ensures t'.at[x] == t.at[x] && NodeAt(t', x) == NodeAt(t, x) {
      assert t.path[t.at[x]] == x && t.path[t.at[k]] == k;
    }
  }

  lemma SplitEffect(t: Tree, k: Key, m: nat, word: Word, gen: nat)
    requires Named(t) && Forwards(t) && k in t.at && m < |NodeAt(t, k).prefix|
    requires Base(t, k) + NodeAt(t, k).prefix[..m] !in t.at
    ensures Effect(t, Split(t, k, m, word, gen), |Base(t, k)|, map[Base(t, k) + NodeAt(t, k).prefix[..m] := word])
    ensures word == EMPTY_WORD ==> Effect(t, Split(t, k, m, word, gen), |Base(t, k)|, map[])
  {
    hide Forwards, Split, NodeAt, Named, Base;
    SplitNamed(t, k, m, word, gen);
    SplitKept(t, k, m, word, gen);
  }

  lemma SplitAged(t: Tree, k: Key, m: nat, word: Word, gen: nat)
    requires Named(t) && k in t.at && m < |NodeAt(t, k).prefix|
    ensures t.path <= Split(t, k, m, word, gen).path && |t.nodes| <= |Split(t, k, m, word, gen).nodes|
    ensures forall i :: 0 <= i < |t.nodes| ==> Aged(t.nodes[i], Split(t, k, m, word, gen).nodes[i])
  {
    hide Split, Base;
    SplitFacts(t, k, m, word, gen);
  }

  lemma SplitShort(t: Tree, k: Key, m: nat, word: Word, gen: nat, x: Key)
    requires Named(t) && k in t.at && m < |NodeAt(t, k).prefix| && Named(Split(t, k, m, word, gen))
    requires Base(t, k) + NodeAt(t, k).prefix[..m] !in t.at && x in t.at && |x| < |Base(t, k)|
    ensures var t' := Split(t, k, m, word, gen);
            x in t'.at && t'.at[x] == t.at[x] && NodeAt(t', x) == NodeAt(t, x)
  {
    hide Split;
    SplitFacts(t, k, m, word, gen);
    assert t.path[t.at[x]] == x && t.path[t.at[k]] == k;
  }

  lemma SplitKept(t: Tree, k: Key, m: nat, word: Word, gen: nat)
    requires Named(t) && k in t.at && m < |NodeAt(t, k).prefix| && Named(Split(t, k, m, word, gen))
    requires Base(t, k) + NodeAt(t, k).prefix[..m] !in t.at
    ensures Kept(t, Split(t, k, m, word, gen), |Base(t, k)|)
  {
    hide Aged, Named, NodeAt, Base;
    SplitAged(t, k, m, word, gen);
    forall x | x in t.at && |x| < |Base(t, k)|
      ensures Split(t, k, m, word, gen).at[x] == t.at[x] && NodeAt(Split(t, k, m, word, gen), x) == NodeAt(t, x)
    {
      SplitShort(t, k, m, word, gen, x);
    }
  }

  /** The node at k gets the child that waits for its slot. */
  ghost function Attach(t: Tree, k: Key, b: byte, c: int): Tree
    requires Named(t) && k in t.at
  {
    SetNode(t, k, NodeAt(t, k).(edges := NodeAt(t, k).edges[b := c], gen := NodeAt(t, k).gen + 1))
  }

  lemma Attached(t: Tree, pend: Pending, k: Key, b: byte, c: int)
    requires Inv(t, pend[k + [b] := c]) && k in t.at && k + [b] !in pend
    ensures Inv(Attach(t, k, b, c), pend) && Effect(t, Attach(t, k, b, c), |k|, map[])
  {
    hide SetNode, Named, Forwards, Down, Up, Target, NodeAt;
    var n, pend' := NodeAt(t, k), pend[k + [b] := c];
    var n' := n.(edges := n.edges[b := c], gen := n.gen + 1);
    AttachedShape(t, pend, k, b, c);
    SetEffect(t, k, n');
    NodeChanged(t, pend', k, n');
    DropPending(Attach(t, k, b, c), pend', k + [b]);
    assert pend' - {k + [b]} == pend;
  }

  lemma AttachedShape(t: Tree, pend: Pending, k: Key, b: byte, c: int)
    requires Inv(t, pend[k + [b] := c]) && k in t.at && k + [b] !in pend
    ensures var n := NodeAt(t, k);
            !n.moved && SameShape(t, pend[k + [b] := c], k, n.(edges := n.edges[b := c], gen := n.gen + 1))
    ensures Named(Attach(t, k, b, c)) && Target(Attach(t, k, b, c), pend[k + [b] := c] - {k + [b]}, k + [b]) == c
  {
    hide Down, Up, Forwards;
    var n, s := NodeAt(t, k), k + [b];
    assert s[..|s| - 1] == k;
    ChangedNamed(t, k, n.(edges := n.edges[b := c], gen := n.gen + 1));
  }

  lemma AttachAt(t: Tree, k: Key, b: byte, c: int)
    requires Named(t) && k in t.at
    ensures Attach(t, k, b, c).at == t.at
  {
  }

  lemma EffectLess(t: Tree, t': Tree, d: nat, e: nat, m: map<Key, Word>)
    requires Effect(t, t', e, m) && d <= e
    ensures Effect(t, t', d, m)
  {
    hide Named, NodeAt;
  }
}
