/** The elementary changes that insertion is made of, each shown to keep the tree invariant. */
module ArtSteps {
  import opened Bytes
  import opened ArtNodes
  import opened ArtTree

  ghost function SetNode(t: Tree, k: Key, n: Node): Tree
    requires Named(t) && k in t.at
  {
    t.(nodes := t.nodes[t.at[k] := n])
  }

  /** A new node without children below slot s. */
  ghost function AddLeaf(t: Tree, s: Key, n: Node): Tree {
    Tree(t.nodes + [n], t.path + [s + n.prefix], t.at[s + n.prefix := |t.nodes|], t.root)
  }

  /** The node at k is copied into a larger layout and left behind as a forwarding stub. */
  ghost function Grow(t: Tree, k: Key, rank: nat, gen: nat): Tree
    requires Named(t) && k in t.at
  {
    var n, id := NodeAt(t, k), |t.nodes|;
    Tree(t.nodes[t.at[k] := n.(moved := true, word := Word(false, id), gen := n.gen + 1)] +
         [n.(rank := rank, gen := gen)],
         t.path + [k], t.at[k := id], t.root)
  }

  /** A new node takes the first m bytes of the prefix of the node at k and becomes its parent. */
  ghost function Split(t: Tree, k: Key, m: nat, word: Word, gen: nat): Tree
    requires Named(t) && k in t.at && m < |NodeAt(t, k).prefix|
  {
    var n, id := NodeAt(t, k), |t.nodes|;
    var q := Base(t, k) + n.prefix[..m];
    Tree(t.nodes[t.at[k] := n.(prefix := n.prefix[m + 1..])] +
         [Node(false, 0, n.prefix[..m], map[n.prefix[m] := t.at[k]], word, gen)],
         t.path + [q], t.at[q := id], t.root)
  }

  /** Recording what a slot already points to changes no target. */
  lemma SameTargets(t: Tree, pend: Pending, s: Key)
    requires Named(t)
    ensures Up(t, pend[s := Target(t, pend, s)]) == Up(t, pend)
  {
    var pend' := pend[s := Target(t, pend, s)];
    assert forall x :: Target(t, pend', x) == Target(t, pend, x);
    hide Target;
    assert Up(t, pend) ==> forall x :: x in t.at ==> Target(t, pend, Base(t, x)) == t.at[x];
    assert Up(t, pend') ==> forall x :: x in t.at ==> Target(t, pend', Base(t, x)) == t.at[x];
  }

  /** One more pending slot, holding something that belongs there. */
  lemma PendDown(t: Tree, pend: Pending, s: Key, c: int)
    requires Named(t) && Down(t, pend) && Hangs(t, s, c) && (s == [] || s[..|s| - 1] in t.at)
    ensures Down(t, pend[s := c])
  {
    hide Named, Hangs;
  }

  /** A slot that already holds the right child may be treated as pending, and back. */
  lemma PendEdge(t: Tree, pend: Pending, k: Key, b: byte)
    requires Inv(t, pend) && k in t.at && b in NodeAt(t, k).edges && k + [b] !in pend
    ensures Inv(t, pend[k + [b] := NodeAt(t, k).edges[b]])
  {
    var s := k + [b];
    assert s[..|s| - 1] == k;
    assert Hangs(t, s, NodeAt(t, k).edges[b]);
    assert Target(t, pend, s) == NodeAt(t, k).edges[b];
    SameTargets(t, pend, s);
    PendDown(t, pend, s, NodeAt(t, k).edges[b]);
  }

  lemma DropPending(t: Tree, pend: Pending, s: Key)
    requires Inv(t, pend) && s in pend && Target(t, pend - {s}, s) == pend[s]
    ensures Inv(t, pend - {s})
  {
    hide Named, Forwards, Down, Up, Target;
    assert (pend - {s})[s := pend[s]] == pend;
    DropDown(t, pend, s);
    SameTargets(t, pend - {s}, s);
  }

  lemma DropDown(t: Tree, pend: Pending, s: Key)
    requires Named(t) && Down(t, pend) && s in pend && Target(t, pend - {s}, s) == pend[s]
    ensures Down(t, pend - {s})
  {
    hide Named, Hangs;
    forall k, b | k in t.at && b in NodeAt(t, k).edges && k + [b] !in pend - {s}
      ensures Hangs(t, k + [b], NodeAt(t, k).edges[b])
    {
      if k + [b] == s { assert s[..|s| - 1] == k; }
    }
  }

  /** Changing the word or the generation of a node, or its children behind pending slots, keeps the shape. */
  lemma NodeChanged(t: Tree, pend: Pending, k: Key, n: Node)
    requires Inv(t, pend) && k in t.at && !n.moved && SameShape(t, pend, k, n)
    ensures Inv(SetNode(t, k, n), pend)
  {
    ChangedNamed(t, k, n);
    ChangedDown(t, pend, k, n);
    ChangedUp(t, pend, k, n);
  }

  ghost predicate SameShape(t: Tree, pend: Pending, k: Key, n: Node)
    requires Named(t) && k in t.at
  {
    && n.prefix == NodeAt(t, k).prefix && n.rank == NodeAt(t, k).rank
    && forall b: byte :: k + [b] !in pend ==>
         if b in n.edges then b in NodeAt(t, k).edges && n.edges[b] == NodeAt(t, k).edges[b]
         else b !in NodeAt(t, k).edges
  }

  /** A node as far as forwarding sees it. */
  predicate SameStub(a: Node, b: Node) {
    a.moved == b.moved && a.rank == b.rank && (a.moved ==> a.word == b.word)
  }

  /** Forwarding survives when paths and layouts stay and whatever is new forwards too. */
  lemma ForwardsStay(t: Tree, t': Tree)
    requires |t.path| == |t.nodes| <= |t'.path| == |t'.nodes| && Forwards(t) && t.at.Keys <= t'.at.Keys
    requires forall i :: 0 <= i < |t.nodes| ==> t'.path[i] == t.path[i] && t'.nodes[i].rank == t.nodes[i].rank
    requires forall i {:trigger ForwardsAt(t', i)} {:trigger t'.nodes[i].moved} :: 0 <= i < |t'.nodes| ==>
               (i < |t.nodes| && SameStub(t'.nodes[i], t.nodes[i])) || ForwardsAt(t', i)
    ensures Forwards(t')
  {
    forall i | 0 <= i < |t'.nodes| ensures ForwardsAt(t', i) {
      if i < |t.nodes| && SameStub(t'.nodes[i], t.nodes[i]) {
        assert t.nodes[i].moved == t'.nodes[i].moved;
        assert ForwardsAt(t, i) && t.path[i] in t'.at;
      }
    }
  }

  lemma ChangedNamed(t: Tree, k: Key, n: Node)
    requires Named(t) && Forwards(t) && k in t.at
    requires !n.moved && n.prefix == NodeAt(t, k).prefix && n.rank == NodeAt(t, k).rank
    ensures Named(SetNode(t, k, n)) && Forwards(SetNode(t, k, n))
    ensures forall x :: x in t.at ==> NodeAt(SetNode(t, k, n), x) == if x == k then n else NodeAt(t, x)
    ensures forall x, c :: Hangs(t, x, c) ==> Hangs(SetNode(t, k, n), x, c)
  {
    var t' := SetNode(t, k, n);
    assert Named(t') by { hide Forwards; }
    ForwardsStay(t, t');
  }

  lemma ChangedDown(t: Tree, pend: Pending, k: Key, n: Node)
    requires Named(t) && Forwards(t) && Down(t, pend) && k in t.at && !n.moved && SameShape(t, pend, k, n)
    requires Named(SetNode(t, k, n))
    ensures Down(SetNode(t, k, n), pend)
  {
    hide Named, Forwards, Hangs, NodeAt;
    ChangedNamed(t, k, n);
  }

  lemma ChangedUp(t: Tree, pend: Pending, k: Key, n: Node)
    requires Named(t) && Forwards(t) && Up(t, pend) && k in t.at && !n.moved && SameShape(t, pend, k, n)
    requires Named(SetNode(t, k, n))
    ensures Up(SetNode(t, k, n), pend)
  {
    hide Named, Forwards, Hangs, NodeAt, Target;
    ChangedNamed(t, k, n);
    var t' := SetNode(t, k, n);
    forall x | x in t.at ensures Target(t', pend, Base(t', x)) == t.at[x] {
      ChangedTarget(t, pend, k, n, Base(t, x));
      assert Base(t', x) == Base(t, x);
    }
  }

  lemma ChangedTarget(t: Tree, pend: Pending, k: Key, n: Node, s: Key)
    requires Named(t) && k in t.at && SameShape(t, pend, k, n) && Named(SetNode(t, k, n))
    requires forall x :: x in t.at ==> NodeAt(SetNode(t, k, n), x) == if x == k then n else NodeAt(t, x)
    ensures Target(SetNode(t, k, n), pend, s) == Target(t, pend, s)
  {
    hide Named, NodeAt;
    assert s != [] ==> s == s[..|s| - 1] + [s[|s| - 1]];
  }

  lemma LeafAdded(t: Tree, pend: Pending, s: Key, n: Node)
    requires Inv(t, pend) && Target(t, pend, s) == -1 && (s == [] || s[..|s| - 1] in t.at)
    requires !n.moved && n.edges == map[] && n.rank <= 3
    ensures s + n.prefix !in t.at
    ensures Inv(AddLeaf(t, s, n), pend[s := |t.nodes|])
  {
    if s + n.prefix in t.at { NothingBehind(t, pend, s, s + n.prefix); }
    LeafNamed(t, s, n);
    LeafDown(t, pend, s, n);
    LeafUp(t, pend, s, n);
  }

  /** A leaf is added at the end of the pool; everything else stays. */
  lemma LeafFacts(t: Tree, s: Key, n: Node)
    requires |t.path| == |t.nodes|
    ensures var t', m := AddLeaf(t, s, n), |t.nodes|;
            && |t'.path| == |t'.nodes| == m + 1 && t'.nodes[m] == n && t'.path[m] == s + n.prefix
            && t'.at == t.at[s + n.prefix := m] && t'.root == t.root
            && forall i :: 0 <= i < m ==> t'.nodes[i] == t.nodes[i] && t'.path[i] == t.path[i]
  {
  }

  lemma LeafNamed(t: Tree, s: Key, n: Node)
    requires Named(t) && Forwards(t) && !n.moved && n.rank <= 3 && s + n.prefix !in t.at
    ensures Named(AddLeaf(t, s, n)) && Forwards(AddLeaf(t, s, n))
    ensures forall x :: x in AddLeaf(t, s, n).at ==>
      NodeAt(AddLeaf(t, s, n), x) == if x in t.at then NodeAt(t, x) else n
    ensures forall x, c :: Hangs(t, x, c) ==> Hangs(AddLeaf(t, s, n), x, c)
    ensures Hangs(AddLeaf(t, s, n), s, |t.nodes|)
  {
    hide AddLeaf, Forwards, Named, NodeAt, Hangs;
    LeafNames(t, s, n);
    LeafForwards(t, s, n);
    LeafFaces(t, s, n);
    LeafHangs(t, s, n);
  }

  lemma LeafNames(t: Tree, s: Key, n: Node)
    requires Named(t) && !n.moved && s + n.prefix !in t.at
    ensures Named(AddLeaf(t, s, n))
  {
    hide AddLeaf;
    LeafFacts(t, s, n);
  }

  lemma LeafForwards(t: Tree, s: Key, n: Node)
    requires Named(t) && Forwards(t) && !n.moved && n.rank <= 3
    ensures |AddLeaf(t, s, n).path| == |AddLeaf(t, s, n).nodes| && Forwards(AddLeaf(t, s, n))
  {
    hide AddLeaf, Forwards;
    LeafFacts(t, s, n);
    ForwardsStay(t, AddLeaf(t, s, n));
  }

  lemma LeafFaces(t: Tree, s: Key, n: Node)
    requires Named(t) && Named(AddLeaf(t, s, n)) && s + n.prefix !in t.at
    ensures forall x :: x in AddLeaf(t, s, n).at ==>
      NodeAt(AddLeaf(t, s, n), x) == if x in t.at then NodeAt(t, x) else n
  {
    hide AddLeaf;
    LeafFacts(t, s, n);
  }

  lemma LeafHangs(t: Tree, s: Key, n: Node)
    requires Named(t) && Named(AddLeaf(t, s, n)) && !n.moved
    ensures forall x, c :: Hangs(t, x, c) ==> Hangs(AddLeaf(t, s, n), x, c)
    ensures Hangs(AddLeaf(t, s, n), s, |t.nodes|)
  {
    hide AddLeaf, Named;
    LeafSizes(t, s, n);
    LeafFacts(t, s, n);
  }

  lemma LeafSizes(t: Tree, s: Key, n: Node)
    requires Named(t)
    ensures |t.path| == |t.nodes|
  {
  }

  lemma LeafDown(t: Tree, pend: Pending, s: Key, n: Node)
    requires Named(t) && Forwards(t) && Down(t, pend) && (s == [] || s[..|s| - 1] in t.at)
    requires !n.moved && n.edges == map[] && n.rank <= 3 && s + n.prefix !in t.at && Named(AddLeaf(t, s, n))
    ensures Down(AddLeaf(t, s, n), pend[s := |t.nodes|])
  {
    hide Named, Forwards, Hangs, NodeAt;
    LeafNamed(t, s, n);
    PendDown(AddLeaf(t, s, n), pend, s, |t.nodes|);
  }

  lemma LeafUp(t: Tree, pend: Pending, s: Key, n: Node)
    requires Named(t) && Forwards(t) && Up(t, pend) && Target(t, pend, s) == -1
    requires !n.moved && n.edges == map[] && n.rank <= 3 && s + n.prefix !in t.at && Named(AddLeaf(t, s, n))
    ensures Up(AddLeaf(t, s, n), pend[s := |t.nodes|])
  {
    hide Forwards, Hangs, NodeAt, Target;
    LeafNamed(t, s, n);
    var t', pend' := AddLeaf(t, s, n), pend[s := |t.nodes|];
    forall x | x in t'.at ensures Target(t', pend', Base(t', x)) == t'.at[x] {
      if x == s + n.prefix {
        assert Base(t', x) == s;
        PendingTarget(t', pend', s);
      } else {
        LeafTarget(t, pend, s, n, Base(t, x));
      }
    }
  }

  lemma PendingTarget(t: Tree, pend: Pending, s: Key)
    requires Named(t) && s in pend
    ensures Target(t, pend, s) == pend[s]
  {
  }

  lemma LeafTarget(t: Tree, pend: Pending, s: Key, n: Node, x: Key)
    requires Named(t) && Named(AddLeaf(t, s, n)) && n.edges == map[] && Target(t, pend, s) == -1
    requires forall x :: x in AddLeaf(t, s, n).at ==>
      NodeAt(AddLeaf(t, s, n), x) == if x in t.at then NodeAt(t, x) else n
    ensures Target(t, pend, x) != -1 ==> Target(AddLeaf(t, s, n), pend[s := |t.nodes|], x) == Target(t, pend, x)
  {
    hide Named, NodeAt;
  }

  /** Same prefix, children and value. */
  ghost predicate SameFace(a: Node, b: Node) {
    a.prefix == b.prefix && a.edges == b.edges && a.word == b.word
  }

  lemma Grown(t: Tree, pend: Pending, k: Key, rank: nat, gen: nat)
    requires Inv(t, pend) && k in t.at && Base(t, k) in pend && NodeAt(t, k).rank < rank <= 3
    ensures Inv(Grow(t, k, rank, gen), pend[Base(t, k) := |t.nodes|])
  {
    hide Grow, Base, NodeAt, Target, Named, Forwards, Down, Up;
    GrownNamed(t, k, rank, gen);
    GrownDown(t, pend, k, rank, gen);
    GrownUp(t, pend, k, rank, gen);
  }

  lemma GrowFacts(t: Tree, k: Key, rank: nat, gen: nat)
    requires Named(t) && k in t.at
    ensures var t', m, i, n := Grow(t, k, rank, gen), |t.nodes|, t.at[k], NodeAt(t, k);
            && |t'.path| == |t'.nodes| == m + 1 && t'.path[m] == k
            && t'.nodes[m] == n.(rank := rank, gen := gen)
            && t'.nodes[i] == n.(moved := true, word := Word(false, m), gen := n.gen + 1)
            && t'.at == t.at[k := m] && t'.root == t.root
            && (forall j :: 0 <= j < m ==> t'.path[j] == t.path[j] && (j != i ==> t'.nodes[j] == t.nodes[j]))
  {
  }

  /** Growing renames one node and leaves every standing prefix, word and child as it was. */
  lemma GrownNamed(t: Tree, k: Key, rank: nat, gen: nat)
    requires Named(t) && Forwards(t) && k in t.at && NodeAt(t, k).rank < rank <= 3
    ensures var t' := Grow(t, k, rank, gen);
            && Named(t') && Forwards(t') && t'.at == t.at[k := |t.nodes|] && t'.root == t.root
  {
    hide Grow, Named, Forwards, NodeAt;
    GrownNames(t, k, rank, gen);
    GrownForwards(t, k, rank, gen);
  }

  lemma GrownNames(t: Tree, k: Key, rank: nat, gen: nat)
    requires Named(t) && k in t.at
    ensures var t' := Grow(t, k, rank, gen); Named(t') && t'.at == t.at[k := |t.nodes|] && t'.root == t.root
  {
    hide Grow;
    GrowFacts(t, k, rank, gen);
  }

  lemma GrownForwards(t: Tree, k: Key, rank: nat, gen: nat)
    requires Named(t) && Forwards(t) && k in t.at && NodeAt(t, k).rank < rank <= 3 && Named(Grow(t, k, rank, gen))
    ensures Forwards(Grow(t, k, rank, gen))
  {
    hide Grow, Named, NodeAt, Forwards;
    GrowFacts(t, k, rank, gen);
    NodeIs(t, k);
    ForwardsStay(t, Grow(t, k, rank, gen));
  }

  lemma GrownFaces(t: Tree, k: Key, rank: nat, gen: nat)
    requires Named(t) && k in t.at && Named(Grow(t, k, rank, gen))
    ensures forall x :: x in t.at ==> SameFace(NodeAt(Grow(t, k, rank, gen), x), NodeAt(t, x))
  {
    hide Grow;
    GrowFacts(t, k, rank, gen);
  }

  /** A node hangs from one slot only. */
  lemma HangsOnce(t: Tree, k: Key, x: Key, c: int)
    requires Named(t) && k in t.at && Hangs(t, x, c)
    ensures c == t.at[k] ==> x == Base(t, k)
  {
  }

  lemma GrownHangs(t: Tree, k: Key, rank: nat, gen: nat)
    requires Named(t) && k in t.at && Named(Grow(t, k, rank, gen))
    ensures forall x, c :: x != Base(t, k) && Hangs(t, x, c) ==> Hangs(Grow(t, k, rank, gen), x, c)
    ensures Hangs(Grow(t, k, rank, gen), Base(t, k), |t.nodes|)
  {
    hide Grow;
    GrowFacts(t, k, rank, gen);
    forall x, c | x != Base(t, k) && Hangs(t, x, c) ensures Hangs(Grow(t, k, rank, gen), x, c) {
      HangsOnce(t, k, x, c);
    }
  }

  lemma GrownDown(t: Tree, pend: Pending, k: Key, rank: nat, gen: nat)
    requires Named(t) && Forwards(t) && Down(t, pend) && k in t.at && Base(t, k) in pend
    requires NodeAt(t, k).rank < rank <= 3 && Named(Grow(t, k, rank, gen))
    ensures Down(Grow(t, k, rank, gen), pend[Base(t, k) := |t.nodes|])
  {
    hide Named, Forwards, Hangs, NodeAt, Grow, Base;
    GrownNamed(t, k, rank, gen);
    GrownFaces(t, k, rank, gen);
    GrownHangs(t, k, rank, gen);
  }

  lemma GrownUp(t: Tree, pend: Pending, k: Key, rank: nat, gen: nat)
    requires Named(t) && Forwards(t) && Up(t, pend) && k in t.at && Base(t, k) in pend
    requires NodeAt(t, k).rank < rank <= 3 && Named(Grow(t, k, rank, gen))
    ensures Up(Grow(t, k, rank, gen), pend[Base(t, k) := |t.nodes|])
  {
    hide Forwards, NodeAt, Grow;
    GrownNamed(t, k, rank, gen);
    GrownFaces(t, k, rank, gen);
    var t', s := Grow(t, k, rank, gen), Base(t, k);
    assert Target(t, pend, s) == t.at[k];
    forall x | x in t'.at ensures Target(t', pend[s := |t.nodes|], Base(t', x)) == t'.at[x] {
      assert Base(t', x) == Base(t, x);
      assert Target(t, pend, Base(t, x)) == t.at[x];
      if x != k {
        assert t.path[t.at[x]] == x && t.path[t.at[k]] == k;
      }
    }
  }

  lemma WasSplit(t: Tree, pend: Pending, k: Key, m: nat, word: Word, gen: nat)
    requires Inv(t, pend) && k in t.at && Base(t, k) in pend && m < |NodeAt(t, k).prefix|
    ensures Base(t, k) + NodeAt(t, k).prefix[..m] !in t.at
    ensures Inv(Split(t, k, m, word, gen), pend[Base(t, k) := |t.nodes|])
  {
    hide Split, Forwards, Up, Target, EdgesHang, SlotsHang;
    var q := Base(t, k) + NodeAt(t, k).prefix[..m];
    if q in t.at { SlotLeadsTo(t, pend, k, q); }
    SplitNamed(t, k, m, word, gen);
    SplitDown(t, pend, k, m, word, gen);
    SplitUp(t, pend, k, m, word, gen);
  }

  lemma SplitFacts(t: Tree, k: Key, m: nat, word: Word, gen: nat)
    requires Named(t) && k in t.at && m < |NodeAt(t, k).prefix|
    ensures var t', id, i, n := Split(t, k, m, word, gen), |t.nodes|, t.at[k], NodeAt(t, k);
            var q := Base(t, k) + n.prefix[..m];
            && |t'.path| == |t'.nodes| == id + 1 && t'.path[id] == q
            && t'.nodes[id] == Node(false, 0, n.prefix[..m], map[n.prefix[m] := i], word, gen)
            && t'.nodes[i] == n.(prefix := n.prefix[m + 1..])
            && t'.at == t.at[q := id] && t'.root == t.root
            && (forall j :: 0 <= j < id ==> t'.path[j] == t.path[j] && (j != i ==> t'.nodes[j] == t.nodes[j]))
    ensures |Base(t, k) + NodeAt(t, k).prefix[..m]| + 1 + |NodeAt(t, k).prefix[m + 1..]| == |k|
    ensures k == Base(t, k) + NodeAt(t, k).prefix[..m] + [NodeAt(t, k).prefix[m]] + NodeAt(t, k).prefix[m + 1..]
  {
  }

  lemma SplitNamed(t: Tree, k: Key, m: nat, word: Word, gen: nat)
    requires Named(t) && Forwards(t) && k in t.at && m < |NodeAt(t, k).prefix|
    requires Base(t, k) + NodeAt(t, k).prefix[..m] !in t.at
    ensures var t', q := Split(t, k, m, word, gen), Base(t, k) + NodeAt(t, k).prefix[..m];
            && Named(t') && Forwards(t') && t'.at == t.at[q := |t.nodes|] && t'.root == t.root
            && NodeAt(t', q) == Node(false, 0, NodeAt(t, k).prefix[..m], map[NodeAt(t, k).prefix[m] := t.at[k]],
                word, gen)
            && NodeAt(t', k) == NodeAt(t, k).(prefix := NodeAt(t, k).prefix[m + 1..])
            && (forall x :: x in t.at && x != k ==> NodeAt(t', x) == NodeAt(t, x))
            && Base(t', q) == Base(t, k) && Base(t', k) == q + [NodeAt(t, k).prefix[m]]
  {
    hide Split, Named, Forwards, NodeAt, Base;
    SplitNames(t, k, m, word, gen);
    SplitForwards(t, k, m, word, gen);
    SplitFaces(t, k, m, word, gen);
  }

  lemma SplitNames(t: Tree, k: Key, m: nat, word: Word, gen: nat)
    requires Named(t) && k in t.at && m < |NodeAt(t, k).prefix|
    requires Base(t, k) + NodeAt(t, k).prefix[..m] !in t.at
    ensures var t', q := Split(t, k, m, word, gen), Base(t, k) + NodeAt(t, k).prefix[..m];
            Named(t') && t'.at == t.at[q := |t.nodes|] && t'.root == t.root
  {
    hide Split, Base;
    SplitFacts(t, k, m, word, gen);
    SplitPrefix(t, k, m);
    var t', q := Split(t, k, m, word, gen), Base(t, k) + NodeAt(t, k).prefix[..m];
    forall x | x in t'.at
      ensures 0 <= t'.at[x] < |t'.nodes| && !t'.nodes[t'.at[x]].moved && t'.path[t'.at[x]] == x
      ensures |t'.nodes[t'.at[x]].prefix| <= |x| && t'.nodes[t'.at[x]].prefix == x[|x| - |t'.nodes[t'.at[x]].prefix|..]
    {
      if x != q && x != k {
        assert t.at[x] != t.at[k];
      }
    }
    forall i | 0 <= i < |t'.nodes| && !t'.nodes[i].moved ensures t'.path[i] in t'.at && t'.at[t'.path[i]] == i {
      if i < |t.nodes| {
        assert t.path[i] in t.at && t.path[i] != q;
      }
    }
  }

  /** Both halves of a split prefix end the path of their node. */
  lemma SplitPrefix(t: Tree, k: Key, m: nat)
    requires Named(t) && k in t.at && m < |NodeAt(t, k).prefix|
    ensures var p, q := NodeAt(t, k).prefix, Base(t, k) + NodeAt(t, k).prefix[..m];
            && |p| <= |k| && p[m + 1..] == k[|k| - |p[m + 1..]|..]
            && m <= |q| && p[..m] == q[|q| - m..]
  {
  }

  lemma SplitForwards(t: Tree, k: Key, m: nat, word: Word, gen: nat)
    requires Named(t) && Forwards(t) && k in t.at && m < |NodeAt(t, k).prefix| && Named(Split(t, k, m, word, gen))
    requires Base(t, k) + NodeAt(t, k).prefix[..m] !in t.at
    ensures Forwards(Split(t, k, m, word, gen))
  {
    hide Split, Base, Named, NodeAt, Forwards;
    SplitFacts(t, k, m, word, gen);
    NodeIs(t, k);
    ForwardsStay(t, Split(t, k, m, word, gen));
  }

  lemma SplitFaces(t: Tree, k: Key, m: nat, word: Word, gen: nat)
    requires Named(t) && k in t.at && m < |NodeAt(t, k).prefix| && Named(Split(t, k, m, word, gen))
    requires Base(t, k) + NodeAt(t, k).prefix[..m] !in t.at
    ensures var t', q := Split(t, k, m, word, gen), Base(t, k) + NodeAt(t, k).prefix[..m];
            && q in t'.at && k in t'.at && (forall x :: x in t.at ==> x in t'.at)
            && NodeAt(t', q) == Node(false, 0, NodeAt(t, k).prefix[..m], map[NodeAt(t, k).prefix[m] := t.at[k]],
                word, gen)
            && NodeAt(t', k) == NodeAt(t, k).(prefix := NodeAt(t, k).prefix[m + 1..])
            && (forall x :: x in t.at && x != k ==> NodeAt(t', x) == NodeAt(t, x))
            && Base(t', q) == Base(t, k) && Base(t', k) == q + [NodeAt(t, k).prefix[m]]
  {
    hide Split;
    SplitFacts(t, k, m, word, gen);
  }

  lemma SplitHangs(t: Tree, k: Key, m: nat, word: Word, gen: nat)
    requires Named(t) && k in t.at && m < |NodeAt(t, k).prefix| && Named(Split(t, k, m, word, gen))
    requires Base(t, k) + NodeAt(t, k).prefix[..m] !in t.at
    ensures forall x, c :: x != Base(t, k) && Hangs(t, x, c) ==> Hangs(Split(t, k, m, word, gen), x, c)
    ensures Hangs(Split(t, k, m, word, gen), Base(t, k), |t.nodes|)
    ensures Hangs(Split(t, k, m, word, gen), Base(t, k) + NodeAt(t, k).prefix[..m] + [NodeAt(t, k).prefix[m]], t.at[k])
  {
    hide Split;
    SplitFacts(t, k, m, word, gen);
    forall x, c | x != Base(t, k) && Hangs(t, x, c) ensures Hangs(Split(t, k, m, word, gen), x, c) {
      HangsOnce(t, k, x, c);
    }
  }

  lemma SplitDown(t: Tree, pend: Pending, k: Key, m: nat, word: Word, gen: nat)
    requires Named(t) && Forwards(t) && Down(t, pend) && k in t.at && Base(t, k) in pend
    requires m < |NodeAt(t, k).prefix| && Named(Split(t, k, m, word, gen))
    requires Base(t, k) + NodeAt(t, k).prefix[..m] !in t.at
    ensures Down(Split(t, k, m, word, gen), pend[Base(t, k) := |t.nodes|])
  {
    hide Named, Forwards, Hangs, NodeAt, Split, Base;
    SplitNamed(t, k, m, word, gen);
    SplitHangs(t, k, m, word, gen);
  }

  lemma SplitUp(t: Tree, pend: Pending, k: Key, m: nat, word: Word, gen: nat)
    requires Named(t) && Forwards(t) && Up(t, pend) && SlotsHang(t, pend) && k in t.at && Base(t, k) in pend
    requires m < |NodeAt(t, k).prefix| && Named(Split(t, k, m, word, gen))
    requires Base(t, k) + NodeAt(t, k).prefix[..m] !in t.at
    ensures Up(Split(t, k, m, word, gen), pend[Base(t, k) := |t.nodes|])
  {
    hide Forwards, Split, Hangs, Target;
    SplitNamed(t, k, m, word, gen);
    var t', s, q := Split(t, k, m, word, gen), Base(t, k), Base(t, k) + NodeAt(t, k).prefix[..m];
    forall x | x in t'.at ensures Target(t', pend[s := |t.nodes|], Base(t', x)) == t'.at[x] {
      if x == q {
        PendingTarget(t', pend[s := |t.nodes|], s);
      } else if x == k {
        SplitChild(t, pend, k, m, word, gen);
      } else {
        assert Base(t', x) == Base(t, x);
        assert Target(t, pend, Base(t, x)) == t.at[x];
        assert t.path[t.at[x]] == x && t.path[t.at[k]] == k;
        SplitTarget(t, pend, k, m, word, gen, Base(t, x));
      }
    }
  }

  lemma SplitChild(t: Tree, pend: Pending, k: Key, m: nat, word: Word, gen: nat)
    requires Named(t) && Forwards(t) && SlotsHang(t, pend) && k in t.at && Base(t, k) in pend
    requires m < |NodeAt(t, k).prefix| && Named(Split(t, k, m, word, gen))
    requires Base(t, k) + NodeAt(t, k).prefix[..m] !in t.at
    ensures var t' := Split(t, k, m, word, gen);
            k in t'.at && Target(t', pend[Base(t, k) := |t.nodes|], Base(t', k)) == t.at[k]
  {
    hide Split, Forwards, NodeAt, Named, Base;
    SplitNamed(t, k, m, word, gen);
    var q := Base(t, k) + NodeAt(t, k).prefix[..m];
    assert (q + [NodeAt(t, k).prefix[m]])[..|q|] == q;
  }

  lemma SplitTarget(t: Tree, pend: Pending, k: Key, m: nat, word: Word, gen: nat, x: Key)
    requires Named(t) && Forwards(t) && k in t.at && m < |NodeAt(t, k).prefix| && Named(Split(t, k, m, word, gen))
    requires Base(t, k) + NodeAt(t, k).prefix[..m] !in t.at
    requires Target(t, pend, x) != -1 && x != Base(t, k)
    ensures Target(Split(t, k, m, word, gen), pend[Base(t, k) := |t.nodes|], x) == Target(t, pend, x)
  {
    hide Split, Forwards, NodeAt, Named, Base;
    SplitNamed(t, k, m, word, gen);
  }
}
