/**
 The node pool as a value, and what makes it a tree.

 `path[id]` is the whole key spelled from the root to the end of node id's prefix: the permanent identity
 of the node. `at` gives the node now standing at a path. The place a node hangs from is a slot, named by
 the bytes that lead to it: [] for the root pointer, path + [b] for the child pointer b of a node.
 While a recursive operation rebuilds a subtree, the slot above it still holds the old child id: such
 slots are collected in `pend` with the id they are about to receive.
 */
module ArtTree {
  import opened Bytes
  import opened ArtNodes

  /** A node as a value. `rank` is the layout it was allocated with. */
  datatype Node = Node(moved: bool, rank: nat, prefix: Key, edges: map<byte, int>, word: Word, gen: nat)

  datatype Tree = Tree(nodes: seq<Node>, path: seq<Key>, at: map<Key, int>, root: int)

  type Pending = map<Key, int>

  const EMPTY_TREE := Tree([], [], map[], -1)

  /** Every path names one standing node, which ends with its own prefix. */
  ghost predicate Named(t: Tree) {
    && |t.path| == |t.nodes|
    && (forall k {:trigger t.at[k]} {:trigger k in t.at} :: k in t.at ==>
          && 0 <= t.at[k] < |t.nodes| && !t.nodes[t.at[k]].moved && t.path[t.at[k]] == k
          && |t.nodes[t.at[k]].prefix| <= |k|
          && t.nodes[t.at[k]].prefix == k[|k| - |t.nodes[t.at[k]].prefix|..])
    && (forall i {:trigger t.path[i]} :: 0 <= i < |t.nodes| && !t.nodes[i].moved ==>
        t.path[i] in t.at && t.at[t.path[i]] == i)
  }

  /** A moved node forwards to a node of the same path and a larger layout. */
  ghost predicate ForwardsAt(t: Tree, i: nat)
    requires i < |t.path| == |t.nodes|
  {
    && t.nodes[i].rank <= 3
    && t.path[i] in t.at
    && (t.nodes[i].moved ==>
          && !t.nodes[i].word.has && t.nodes[i].word.off < |t.nodes|
          && t.path[t.nodes[i].word.off] == t.path[i]
          && t.nodes[t.nodes[i].word.off].rank > t.nodes[i].rank)
  }

  ghost predicate Forwards(t: Tree)
    requires |t.path| == |t.nodes|
  {
    forall i {:trigger t.nodes[i].moved} :: 0 <= i < |t.nodes| ==> ForwardsAt(t, i)
  }

  ghost function NodeAt(t: Tree, k: Key): Node
    requires Named(t) && k in t.at
  {
    t.nodes[t.at[k]]
  }

  lemma NodeIs(t: Tree, k: Key)
    requires Named(t) && k in t.at
    ensures 0 <= t.at[k] < |t.nodes| == |t.path| && NodeAt(t, k) == t.nodes[t.at[k]] && !NodeAt(t, k).moved
    ensures t.path[t.at[k]] == k
  {
  }

  /** The slot from which the node at path k hangs. */
  ghost function Base(t: Tree, k: Key): Key
    requires Named(t) && k in t.at
  {
    k[..|k| - |NodeAt(t, k).prefix|]
  }

  ghost predicate Hangs(t: Tree, s: Key, c: int)
    requires Named(t)
  {
    0 <= c < |t.nodes| && !t.nodes[c].moved && t.path[c] == s + t.nodes[c].prefix
  }

  /** What a slot points to, with pending slots already updated; -1 when it is vacant. */
  ghost function Target(t: Tree, pend: Pending, s: Key): int
    requires Named(t)
  {
    if s in pend then pend[s]
    else if s == [] then t.root
    else if s[..|s| - 1] in t.at && s[|s| - 1] in NodeAt(t, s[..|s| - 1]).edges
      then NodeAt(t, s[..|s| - 1]).edges[s[|s| - 1]]
    else -1
  }

  /** Every slot that holds a child holds one that belongs there. */
  ghost predicate Down(t: Tree, pend: Pending)
    requires Named(t)
  {
    EdgesHang(t, pend) && SlotsHang(t, pend) && (t.root == -1 || [] in pend || Hangs(t, [], t.root))
  }

  ghost predicate EdgesHang(t: Tree, pend: Pending)
    requires Named(t)
  {
    forall k, b {:trigger b in NodeAt(t, k).edges} :: k in t.at && b in NodeAt(t, k).edges && k + [b] !in pend ==>
      Hangs(t, k + [b], NodeAt(t, k).edges[b])
  }

  ghost predicate SlotsHang(t: Tree, pend: Pending)
    requires Named(t)
  {
    forall s {:trigger s in pend} :: s in pend ==> Hangs(t, s, pend[s]) && (s == [] || s[..|s| - 1] in t.at)
  }

  /** Every standing node is held by its slot, hence reachable from the root. */
  ghost predicate Up(t: Tree, pend: Pending)
    requires Named(t)
  {
    forall k {:trigger Base(t, k)} :: k in t.at ==> Target(t, pend, Base(t, k)) == t.at[k]
  }

  ghost predicate Inv(t: Tree, pend: Pending) {
    Named(t) && Forwards(t) && Down(t, pend) && Up(t, pend)
  }

  /** The tree as a map from keys to box offsets: the standing nodes whose word has a value. */
  ghost function Contents(t: Tree): (m: map<Key, nat>)
    requires Named(t)
  {
    map k | k in t.at && NodeAt(t, k).word.has :: NodeAt(t, k).word.off
  }

  /** The slot of a standing node other than the root hangs from a standing node. */
  lemma ParentStands(t: Tree, pend: Pending, k: Key)
    requires Inv(t, pend) && k in t.at && Base(t, k) != []
    ensures Base(t, k)[..|Base(t, k)| - 1] in t.at
  {
    assert Target(t, pend, Base(t, k)) == t.at[k];
  }

  /** A slot leads to one node: every standing path through the slot of k runs through k. */
  lemma {:induction false} SlotLeadsTo(t: Tree, pend: Pending, k: Key, x: Key)
    requires Inv(t, pend) && k in t.at && x in t.at && Base(t, k) <= x
    ensures k <= x
    decreases |k| + |x|
  {
    hide Target, Down, Forwards;
    var bk, bx := Base(t, k), Base(t, x);
    assert bk <= k && bx <= x;
    if |bx| < |bk| {
      ParentStands(t, pend, k);
      var q := bk[..|bk| - 1];
      assert bx <= q;
      SlotLeadsTo(t, pend, x, q);
      assert false;
    } else if |bx| == |bk| {
      assert bx == bk;
      assert t.path[t.at[k]] == t.path[t.at[x]];
    } else {
      ParentStands(t, pend, x);
      SlotLeadsTo(t, pend, k, bx[..|bx| - 1]);
    }
  }

  /** Nothing stands behind a vacant slot. */
  lemma {:induction false} NothingBehind(t: Tree, pend: Pending, s: Key, k: Key)
    requires Inv(t, pend) && Target(t, pend, s) == -1 && (s == [] || s[..|s| - 1] in t.at)
    requires k in t.at
    ensures !(s <= k)
    decreases |k|
  {
    hide Target, Down, Forwards;
    if s <= k {
      var bk := Base(t, k);
      assert bk <= k && (|bk| == |s| ==> bk == s);
      if |bk| < |s| {
        assert bk <= s[..|s| - 1];
        SlotLeadsTo(t, pend, k, s[..|s| - 1]);
      } else if |bk| == |s| {
      } else {
        ParentStands(t, pend, k);
        NothingBehind(t, pend, s, bk[..|bk| - 1]);
      }
    }
  }
}
