/**
 The node pool: an append-only array of nodes addressed by id. Each method makes one elementary
 change in place and is tied to the corresponding step on the tree value `t`.
 Allocation is taken to succeed.
 */
module ArtPools {
  import opened Bytes
  import opened ArtNodes
  import opened ArtTree
  import opened ArtSteps

  /** The tree value v describes the node object n. */
  ghost predicate Matches(n: ArtNode, v: Node)
    reads n
  {
    && v.moved == (n.kind == Moved) && v.rank == Rank(n.born)
    && v.prefix == n.prefix && v.word == n.word && v.gen == n.structGen
    && (n.kind != Moved ==> v.edges == n.edges)
  }

  function NextKind(k: Kind): Kind
    requires k != Moved && k != N256
  {
    match k
    case N4 => N16
    case N16 => N48
    case N48 => N256
  }

  /** A node grows to the smallest layout that holds more: 4, 16, 48 and 256 children. */
  lemma NextHoldsMore(k: Kind, j: Kind)
    requires k != Moved && k != N256
    ensures Capacity(NextKind(k)) > Capacity(k)
    ensures Capacity(j) > Capacity(k) ==> Capacity(j) >= Capacity(NextKind(k))
    ensures Capacity(k) == (if k == N4 then 4 else if k == N16 then 16 else 48) && Capacity(N256) == 256
  {
  }

  class ArtPool {
    var nodes: seq<ArtNode>
    var root: int            // -1 while the store is empty
    var genEpoch: nat
    ghost var t: Tree
    ghost var repr: set<object>

    ghost predicate Valid()
      reads this, repr
    {
      && this in repr
      && |nodes| == |t.nodes| && root == t.root
      && (forall i :: 0 <= i < |nodes| ==>
            nodes[i] in repr && nodes[i].bytes in repr && nodes[i].children in repr
            && nodes[i].Valid() && Matches(nodes[i], t.nodes[i]))
      && Separate(nodes)
    }

    static ghost predicate Separate(ns: seq<ArtNode>) {
      forall i, j :: 0 <= i < j < |ns| ==>
        ns[i] != ns[j] && ns[i].bytes != ns[j].bytes && ns[i].children != ns[j].children
    }

    constructor ()
      ensures Valid() && fresh(repr) && t == EMPTY_TREE && nodes == []
    {
      nodes, root, genEpoch, t := [], -1, 0, EMPTY_TREE;
      repr := {this};
    }

    /** A node without children, below slot s. */
    method NewLeaf(ghost s: Key, prefix: Key, word: Word) returns (id: nat)
      requires Valid() && |prefix| <= PREFIX_MAX
      modifies this
      ensures Valid() && fresh(repr - old(repr)) && old(repr) <= repr
      ensures id == |old(nodes)| == |nodes| - 1 && nodes[..id] == old(nodes)
      ensures t == AddLeaf(old(t), s, Node(false, 0, prefix, map[], word, old(genEpoch) + 1))
      ensures nodes[id].kind == N4 && nodes[id].count == 0 && fresh(nodes[id]) && fresh(nodes[id].bytes)
      ensures fresh(nodes[id].children)
    {
      hide ArtNode.Valid;
      genEpoch := genEpoch + 1;
      id := |nodes|;
      var n := new ArtNode(N4, prefix, word, genEpoch);
      nodes, t := nodes + [n], AddLeaf(t, s, Node(false, 0, prefix, map[], word, genEpoch));
      repr := repr + {n, n.bytes, n.children};
    }

    method SetRoot(r: int)
      requires Valid()
      modifies `root, `t
      ensures Valid() && t == old(t).(root := r)
    {
      root, t := r, t.(root := r);
    }

    /** After nodes[id] alone has changed, the pool is valid again with its new value. */
    ghost method Refresh(id: nat, v: Node)
      requires this in repr && |nodes| == |t.nodes| && root == t.root && Separate(nodes) && id < |nodes|
      requires forall i :: 0 <= i < |nodes| ==> nodes[i] in repr && nodes[i].bytes in repr && nodes[i].children in repr
      requires forall i :: 0 <= i < |nodes| && i != id ==> nodes[i].Valid() && Matches(nodes[i], t.nodes[i])
      requires nodes[id].Valid() && Matches(nodes[id], v)
      modifies `t
      ensures Valid() && t == old(t).(nodes := old(t).nodes[id := v])
    {
      t := t.(nodes := t.nodes[id := v]);
    }

    method SetWord(id: nat, w: Word)
      requires Valid() && id < |nodes|
      modifies `t, nodes[id]
      ensures Valid() && nodes[id].kind == old(nodes[id].kind)
      ensures t == old(t).(nodes := old(t).nodes[id := old(t).nodes[id].(word := w)])
    {
      nodes[id].SetWord(w);
      Refresh(id, t.nodes[id].(word := w));
    }

    method BumpStructGen(id: nat)
      requires Valid() && id < |nodes|
      modifies `t, nodes[id]
      ensures Valid()
      ensures t == old(t).(nodes := old(t).nodes[id := old(t).nodes[id].(gen := old(t).nodes[id].gen + 1)])
    {
      nodes[id].BumpStructGen();
      Refresh(id, t.nodes[id].(gen := t.nodes[id].gen + 1));
    }

    /** The edge b -> c, if there is room. */
    method AddEdge(id: nat, b: byte, c: int) returns (ok: bool)
      requires Valid() && id < |nodes| && !t.nodes[id].moved && c >= 0 && b !in t.nodes[id].edges
      modifies `t, nodes[id], nodes[id].bytes, nodes[id].children
      ensures Valid() && nodes[id].kind == old(nodes[id].kind)
      ensures ok == (nodes[id].kind == N256 || old(nodes[id].count) < Capacity(nodes[id].kind))
      ensures ok ==> t == old(t).(nodes := old(t).nodes[id :=
                            old(t).nodes[id].(edges := old(t).nodes[id].edges[b := c],
                                gen := old(t).nodes[id].gen + 1)])
    {
      ok := nodes[id].AddChild(b, c);
      Refresh(id, t.nodes[id].(edges := nodes[id].edges, gen := t.nodes[id].gen + 1));
    }

    /** Repoints the edge b to c: remove, then add, as a full node always has room again. */
    method ReplaceEdge(id: nat, b: byte, c: int)
      requires Valid() && id < |nodes| && !t.nodes[id].moved && c >= 0 && b in t.nodes[id].edges
      modifies `t, nodes[id], nodes[id].bytes, nodes[id].children
      ensures Valid() && nodes[id].kind == old(nodes[id].kind)
      ensures t == old(t).(nodes := old(t).nodes[id :=
                            old(t).nodes[id].(edges := old(t).nodes[id].edges[b := c],
                                gen := old(t).nodes[id].gen + 1)])
    {
      nodes[id].ReplaceChild(b, c);
      Refresh(id, t.nodes[id].(edges := t.nodes[id].edges[b := c], gen := t.nodes[id].gen + 1));
    }

    /** Copies a full node into the next layout and leaves a stub; t' is the tree after Grow. */
    method GrowNode(id: nat, ghost t': Tree) returns (g: nat)
      requires Valid() && id < |nodes| && !t.nodes[id].moved && nodes[id].kind != N256
      requires Extends(t', id, t.nodes[id].(moved := true, word := Word(false, |nodes|), gen := t.nodes[id].gen + 1))
      requires t'.nodes[|nodes|] == t.nodes[id].(rank := Rank(NextKind(nodes[id].kind)), gen := genEpoch + 2)
      modifies this, nodes[id]
      ensures Valid() && fresh(repr - old(repr)) && old(repr) <= repr
      ensures g == |old(nodes)| == |nodes| - 1 && nodes[..g] == old(nodes) && t == t'
      ensures nodes[g].kind == NextKind(old(nodes[id].kind)) && nodes[g].count == old(nodes[id].count)
      ensures fresh(nodes[g]) && fresh(nodes[g].bytes) && fresh(nodes[g].children)
    {
      genEpoch := genEpoch + 1;
      g := |nodes|;
      var n := nodes[id].MoveTo(NextKind(nodes[id].kind), g, genEpoch);
      Renew(id, n, t');
    }

    /** A new node takes the first m prefix bytes of node id and becomes its parent; t' is the tree after Split. */
    method SplitNode(id: nat, m: nat, word: Word, ghost t': Tree) returns (nn: nat)
      requires Valid() && id < |nodes| && !t.nodes[id].moved && m < |nodes[id].prefix|
      requires Extends(t', id, t.nodes[id].(prefix := nodes[id].prefix[m + 1..]))
      requires t'.nodes[|nodes|] ==
        Node(false, 0, nodes[id].prefix[..m], map[nodes[id].prefix[m] := id], word, genEpoch + 2)
      modifies this, nodes[id]
      ensures Valid() && fresh(repr - old(repr)) && old(repr) <= repr
      ensures nn == |old(nodes)| == |nodes| - 1 && nodes[..nn] == old(nodes) && t == t'
      ensures nodes[nn].kind == N4 && nodes[nn].count == 1
      ensures fresh(nodes[nn]) && fresh(nodes[nn].bytes) && fresh(nodes[nn].children)
    {
      genEpoch := genEpoch + 1;
      nn := |nodes|;
      var n := nodes[id].SplitAt(m, id, word, genEpoch);
      Renew(id, n, t');
    }

    /** t' has one more node than t, and only node id differs. */
    ghost predicate Extends(t': Tree, id: nat, v: Node)
      requires id < |t.nodes|
      reads this
    {
      t'.root == t.root && |t'.nodes| == |t.nodes| + 1 && forall i :: 0 <= i < |t.nodes| ==>
          t'.nodes[i] == if i == id then v else t.nodes[i]
    }

    /** Takes in a new node object after nodes[id] alone has changed. */
    method Renew(id: nat, n: ArtNode, ghost t': Tree)
      requires this in repr && |nodes| == |t.nodes| && root == t.root && Separate(nodes) && id < |nodes|
      requires forall i :: 0 <= i < |nodes| ==> nodes[i] in repr && nodes[i].bytes in repr && nodes[i].children in repr
      requires forall i :: 0 <= i < |nodes| && i != id ==> nodes[i].Valid() && Matches(nodes[i], t.nodes[i])
      requires nodes[id].Valid() && t'.root == root && |t'.nodes| == |t.nodes| + 1 && Extends(t', id, t'.nodes[id])
      requires Matches(nodes[id], t'.nodes[id])
      requires n.Valid() && n !in repr && n.bytes !in repr && n.children !in repr && Matches(n, t'.nodes[|nodes|])
      modifies `nodes, `t, `repr
      ensures Valid() && t == t' && nodes == old(nodes) + [n] && repr == old(repr) + {n, n.bytes, n.children}
    {
      hide ArtNode.Valid;
      nodes, t, repr := nodes + [n], t', repr + {n, n.bytes, n.children};
    }
  }
}
