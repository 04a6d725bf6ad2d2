/**
 One node of the adaptive radix tree, with its four in-place layouts:
 N4 (unsorted keys), N16 (sorted keys), N48 (a 256-entry index into 48 slots) and
 N256 (one slot per byte). Whatever the layout, a node denotes a finite map `edges`
 from the next key byte to a child id; every method is specified by that map.
 */
module ArtNodes {
  import opened Bytes

  const PREFIX_MAX := 10
  const NO_SLOT: byte := 255   // empty entry of an N48 index

  datatype Kind = N4 | N16 | N48 | N256 | Moved

  /** The value word: bit 0 is `has`, the other bits are the box offset (or, in a moved node, the new id). */
  datatype Word = Word(has: bool, off: nat)

  const EMPTY_WORD := Word(false, 0)

  function Capacity(k: Kind): nat {
    match k
    case N4 => 4
    case N16 => 16
    case N48 => 48
    case N256 => 256
    case Moved => 0
  }

  /** Position of a layout in the growth order; a node only ever grows. */
  function Rank(k: Kind): nat {
    match k
    case N4 => 0
    case N16 => 1
    case N48 => 2
    case N256 => 3
    case Moved => 4
  }

  /** Slot i belongs to byte order[i] and `slot` is the inverse: no byte twice, no slot unused. */
  ghost predicate Lists(order: seq<byte>, slot: map<byte, nat>) {
    && (forall i :: 0 <= i < |order| ==> order[i] in slot && slot[order[i]] == i)
    && (forall b :: b in slot ==> slot[b] < |order| && order[slot[b]] == b)
  }

  /** The children listed by slot are the edges of the node. */
  ghost predicate Holds(slot: map<byte, nat>, kids: seq<int>, edges: map<byte, int>) {
    && edges.Keys == slot.Keys
    && (forall b :: b in slot ==> slot[b] < |kids| && kids[slot[b]] == edges[b])
  }

  ghost predicate Sorted(order: seq<byte>) {
    forall i, j :: 0 <= i < j < |order| ==> order[i] < order[j]
  }

  lemma IndexEntry(order: seq<byte>, slot: map<byte, nat>, kids: seq<int>, edges: map<byte, int>, b: byte)
    requires Lists(order, slot) && Holds(slot, kids, edges)
    ensures b in slot <==> b in edges
    ensures b in slot ==> slot[b] < |order| && order[slot[b]] == b
    ensures forall x :: x in slot && slot[x] == |order| - 1 ==> x == order[|order| - 1]
    ensures order != [] ==> order[|order| - 1] in slot && slot[order[|order| - 1]] == |order| - 1
  {
  }

  lemma HoldsKeys(slot: map<byte, nat>, kids: seq<int>, edges: map<byte, int>)
    requires Holds(slot, kids, edges)
    ensures edges.Keys == slot.Keys
  {
  }

  /** A node with listed slots has as many edges as slots. */
  lemma {:induction false} ListsCount(order: seq<byte>, slot: map<byte, nat>)
    requires Lists(order, slot)
    ensures |slot| == |order|
  {
    if order == [] {
      assert slot == map[];
    } else {
      var b := order[|order| - 1];
      var slot' := slot - {b};
      assert slot'.Keys == slot.Keys - {b};
      ListsCount(order[..|order| - 1], slot');
      assert slot.Keys == slot'.Keys + {b};
    }
  }

  /** The slots after byte b moves into position p, and after the byte at position p leaves. */
  ghost function SlotInsert(slot: map<byte, nat>, p: nat, b: byte): map<byte, nat> {
    (map x | x in slot :: if slot[x] < p then slot[x] else slot[x] + 1)[b := p]
  }

  ghost function SlotRemove(slot: map<byte, nat>, p: nat): map<byte, nat> {
    map x | x in slot && slot[x] != p :: if slot[x] < p then slot[x] else slot[x] - 1
  }

  lemma InsertAt(order: seq<byte>, slot: map<byte, nat>, kids: seq<int>, edges: map<byte, int>, p: nat, b: byte, c: int)
    requires Lists(order, slot) && Holds(slot, kids, edges) && |kids| == |order| && p <= |order| && b !in slot
    ensures Lists(order[..p] + [b] + order[p..], SlotInsert(slot, p, b))
    ensures Holds(SlotInsert(slot, p, b), kids[..p] + [c] + kids[p..], edges[b := c])
  {
    hide Lists, Holds, SlotInsert;
    InsertLists(order, slot, p, b);
    InsertHolds(order, slot, kids, edges, p, b, c);
  }

  lemma InsertLists(order: seq<byte>, slot: map<byte, nat>, p: nat, b: byte)
    requires Lists(order, slot) && p <= |order| && b !in slot
    ensures Lists(order[..p] + [b] + order[p..], SlotInsert(slot, p, b))
  {
    var order' := order[..p] + [b] + order[p..];
    forall i | 0 <= i < |order'| ensures order'[i] in SlotInsert(slot, p, b) && SlotInsert(slot, p, b)[order'[i]] == i {
      if i != p { assert order'[i] == order[if i < p then i else i - 1]; }
    }
  }

  lemma InsertHolds(order: seq<byte>, slot: map<byte, nat>, kids: seq<int>, edges: map<byte, int>, p: nat, b: byte,
      c: int)
    requires Lists(order, slot) && Holds(slot, kids, edges) && |kids| == |order| && p <= |order| && b !in slot
    ensures Holds(SlotInsert(slot, p, b), kids[..p] + [c] + kids[p..], edges[b := c])
  {
  }

  lemma RemoveAt(order: seq<byte>, slot: map<byte, nat>, kids: seq<int>, edges: map<byte, int>, p: nat)
    requires Lists(order, slot) && Holds(slot, kids, edges) && |kids| == |order| && p < |order|
    ensures Lists(order[..p] + order[p + 1..], SlotRemove(slot, p))
    ensures Holds(SlotRemove(slot, p), kids[..p] + kids[p + 1..], edges - {order[p]})
    ensures Sorted(order) ==> Sorted(order[..p] + order[p + 1..])
  {
    var order' := order[..p] + order[p + 1..];
    forall i | 0 <= i < |order'| ensures order'[i] in SlotRemove(slot, p) && SlotRemove(slot, p)[order'[i]] == i {
      assert order'[i] == order[if i < p then i else i + 1];
    }
    forall x | x in slot && x != order[p] ensures slot[x] != p {}
  }

  /** A list shifted up by one behind position p, with x stored there. */
  lemma Gapped<T>(was: seq<T>, now: seq<T>, p: nat, x: T)
    requires |now| == |was| + 1 && p <= |was|
    requires forall i :: 0 <= i < p ==> now[i] == was[i]
    requires forall i :: p < i < |now| ==> now[i] == was[i - 1]
    ensures now[p := x] == was[..p] + [x] + was[p..]
  {
  }

  /** b fits between its neighbours, and no key equals it. */
  lemma StaysSorted(order: seq<byte>, slot: map<byte, nat>, p: nat, b: byte)
    requires Sorted(order) && Lists(order, slot) && b !in slot && p <= |order|
    requires (p > 0 ==> order[p - 1] <= b) && (p < |order| ==> order[p] > b)
    ensures Sorted(order[..p] + [b] + order[p..])
  {
    assert p > 0 ==> order[p - 1] in slot;
  }

  /** Position p is refilled from the last slot, which is then dropped. */
  ghost function SwapSlots(order: seq<byte>, slot: map<byte, nat>, p: nat): map<byte, nat>
    requires p < |order|
  {
    var n := |order| - 1;
    if p == n then slot - {order[p]} else (slot - {order[p]})[order[n] := p]
  }

  function Refill<T>(s: seq<T>, p: nat): seq<T>
    requires p < |s|
  {
    var n := |s| - 1;
    if p == n then s[..n] else s[..n][p := s[n]]
  }

  lemma SwapOut(order: seq<byte>, slot: map<byte, nat>, kids: seq<int>, edges: map<byte, int>, p: nat)
    requires Lists(order, slot) && Holds(slot, kids, edges) && |kids| == |order| && p < |order|
    ensures Lists(Refill(order, p), SwapSlots(order, slot, p))
    ensures Holds(SwapSlots(order, slot, p), Refill(kids, p), edges - {order[p]})
    ensures slot[order[|order| - 1]] == |order| - 1 && slot[order[p]] == p
    ensures forall x :: x in slot && slot[x] == |order| - 1 ==> x == order[|order| - 1]
  {
  }

  /** The first i keys are in place, and key i is below the keys between it and position j. */
  ghost predicate Settled(order: seq<byte>, i: nat, j: nat) {
    && (forall a, b :: 0 <= a < i && a < b < |order| ==> order[a] < order[b])
    && (forall b :: i < b < j && b < |order| ==> order[i] < order[b])
  }

  lemma SettledUp(order: seq<byte>, i: nat)
    requires Settled(order, i, |order|)
    ensures Settled(order, i + 1, i + 2)
  {
  }

  lemma SettleStep(order: seq<byte>, slot: map<byte, nat>, i: nat, j: nat)
    requires Lists(order, slot) && i < j < |order| && Settled(order, i, j)
    ensures Settled(if order[i] > order[j] then order[i := order[j]][j := order[i]] else order, i, j + 1)
  {
    assert order[i] != order[j];
  }

  class ArtNode {
    var kind: Kind
    var prefix: Key            // prefix[PREFIX_MAX] and prefix_len
    var count: nat
    var word: Word
    var structGen: nat
    const bytes: array<byte>   // keys of an N4 or N16, index of an N48
    const children: array<int>

    ghost const born: Kind         // layout at allocation; `kind` leaves it only to become Moved
    ghost var order: seq<byte>     // the byte of each used slot (N4, N16, N48)
    ghost var slot: map<byte, nat> // and back
    ghost var edges: map<byte, int>

    ghost predicate Sized() {
      && born != Moved
      && bytes.Length == (match born case N4 => 4 case N16 => 16 case N48 => 256 case _ => 0)
      && children.Length == Capacity(born)
    }

    ghost predicate Valid()
      reads this, bytes, children
    {
      && Sized()
      && |prefix| <= PREFIX_MAX
      && (kind == born || kind == Moved)
      && (kind == N4 ==> InKeys())
      && (kind == N16 ==> InKeys() && Sorted(order))
      && (kind == N48 ==> InIndex())
      && (kind == N256 ==> InTable())
      && (kind != Moved ==> forall b :: b in edges ==> edges[b] >= 0)
    }

    ghost predicate InKeys()
      reads this, bytes, children
    {
      && count == |order| <= bytes.Length == children.Length
      && order == bytes[..count]
      && Lists(order, slot)
      && Holds(slot, children[..count], edges)
    }

    ghost predicate InIndex()
      reads this, bytes, children
    {
      && count == |order| <= children.Length == 48
      && bytes.Length == 256
      && Lists(order, slot)
      && Holds(slot, children[..count], edges)
      && (forall b: byte :: bytes[b] == if b in slot then slot[b] else NO_SLOT)
    }

    ghost predicate InTable()
      reads this, children
    {
      && children.Length == 256
      && count == |edges|
      && (forall b: byte :: children[b] == if b in edges then edges[b] else -1)
    }

    constructor (k: Kind, prefix: Key, word: Word, gen: nat)
      requires k != Moved && |prefix| <= PREFIX_MAX
      ensures Valid() && fresh(bytes) && fresh(children)
      ensures kind == born == k && this.prefix == prefix && this.word == word && structGen == gen
      ensures count == 0 && edges == map[]
    {
      kind, born, this.prefix, this.word, structGen, count := k, k, prefix, word, gen, 0;
      bytes := new byte[match k case N4 => 4 case N16 => 16 case N48 => 256 case _ => 0](_ => NO_SLOT);
      children := new int[Capacity(k)](_ => -1);
      order, slot, edges := [], map[], map[];
      new;
      assert bytes[..0] == [];
    }

    /** The child for byte b, or -1. */
    method Child(b: byte) returns (c: int)
      requires Valid() && kind != Moved
      ensures c == if b in edges then edges[b] else -1
    {
      match kind {
        case N4 =>
          var p := FindKey(b);
          c := if p < 0 then -1 else children[p];
        case N16 =>
          var p := Bisect(b);
          c := if p < 0 then -1 else children[p];
        case N48 =>
          var idx := bytes[b];
          c := if idx == NO_SLOT then -1 else children[idx];
          assert b in slot ==> c == children[..count][slot[b]];
        case N256 => c := children[b];
      }
    }

    method FindKey(b: byte) returns (p: int)
      requires InKeys()
      ensures if b in edges then 0 <= p < count && order[p] == b && children[p] == edges[b] else p == -1
    {
      for i := 0 to count
        invariant b in slot ==> slot[b] >= i
      {
        assert order[i] == bytes[i] && children[i] == children[..count][i];
        if bytes[i] == b {
          return i;
        }
      }
      return -1;
    }

    /** Bisection, which rests on the keys of an N16 staying sorted. */
    method Bisect(b: byte) returns (p: int)
      requires InKeys() && Sorted(order)
      ensures if b in edges then 0 <= p < count && order[p] == b && children[p] == edges[b] else p == -1
    {
      var lo, hi := 0, count - 1;
      while lo <= hi
        invariant 0 <= lo <= hi + 1 <= count
        invariant b in slot ==> lo <= slot[b] <= hi
      {
        var m := (lo + hi) / 2;
        assert order[m] == bytes[m] && children[m] == children[..count][m];
        if bytes[m] == b {
          return m;
        }
        if bytes[m] < b {
          lo := m + 1;
        } else {
          hi := m - 1;
        }
      }
      return -1;
    }

    /** Adds the edge b -> c; a full node (or an occupied N256 slot) is refused. The generation moves either way. */
    method AddChild(b: byte, c: int) returns (ok: bool)
      requires Valid() && kind != Moved && c >= 0
      requires kind != N256 ==> b !in edges
      modifies this, bytes, children
      ensures Valid() && kind == old(kind) && prefix == old(prefix) && word == old(word)
      ensures structGen == old(structGen) + 1
      ensures ok == (if kind == N256 then b !in old(edges) else old(count) < Capacity(kind))
      ensures edges == if ok then old(edges)[b := c] else old(edges)
      ensures count == if ok then old(count) + 1 else old(count)
    {
      hide Lists, Holds, Sorted;
      structGen := structGen + 1;
      if kind != N256 && count >= Capacity(kind) {
        return false;
      }
      match kind {
        case N4 => AppendKey(b, c);
        case N16 => InsertSorted(b, c);
        case N48 => AppendIndexed(b, c);
        case N256 =>
          if children[b] >= 0 {
            return false;
          }
          children[b] := c;
          edges := edges[b := c];
          count := count + 1;
      }
      return true;
    }

    method AppendKey(b: byte, c: int)
      requires InKeys() && count < bytes.Length && b !in edges
      modifies `count, `order, `slot, `edges, bytes, children
      ensures InKeys()
      ensures count == old(count) + 1 && edges == old(edges)[b := c]
    {
      ghost var kids := children[..count];
      InsertAt(order, slot, kids, edges, count, b, c);
      bytes[count] := b;
      children[count] := c;
      assert order[..count] + [b] + order[count..] == order + [b] == bytes[..count + 1];
      assert kids[..count] + [c] + kids[count..] == children[..count + 1];
      slot, order, edges := SlotInsert(slot, count, b), order + [b], edges[b := c];
      count := count + 1;
    }

    method AppendIndexed(b: byte, c: int)
      requires InIndex() && count < 48 && b !in edges
      modifies `count, `order, `slot, `edges, bytes, children
      ensures InIndex()
      ensures count == old(count) + 1 && edges == old(edges)[b := c]
    {
      ghost var kids := children[..count];
      InsertAt(order, slot, kids, edges, count, b, c);
      bytes[b] := count;
      children[count] := c;
      assert order[..count] + [b] + order[count..] == order + [b];
      assert kids[..count] + [c] + kids[count..] == children[..count + 1];
      slot, order, edges := SlotInsert(slot, count, b), order + [b], edges[b := c];
      count := count + 1;
    }

    /** The N16 case: the larger keys move up by one, then b is stored in the gap. */
    method InsertSorted(b: byte, c: int)
      requires InKeys() && Sorted(order) && count < bytes.Length && b !in edges
      modifies `count, `order, `slot, `edges, bytes, children
      ensures InKeys() && Sorted(order)
      ensures count == old(count) + 1 && edges == old(edges)[b := c]
    {
      hide Lists, Holds, Sorted, SlotInsert;
      ghost var kids := children[..count];
      HoldsKeys(slot, kids, edges);
      var p := OpenGap(bytes, children, count, b);
      InsertAt(order, slot, kids, edges, p, b, c);
      StaysSorted(order, slot, p, b);
      assert children[..count + 1][p := c] == kids[..p] + [c] + kids[p..];
      bytes[p] := b;
      children[p] := c;
      slot, order, edges := SlotInsert(slot, p, b), order[..p] + [b] + order[p..], edges[b := c];
      count := count + 1;
    }

    static method OpenGap(keys: array<byte>, kids: array<int>, n: nat, b: byte) returns (p: nat)
      requires n < keys.Length == kids.Length
      modifies keys, kids
      ensures p <= n && (p > 0 ==> old(keys[..n])[p - 1] <= b) && (p < n ==> old(keys[..n])[p] > b)
      ensures keys[..n + 1][p := b] == old(keys[..n])[..p] + [b] + old(keys[..n])[p..]
      ensures forall c :: kids[..n + 1][p := c] == old(kids[..n])[..p] + [c] + old(kids[..n])[p..]
    {
      p := n;
      while p > 0 && keys[p - 1] > b
        invariant p <= n && (p < n ==> old(keys[p]) > b)
        invariant forall i :: 0 <= i < p ==> keys[i] == old(keys[i]) && kids[i] == old(kids[i])
        invariant forall i :: p < i <= n ==> keys[i] == old(keys[i - 1]) && kids[i] == old(kids[i - 1])
      {
        keys[p] := keys[p - 1];
        kids[p] := kids[p - 1];
        p := p - 1;
      }
      Gapped(old(keys[..n]), keys[..n + 1], p, b);
      forall c ensures kids[..n + 1][p := c] == old(kids[..n])[..p] + [c] + old(kids[..n])[p..] {
        Gapped(old(kids[..n]), kids[..n + 1], p, c);
      }
    }

    /** Removes the edge for b. A missing b is ignored, except that an N256 would still lower its count. */
    method RemoveChild(b: byte)
      requires Valid() && kind != Moved
      requires kind == N256 ==> b in edges
      modifies this, bytes, children
      ensures Valid() && kind == old(kind) && prefix == old(prefix) && word == old(word)
      ensures structGen == old(structGen) && edges == old(edges) - {b}
      ensures count == if b in old(edges) then old(count) - 1 else old(count)
    {
      hide Lists, Holds, Sorted;
      assert b !in edges ==> edges - {b} == edges;
      match kind {
        case N4 =>
          var i := FindKey(b);
          if i >= 0 {
            CloseGap(i);
          }
        case N16 =>
          var i := Bisect(b);
          if i >= 0 {
            CloseGap(i);
          }
        case N48 => RemoveIndexed(b);
        case N256 => RemoveFromTable(b);
      }
    }

    /** The N256 case: the slot of b becomes vacant. */
    method RemoveFromTable(b: byte)
      requires InTable() && b in edges
      modifies `count, `edges, children
      ensures InTable() && edges == old(edges) - {b} && count == old(count) - 1
    {
      children[b] := -1;
      assert (edges - {b}).Keys == edges.Keys - {b};
      edges := edges - {b};
      count := count - 1;
    }

    /** Drops position p of an N4 or N16 by moving the later entries down. */
    method CloseGap(p: nat)
      requires InKeys() && p < count
      modifies `count, `order, `slot, `edges, bytes, children
      ensures InKeys() && (old(Sorted(order)) ==> Sorted(order))
      ensures count == old(count) - 1 && edges == old(edges) - {old(order[p])}
    {
      hide Lists, Holds, SlotRemove, Sorted;
      ghost var kids := children[..count];
      ShiftDown(bytes, children, p, count);
      RemoveAt(order, slot, kids, edges, p);
      slot, order, edges := SlotRemove(slot, p), order[..p] + order[p + 1..], edges - {order[p]};
      count := count - 1;
    }

    static method ShiftDown(keys: array<byte>, kids: array<int>, p: nat, n: nat)
      requires p < n <= keys.Length == kids.Length
      modifies keys, kids
      ensures keys[..n - 1] == old(keys[..n][..p] + keys[..n][p + 1..])
      ensures kids[..n - 1] == old(kids[..n][..p] + kids[..n][p + 1..])
    {
      var j := p;
      while j < n - 1
        invariant p <= j < n
        invariant forall i :: 0 <= i < p || j <= i < n ==> keys[i] == old(keys[i]) && kids[i] == old(kids[i])
        invariant forall i :: p <= i < j ==> keys[i] == old(keys[i + 1]) && kids[i] == old(kids[i + 1])
      {
        keys[j] := keys[j + 1];
        kids[j] := kids[j + 1];
        j := j + 1;
      }
    }

    /** The N48 case: the last slot moves into the hole and its index entry is redirected. */
    method RemoveIndexed(b: byte)
      requires InIndex()
      modifies `count, `order, `slot, `edges, bytes, children
      ensures InIndex()
      ensures edges == old(edges) - {b}
      ensures count == if b in old(edges) then old(count) - 1 else old(count)
    {
      hide Lists, Holds;
      var idx, last := bytes[b], count - 1;
      ghost var kids := children[..count];
      IndexEntry(order, slot, kids, edges, b);
      if idx == NO_SLOT {
        assert edges - {b} == edges;
        return;
      }
      SwapOut(order, slot, kids, edges, idx);
      bytes[b] := NO_SLOT;
      if idx != last {
        children[idx] := children[last];
        Redirect(bytes, last, idx, order[last]);
      }
      assert children[..last] == Refill(kids, idx);
      slot, order := SwapSlots(order, slot, idx), Refill(order, idx);
      edges := edges - {b};
      count := last;
    }

    /** Finds the index entry for slot `last` and points it at `idx`. */
    static method Redirect(index: array<byte>, last: byte, idx: byte, ghost at: byte)
      requires index.Length == 256 && index[at] == last
      requires forall b: byte :: index[b] == last ==> b == at
      modifies index
      ensures forall b: byte :: index[b] == if b == at then idx else old(index[b])
    {
      var j := 0;
      while index[j] != last
        invariant 0 <= j <= at
        decreases at - j
      {
        j := j + 1;
      }
      index[j] := idx;
    }

    /** Copies the children of `on`, a node one layout smaller, into this empty node. */
    method CopyChildren(on: ArtNode)
      requires on != this && on.bytes != bytes && on.children != children
      requires on.Valid() && on.kind != Moved && Valid() && kind != Moved && Rank(kind) == Rank(on.kind) + 1
      requires count == 0 && edges == map[]
      modifies `count, `order, `slot, `edges, bytes, children
      ensures Valid() && edges == on.edges && count == on.count
    {
      hide Lists, Holds, Sorted;
      match kind {
        case N16 =>
          CopyKeys(on);
          SortKeys();
        case N48 => CopyToIndex(on);
        case N256 => CopyToTable(on);
      }
    }

    method CopyKeys(on: ArtNode)
      requires on.bytes != bytes && on.children != children && on.InKeys()
      requires bytes.Length == children.Length >= on.count
      modifies `count, `order, `slot, `edges, bytes, children
      ensures InKeys() && edges == on.edges && count == on.count
    {
      for i := 0 to on.count
        invariant bytes[..i] == on.bytes[..i] && children[..i] == on.children[..i]
      {
        bytes[i] := on.bytes[i];
        children[i] := on.children[i];
      }
      count, order, slot, edges := on.count, on.order, on.slot, on.edges;
    }

    /** Exchange sort of the first `count` keys with their children. */
    method SortKeys()
      requires InKeys()
      modifies `order, `slot, bytes, children
      ensures InKeys() && Sorted(order)
    {
      var i := 0;
      while i < count - 1
        invariant i <= count && InKeys() && Settled(order, i, i + 1)
      {
        Settle(i);
        i := i + 1;
      }
    }

    method Settle(i: nat)
      requires i < count && InKeys() && Settled(order, i, i + 1)
      modifies `order, `slot, bytes, children
      ensures InKeys() && Settled(order, i + 1, i + 2)
    {
      hide Lists, Holds, Settled;
      for j := i + 1 to count
        invariant InKeys() && Settled(order, i, j)
      {
        Compare(i, j);
      }
      SettledUp(order, i);
    }

    method Compare(i: nat, j: nat)
      requires i < j < count && InKeys() && Settled(order, i, j)
      modifies `order, `slot, bytes, children
      ensures InKeys() && Settled(order, i, j + 1)
    {
      SettleStep(order, slot, i, j);
      hide Lists, Holds, Settled;
      if bytes[i] > bytes[j] {
        Swap(i, j);
      }
    }

    method Swap(i: nat, j: nat)
      requires InKeys() && i < j < count
      modifies `order, `slot, bytes, children
      ensures InKeys() && order == old(order[i := order[j]][j := order[i]])
    {
      bytes[i], bytes[j] := bytes[j], bytes[i];
      children[i], children[j] := children[j], children[i];
      slot := slot[order[i] := j][order[j] := i];
      order := order[i := order[j]][j := order[i]];
      assert order == bytes[..count];
    }

    method CopyToIndex(on: ArtNode)
      requires on.bytes != bytes && on.children != children && on.InKeys() && on.count <= 16
      requires InIndex() && count == 0
      modifies `count, `order, `slot, `edges, bytes, children
      ensures InIndex() && edges == on.edges && count == on.count
    {
      for i := 0 to on.count
        invariant children[..i] == on.children[..i]
        invariant forall b: byte :: bytes[b] == if b in on.slot && on.slot[b] < i then on.slot[b] else NO_SLOT
      {
        assert on.order[i] == on.bytes[i];
        bytes[on.bytes[i]] := i;
        children[i] := on.children[i];
      }
      count, order, slot, edges := on.count, on.order, on.slot, on.edges;
    }

    method CopyToTable(on: ArtNode)
      requires on.children != children && on.InIndex()
      requires InTable() && edges == map[]
      modifies `count, `order, `slot, `edges, children
      ensures InTable() && edges == on.edges && count == on.count
    {
      for i := 0 to on.count
        invariant forall b: byte :: children[b] == if b in on.slot && on.slot[b] < i then on.edges[b] else -1
      {
        var j := on.ByteOfSlot(i);
        assert on.children[i] == on.children[..on.count][on.slot[j]];
        children[j] := on.children[i];
      }
      ListsCount(on.order, on.slot);
      assert |on.edges.Keys| == |on.slot.Keys|;
      count, order, slot, edges := on.count, on.order, on.slot, on.edges;
    }

    /** The byte whose N48 index entry is slot i, found by scanning the index. */
    method ByteOfSlot(i: nat) returns (b: byte)
      requires InIndex() && i < count
      ensures b == order[i] && b in slot && slot[b] == i
    {
      b := 0;
      while bytes[b] != i
        invariant b <= order[i]
        decreases order[i] - b
      {
        b := b + 1;
      }
    }

    /** No layout holds more children than it has room for. */
    lemma CountFits()
      requires Valid() && (kind == N4 || kind == N16 || kind == N48)
      ensures count <= Capacity(kind)
    {
      hide Lists, Holds, Sorted;
    }

    /** Repoints the edge b to c: remove, then add, as a node that lost a child has room again. */
    method ReplaceChild(b: byte, c: int)
      requires Valid() && kind != Moved && c >= 0 && b in edges
      modifies this, bytes, children
      ensures Valid() && kind == old(kind) && prefix == old(prefix) && word == old(word)
      ensures structGen == old(structGen) + 1 && edges == old(edges)[b := c] && count == old(count)
    {
      hide InKeys, InIndex, InTable, Sorted;
      if kind != N256 {
        CountFits();
      }
      ghost var e := edges;
      RemoveChild(b);
      var ok := AddChild(b, c);
      assert (e - {b})[b := c] == e[b := c];
    }

    /** A node of the next layout with the same prefix, word and children; this one becomes a stub to `id`. */
    method MoveTo(k: Kind, id: nat, gen: nat) returns (n: ArtNode)
      requires Valid() && kind != Moved && kind != N256 && k != Moved && Rank(k) == Rank(kind) + 1
      modifies `kind, `word, `structGen
      ensures Valid() && kind == Moved && word == Word(false, id) && structGen == old(structGen) + 1
      ensures n.Valid() && fresh(n) && fresh(n.bytes) && fresh(n.children)
      ensures n.kind == n.born == k && n.prefix == prefix && n.word == old(word) && n.structGen == gen + 1
      ensures n.edges == edges && n.count == count
    {
      hide InKeys, InIndex, InTable, Sorted;
      n := new ArtNode(k, prefix, word, gen);
      n.CopyChildren(this);
      n.BumpStructGen();
      Forward(id);
    }

    /** A new node keeps the first m prefix bytes and has this one, shortened, as its child `id`. */
    method SplitAt(m: nat, id: nat, w: Word, gen: nat) returns (n: ArtNode)
      requires Valid() && m < |prefix|
      modifies `prefix
      ensures Valid() && prefix == old(prefix)[m + 1..]
      ensures n.Valid() && fresh(n) && fresh(n.bytes) && fresh(n.children)
      ensures n.kind == n.born == N4 && n.prefix == old(prefix)[..m] && n.word == w && n.structGen == gen + 1
      ensures n.edges == map[old(prefix)[m] := id] && n.count == 1
    {
      hide InKeys, InIndex, InTable, Sorted;
      n := new ArtNode(N4, prefix[..m], w, gen);
      var ok := n.AddChild(prefix[m], id);
      ShortenPrefix(m);
    }

    method SetWord(w: Word)
      requires Valid()
      modifies `word
      ensures Valid() && word == w
    {
      hide Lists, Holds, Sorted;
      word := w;
    }

    /** Drops the first m + 1 prefix bytes, which a new parent now spells. */
    method ShortenPrefix(m: nat)
      requires Valid() && m < |prefix|
      modifies `prefix
      ensures Valid() && prefix == old(prefix)[m + 1..]
    {
      hide Lists, Holds, Sorted;
      prefix := prefix[m + 1..];
    }

    /** Leaves a forwarding stub to node `id`. */
    method Forward(id: nat)
      requires Valid()
      modifies `kind, `word, `structGen
      ensures Valid() && kind == Moved && word == Word(false, id) && structGen == old(structGen) + 1
    {
      hide Lists, Holds, Sorted;
      kind, word, structGen := Moved, Word(false, id), structGen + 1;
    }

    method BumpStructGen()
      requires Valid()
      modifies `structGen
      ensures Valid() && structGen == old(structGen) + 1
    {
      hide Lists, Holds, Sorted;
      structGen := structGen + 1;
    }
  }
}
