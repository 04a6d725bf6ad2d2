/** The list of a directory: children of the target and of a mounted source, sorted, each child once. */
module Listing {
  import opened Bytes
  import opened ArtTree
  import opened ArtPools
  import opened ArtInsert
  import opened ArtLookup
  import opened ArtScan
  import opened Coord
  import opened ArtChildren

  /** U+2025 at position i: the mark of a runtime key. */
  predicate Leader(e: Key, i: nat)
    requires i < |e|
  {
    i + 2 < |e| && e[i] == 0xE2 && e[i + 1] == 0x80 && e[i + 2] == 0xA5
  }

  predicate Visible(pfx: Key, e: Key) {
    !(pfx == [SLASH] && e == META_NAME) && forall i :: 0 <= i < |e| ==> !Leader(e, i)
  }

  /** What is hidden: every name with U+2025 somewhere in it, and ".kvspace-meta" under the root. */
  lemma VisibleSpelled(pfx: Key, e: Key, a: Key, b: Key)
    ensures !Visible(pfx, a + [0xE2, 0x80, 0xA5] + b) && !Visible([0x2F], META_NAME)
    ensures !Visible(pfx, e) ==> (pfx == [0x2F] && e == META_NAME) || exists c, d :: e == c + [0xE2, 0x80, 0xA5] + d
  {
    var w := a + [0xE2, 0x80, 0xA5] + b;
    assert Leader(w, |a|);
    if !Visible(pfx, e) && !(pfx == [SLASH] && e == META_NAME) {
      var i :| 0 <= i < |e| && Leader(e, i);
      assert e == e[..i] + [0xE2, 0x80, 0xA5] + e[i + 3..];
    }
  }

  method Shows(pfx: Key, e: Key) returns (r: bool)
    ensures r == Visible(pfx, e)
  {
    if pfx == [SLASH] && e == META_NAME {
      return false;
    }
    for i := 0 to |e|
      invariant forall j :: 0 <= j < i ==> !Leader(e, j)
    {
      if i + 2 < |e| && e[i] == 0xE2 && e[i + 1] == 0x80 && e[i + 2] == 0xA5 {
        assert Leader(e, i);
        return false;
      }
    }
    return true;
  }

  // ---- sorting ----

  predicate Arranged(a: seq<Key>) {
    forall i, j :: 0 <= i < j < |a| ==> ChildOrder(a[i], a[j]) <= 0
  }

  /** Put x where a list sorted by child_cmp stays sorted; `names` is a set that has all of them. */
  method Place(a: seq<Key>, x: Key, ghost names: set<Key>) returns (r: seq<Key>)
    requires x in names && forall e :: e in a ==> e in names
    ensures multiset(r) == multiset(a) + multiset{x}
    ensures Transitive(names) && Arranged(a) ==> Arranged(r)
  {
    hide Transitive, ChildOrder, Arranged;
    var i := |a|;
    while i > 0
      invariant 0 <= i <= |a|
      invariant forall j :: i <= j < |a| ==> ChildOrder(a[j], x) > 0
    {
      var c := ChildCmp(a[i - 1], x);
      if c <= 0 {
        break;
      }
      i := i - 1;
    }
    r := a[..i] + [x] + a[i..];
    assert a == a[..i] + a[i..];
    if Transitive(names) && Arranged(a) {
      PlaceSorted(a, x, i, names);
    }
  }

  lemma PlaceSorted(a: seq<Key>, x: Key, i: nat, names: set<Key>)
    requires Transitive(names) && x in names && (forall e :: e in a ==> e in names) && Arranged(a) && i <= |a|
    requires i > 0 ==> ChildOrder(a[i - 1], x) <= 0
    requires forall j :: i <= j < |a| ==> ChildOrder(a[j], x) > 0
    ensures Arranged(a[..i] + [x] + a[i..])
  {
    hide ChildOrder, Transitive;
    var r := a[..i] + [x] + a[i..];
    forall j | 0 <= j < i ensures ChildOrder(a[j], x) <= 0 {
      Through(names, a[j], a[i - 1], x);
    }
    forall j | i <= j < |a| ensures ChildOrder(x, a[j]) <= 0 {
      ChildFlip(x, a[j]);
    }
    forall j, k | 0 <= j < k < |r| ensures ChildOrder(r[j], r[k]) <= 0 {
      assert r[j] == if j < i then a[j] else if j == i then x else a[j - 1];
      assert r[k] == if k < i then a[k] else if k == i then x else a[k - 1];
    }
  }

  lemma Through(names: set<Key>, x: Key, y: Key, z: Key)
    requires Transitive(names) && x in names && y in names && z in names
    requires (x == y || ChildOrder(x, y) <= 0) && ChildOrder(y, z) <= 0
    ensures ChildOrder(x, z) <= 0
  {
  }

  /** Arrange the scanned names by child_cmp; sorted whenever child_cmp orders them at all. */
  method Sort(a: seq<Key>) returns (r: seq<Key>)
    ensures multiset(r) == multiset(a) && forall e :: e in r <==> e in a
    ensures Arranged(r) <==> Transitive(set e | e in a)
  {
    hide Transitive, ChildOrder, Arranged;
    SortedNone();
    r := [];
    for i := 0 to |a|
      invariant multiset(r) == multiset(a[..i])
      invariant Transitive(set e | e in a) ==> Arranged(r)
    {
      assert a[..i + 1] == a[..i] + [a[i]];
      SameMembers(r, a[..i]);
      r := Place(r, a[i], set e | e in a);
    }
    assert a[..|a|] == a;
    SameMembers(r, a);
    ArrangedOrders(r, set e | e in a);
  }

  lemma SameMembers(a: seq<Key>, b: seq<Key>)
    requires multiset(a) == multiset(b)
    ensures forall e :: e in a <==> e in b
  {
    assert forall e :: e in a <==> e in multiset(a);
    assert forall e :: e in b <==> e in multiset(b);
  }

  /** In an arranged list no name straddles: that would be a circle. */
  lemma ArrangedStraight(a: seq<Key>, p: Key, u: Key, q: Key)
    requires Arranged(a) && p in a && u in a && q in a
    ensures !Straddles(p, u, q)
  {
    hide ChildOrder, Straddles;
    var i, j, k :| 0 <= i < |a| && 0 <= j < |a| && 0 <= k < |a| && a[i] == p && a[j] == u && a[k] == q;
    ChildFlip(p, q);
    ChildFlip(q, u);
    ChildFlip(u, p);
    if Straddles(p, u, q) {
      StraddleCycles(p, u, q);
    }
  }

  /** So only names that child_cmp orders can be arranged at all. */
  lemma ArrangedOrders(a: seq<Key>, names: set<Key>)
    requires forall e :: e in names ==> e in a
    ensures Arranged(a) ==> Transitive(names)
  {
    hide Arranged, Transitive, Straddles;
    OrderIff(names);
    if Arranged(a) {
      forall p, u, q | p in names && u in names && q in names ensures !Straddles(p, u, q) {
        ArrangedStraight(a, p, u, q);
      }
    }
  }

  /** No arrangement sorts [2], [10] and [1a]. */
  lemma CircleUnsorted(a: seq<Key>)
    requires TWO in a && TEN in a && ODD in a
    ensures !Arranged(a)
  {
    hide Arranged, Straddles;
    OrderCycle();
    if Arranged(a) {
      ArrangedStraight(a, TWO, ODD, TEN);
    }
  }

  lemma SortedNone()
    ensures Arranged([])
  {
  }

  // ---- each child once ----

  predicate Marker(e: Key) {
    e != [] && e[|e| - 1] == SLASH
  }

  predicate Distinct(a: seq<Key>) {
    forall i, j :: 0 <= i < j < |a| ==> !SameChild(a[i], a[j])
  }

  /** The child of e is in the list, and as a directory if e is one. */
  predicate Stands(kept: seq<Key>, e: Key) {
    exists k :: k in kept && SameChild(k, e) && (Marker(e) ==> k == e)
  }

  predicate Kept(pfx: Key, a: seq<Key>, kept: seq<Key>) {
    && (forall e :: e in kept ==> e in a && Visible(pfx, e))
    && (forall e :: e in a && Visible(pfx, e) ==> Stands(kept, e))
  }

  /** The first i names are dealt with: `kept` is what remains of them. */
  predicate Deduped(pfx: Key, was: seq<Key>, i: nat, kept: seq<Key>)
    requires i <= |was|
  {
    Kept(pfx, was[..i], kept) && (Arranged(was) ==> Arranged(kept) && Distinct(kept))
  }

  lemma Hidden(pfx: Key, was: seq<Key>, i: nat, kept: seq<Key>)
    requires i < |was| && Deduped(pfx, was, i, kept) && !Visible(pfx, was[i])
    ensures Deduped(pfx, was, i + 1, kept)
  {
    hide Visible, SameChild, Arranged, Distinct;
    assert was[..i + 1] == was[..i] + [was[i]];
  }

  lemma Repeated(pfx: Key, was: seq<Key>, i: nat, kept: seq<Key>)
    requires i < |was| && Deduped(pfx, was, i, kept) && kept != [] && SameChild(kept[|kept| - 1], was[i])
    requires !Marker(was[i])
    ensures Deduped(pfx, was, i + 1, kept)
  {
    hide Visible, SameChild, Arranged, Distinct;
    assert was[..i + 1] == was[..i] + [was[i]];
    assert kept[|kept| - 1] in kept;
    assert Stands(kept, was[i]);
  }

  lemma Replaced(pfx: Key, was: seq<Key>, i: nat, kept: seq<Key>)
    requires i < |was| && Deduped(pfx, was, i, kept) && Visible(pfx, was[i])
    requires kept != [] && SameChild(kept[|kept| - 1], was[i]) && Marker(was[i])
    ensures Deduped(pfx, was, i + 1, kept[|kept| - 1 := was[i]])
  {
    hide Visible, Arranged, Distinct, Kept, SameChild;
    KeptSwap(pfx, was[..i], kept, was[i]);
    assert was[..i + 1] == was[..i] + [was[i]];
    if Arranged(was) {
      KeptIn(pfx, was[..i], kept);
      InOrder(was, i, kept);
    }
  }

  lemma Added(pfx: Key, was: seq<Key>, i: nat, kept: seq<Key>)
    requires i < |was| && Deduped(pfx, was, i, kept) && Visible(pfx, was[i])
    requires kept != [] ==> !SameChild(kept[|kept| - 1], was[i])
    ensures Deduped(pfx, was, i + 1, kept + [was[i]])
  {
    hide Visible, Arranged, Distinct, Kept, SameChild;
    KeptAppend(pfx, was[..i], kept, was[i]);
    assert was[..i + 1] == was[..i] + [was[i]];
    if Arranged(was) {
      KeptIn(pfx, was[..i], kept);
      InOrder(was, i, kept);
    }
  }

  lemma KeptIn(pfx: Key, a: seq<Key>, kept: seq<Key>)
    requires Kept(pfx, a, kept)
    ensures forall e :: e in kept ==> e in a
  {
  }

  lemma KeptAppend(pfx: Key, a: seq<Key>, kept: seq<Key>, x: Key)
    requires Kept(pfx, a, kept) && Visible(pfx, x)
    ensures Kept(pfx, a + [x], kept + [x])
  {
    hide Visible, Stem, Stands;
    forall e | e in a && Visible(pfx, e) ensures Stands(kept + [x], e) {
      StandsMore(kept, kept + [x], e);
    }
    StandsSelf(kept + [x], x);
  }

  lemma KeptSwap(pfx: Key, a: seq<Key>, kept: seq<Key>, x: Key)
    requires Kept(pfx, a, kept) && Visible(pfx, x) && kept != [] && SameChild(kept[|kept| - 1], x) && Marker(x)
    ensures Kept(pfx, a + [x], kept[|kept| - 1 := x])
  {
    hide Visible, Stands;
    var r := kept[|kept| - 1 := x];
    assert r[|kept| - 1] == x;
    forall e | e in a && Visible(pfx, e) ensures Stands(r, e) {
      StandsSwap(kept, x, e);
    }
    StandsSelf(r, x);
  }

  lemma StandsSelf(kept: seq<Key>, x: Key)
    requires x in kept
    ensures Stands(kept, x)
  {
  }

  lemma StandsMore(kept: seq<Key>, r: seq<Key>, e: Key)
    requires Stands(kept, e) && forall k :: k in kept ==> k in r
    ensures Stands(r, e)
  {
  }

  lemma StandsSwap(kept: seq<Key>, x: Key, e: Key)
    requires kept != [] && SameChild(kept[|kept| - 1], x) && Marker(x) && Stands(kept, e)
    ensures Stands(kept[|kept| - 1 := x], e)
  {
    hide SameChild, Marker;
    var r := kept[|kept| - 1 := x];
    var k :| k in kept && SameChild(k, e) && (Marker(e) ==> k == e);
    var j :| 0 <= j < |kept| && kept[j] == k;
    assert r[j] in r;
    if j == |kept| - 1 {
      SameMarker(k, x, e);
    }
  }

  /** A child has one directory entry. */
  lemma SameMarker(k: Key, x: Key, e: Key)
    requires SameChild(k, x) && SameChild(k, e) && Marker(x)
    ensures SameChild(x, e) && (Marker(e) ==> x == e)
  {
    assert x == Stem(x) + [SLASH];
    if Marker(e) {
      assert e == Stem(e) + [SLASH];
    }
  }

  /** The next name of a sorted list goes after what is kept, or in the place of the last when it is the same child. */
  lemma InOrder(was: seq<Key>, i: nat, kept: seq<Key>)
    requires i < |was| && Arranged(was) && Arranged(kept) && Distinct(kept) && forall e :: e in kept ==> e in was[..i]
    ensures kept == [] || !SameChild(kept[|kept| - 1], was[i]) ==>
      Arranged(kept + [was[i]]) && Distinct(kept + [was[i]])
    ensures kept != [] && SameChild(kept[|kept| - 1], was[i]) ==>
              Arranged(kept[|kept| - 1 := was[i]]) && Distinct(kept[|kept| - 1 := was[i]])
  {
    hide ChildOrder, SameChild;
    forall j | 0 <= j < |kept| ensures ChildOrder(kept[j], was[i]) <= 0 {
      assert kept[j] in was[..i];
    }
    if kept != [] {
      var last := kept[|kept| - 1];
      forall j | 0 <= j < |kept| - 1 ensures !SameChild(kept[j], was[i]) {
        if SameChild(kept[j], was[i]) {
          SameChildAdjacent(kept[j], last, was[i]);
        }
      }
    }
  }

  /** Hide the runtime names and keep one entry per child, the directory entry if there is one. */
  method Compact(pfx: Key, keys: array<Key>) returns (unique: nat)
    requires forall i :: 0 <= i < keys.Length ==> keys[i] != []
    modifies keys
    ensures unique <= keys.Length && Kept(pfx, old(keys[..]), keys[..unique])
    ensures Arranged(old(keys[..])) ==> Arranged(keys[..unique]) && Distinct(keys[..unique])
  {
    hide Visible, SameChild, ChildOrder, Kept, Arranged, Distinct, Deduped;
    ghost var was := keys[..];
    unique := 0;
    DedupedNone(pfx, was);
    for i := 0 to keys.Length
      invariant unique <= i && keys[i..] == was[i..]
      invariant Deduped(pfx, was, i, keys[..unique])
    {
      assert keys[i] == was[i] && keys[i..][1..] == was[i..][1..];
      ghost var kept := keys[..unique];
      var shown := Shows(pfx, keys[i]);
      if !shown {
        Hidden(pfx, was, i, kept);
        continue;
      }
      var same := unique > 0 && SameChild(keys[unique - 1], keys[i]);
      if same {
        if keys[i][|keys[i]| - 1] == SLASH {
          Replaced(pfx, was, i, kept);
          keys[unique - 1] := keys[i];
          assert keys[..unique] == kept[unique - 1 := was[i]];
        } else {
          Repeated(pfx, was, i, kept);
        }
        continue;
      }
      Added(pfx, was, i, kept);
      keys[unique] := keys[i];
      unique := unique + 1;
      assert keys[..unique] == kept + [was[i]];
    }
    DedupedAll(pfx, was, keys[..unique]);
  }

  lemma DedupedNone(pfx: Key, was: seq<Key>)
    ensures Deduped(pfx, was, 0, [])
  {
  }

  lemma DedupedAll(pfx: Key, was: seq<Key>, kept: seq<Key>)
    requires Deduped(pfx, was, |was|, kept)
    ensures Kept(pfx, was, kept) && (Arranged(was) ==> Arranged(kept) && Distinct(kept))
  {
    assert was[..|was|] == was;
  }

  // ---- the whole list ----

  ghost predicate HasEither(t: Tree, pfx: Key, ext: Key, n: Key)
    requires Named(t)
  {
    HasChild(t, pfx, n) || (ext != [] && HasChild(t, ext, n))
  }

  ghost predicate MarkedEither(t: Tree, pfx: Key, ext: Key, n: Key)
    requires Named(t)
  {
    pfx + n + [SLASH] in Contents(t) || (ext != [] && ext + n + [SLASH] in Contents(t))
  }

  /** The two scans together: what a flat filter of the key map would emit, before sorting. */
  ghost predicate Emitted(t: Tree, pfx: Key, ext: Key, names: seq<Key>)
    requires Named(t)
  {
    && (forall e :: e in names ==> Whole(Stem(e)))
    && (forall n :: Whole(n) ==> (HasEither(t, pfx, ext, n) <==> n in names || n + [SLASH] in names))
    && (forall n :: Whole(n) ==> (MarkedEither(t, pfx, ext, n) <==> n + [SLASH] in names))
  }

  /** No child whose name is a non-numeric coordinate straddles two that are numeric. */
  ghost predicate Orderable(t: Tree, pfx: Key, ext: Key)
    requires Named(t)
  {
    forall p, u, q ::
      HasEither(t, pfx, ext, Stem(p)) && HasEither(t, pfx, ext, Stem(u)) && HasEither(t, pfx, ext, Stem(q)) ==>
        !Straddles(p, u, q)
  }

  /** The list as a function of the key map: "name/" iff a marker is live, "name" iff only values or descendants are. */
  ghost predicate ListOf(t: Tree, pfx: Key, ext: Key, names: seq<Key>)
    requires Named(t)
  {
    && (forall e :: e in names ==> Whole(Stem(e)))
    && (forall n :: Whole(n) ==> (n + [SLASH] in names <==> MarkedEither(t, pfx, ext, n) && Visible(pfx, n + [SLASH])))
    && (forall n :: Whole(n) ==>
          (n in names <==> HasEither(t, pfx, ext, n) && !MarkedEither(t, pfx, ext, n) && Visible(pfx, n)))
  }

  /** A live key puts its child into the list, as a directory iff that marker is live. */
  lemma ListShows(t: Tree, pfx: Key, ext: Key, names: seq<Key>, from: Key, n: Key, rest: Key)
    requires Named(t) && ListOf(t, pfx, ext, names)
    requires n != [] && Unbroken(n) && Rest(rest) && Visible(pfx, n) && (from == pfx || (from == ext && ext != []))
    requires from + n + rest in Contents(t)
    ensures n + [0x2F] in names <==>
              pfx + n + [0x2F] in Contents(t) || (ext != [] && ext + n + [0x2F] in Contents(t))
    ensures n in names <==> n + [0x2F] !in names
  {
    hide Named, Contents, Name, Visible;
    NameSpelled(from, n, rest, from);
    assert HasChild(t, from, n);
    assert Whole(n) by {
      UnbrokenWhole(n);
    }
    VisibleMarker(pfx, n);
    if MarkedEither(t, pfx, ext, n) {
      NameSpelled(pfx, n, [0x2F], pfx);
      NameSpelled(ext, n, [0x2F], ext);
    }
  }

  lemma UnbrokenWhole(n: Key)
    requires n != []
    ensures Whole(n) <==> Unbroken(n)
  {
    var m := NameEnd(n, 0);
    if Unbroken(n) {
      forall i | 0 <= i < |n| ensures !Boundary(n, i) {
      }
    }
    if Whole(n) {
      forall i | 0 <= i < |n| ensures n[i] != 0x2F && !(n[i] == 0xC2 && i + 1 < |n| && n[i + 1] == 0xB7) {
        assert !Boundary(n, i);
      }
    }
  }

  /** What is listed is shown by a live key, and is not hidden. */
  lemma ListedLive(t: Tree, pfx: Key, ext: Key, names: seq<Key>, e: Key) returns (from: Key, rest: Key)
    requires Named(t) && ListOf(t, pfx, ext, names) && e in names
    ensures (from == pfx || (from == ext && ext != [])) && Rest(rest) && from + Stem(e) + rest in Contents(t)
    ensures Stem(e) != [] && Unbroken(Stem(e)) && Visible(pfx, e)
  {
    hide Named, Contents, Name, Visible;
    var n := Stem(e);
    StemTail(e);
    WholeStem(n);
    UnbrokenWhole(n);
    if MarkedEither(t, pfx, ext, n) && e == n + [SLASH] {
      from := if pfx + n + [SLASH] in Contents(t) then pfx else ext;
      rest := [SLASH];
    } else {
      from := if HasChild(t, pfx, n) then pfx else ext;
      var x :| x in Contents(t) && from <= x && Name(from, x) == n;
      NameSpelled(from, n, [], x);
      rest :| Rest(rest) && x == from + n + rest;
    }
  }

  /** In a sorted list the coordinates come first, by their numbers where all have them; plain names follow in byte
      order. */
  lemma ListedOrder(names: seq<Key>, i: nat, j: nat)
    requires Arranged(names) && Distinct(names) && i < j < |names|
    ensures Bracketed(Stem(names[j])) ==> Bracketed(Stem(names[i]))
    ensures !Bracketed(Stem(names[i])) ==> Before(Stem(names[i]), Stem(names[j]))
    ensures Numeric(names[i]) && Numeric(names[j]) && Coords(Stem(names[i])) != Coords(Stem(names[j])) ==>
              Before(Coords(Stem(names[i])).value, Coords(Stem(names[j])).value)
  {
    hide ChildOrder, Bracketed, Before, Coords;
    var x, y := names[i], names[j];
    ChildFlip(x, y);
    assert !SameChild(x, y);
    if Bracketed(Stem(x)) && Bracketed(Stem(y)) {
      NumbersOrder(x, y);
    } else {
      PlainOrder(x, y);
      TailSame(x, y);
    }
  }

  lemma TailSame(x: Key, y: Key)
    requires Stem(x) != Stem(y)
    ensures y == x + [SLASH] ==> Before(Stem(x), Stem(y))
  {
    if y == x + [SLASH] {
      StemSpelled(x, x);
      TailStem(x);
    }
  }

  lemma ScansTogether(t: Tree, pfx: Key, ext: Key, a: seq<Key>, b: seq<Key>)
    requires Named(t) && Children(t, pfx, a) && (if ext == [] then b == [] else Children(t, ext, b))
    ensures Emitted(t, pfx, ext, a + b)
  {
    hide Named, HasChild, Contents, Whole, Stem;
  }

  lemma NothingAlive(t: Tree, pfx: Key)
    requires AtRest(t) && t.root < 0
    ensures Named(t) && Children(t, pfx, [])
  {
    hide Inv, Named, Children, Listed, Shown;
    CoverStarts(t, pfx);
    RestNamed(t);
    LiveKeys(t);
    ShownIsChildren(t, pfx, [], pfx);
  }

  lemma VisibleMarker(pfx: Key, n: Key)
    requires Visible(pfx, n)
    ensures Visible(pfx, n + [SLASH])
  {
    assert (n + [SLASH])[|n|] == SLASH != META_NAME[|META_NAME| - 1];
    forall i | 0 <= i < |n + [SLASH]| ensures !Leader(n + [SLASH], i) {
      if i < |n| {
        assert !Leader(n, i);
      }
    }
  }

  /** Sorting and removing repetitions turns what was emitted into the list. */
  lemma EmittedList(t: Tree, pfx: Key, ext: Key, was: seq<Key>, names: seq<Key>)
    requires Named(t) && Emitted(t, pfx, ext, was) && Kept(pfx, was, names) && Distinct(names)
    ensures ListOf(t, pfx, ext, names)
  {
    hide Named, HasEither, MarkedEither, Visible, Distinct;
    forall n | Whole(n)
      ensures n + [SLASH] in names <==> MarkedEither(t, pfx, ext, n) && Visible(pfx, n + [SLASH])
      ensures n in names <==> HasEither(t, pfx, ext, n) && !MarkedEither(t, pfx, ext, n) && Visible(pfx, n)
    {
      WholeStem(n);
      StandsAs(names, n);
      assert Marker(n + [SLASH]);
      if n in names {
        VisibleMarker(pfx, n);
        if n + [SLASH] in names {
          OneEach(names, n, n + [SLASH]);
        }
      }
    }
  }

  lemma StandsAs(names: seq<Key>, n: Key)
    requires Whole(n)
    ensures Stands(names, n) ==> n in names || n + [SLASH] in names
    ensures Stands(names, n + [SLASH]) ==> n + [SLASH] in names
  {
    hide Whole;
    WholeStem(n);
    if Stands(names, n) {
      var k :| k in names && SameChild(k, n);
      StemTail(k);
    }
  }

  lemma OneEach(names: seq<Key>, a: Key, b: Key)
    requires Distinct(names) && a in names && b in names && a != b
    ensures !SameChild(a, b)
  {
    hide SameChild;
    var i, j :| 0 <= i < |names| && 0 <= j < |names| && names[i] == a && names[j] == b;
    assert SameChild(a, b) ==> SameChild(b, a) by { SameFlip(a, b); }
  }

  lemma SameFlip(a: Key, b: Key)
    ensures SameChild(a, b) == SameChild(b, a)
  {
  }

  /** A child name that a non-empty name shows is whole. */
  lemma HasWhole(t: Tree, pfx: Key, ext: Key, n: Key)
    requires Named(t) && HasEither(t, pfx, ext, n) && n != []
    ensures Whole(n)
  {
    hide Named, Contents, Name;
    if HasChild(t, pfx, n) {
      var x :| x in Contents(t) && pfx <= x && Name(pfx, x) == n;
      NameWhole(pfx, x);
    } else {
      var x :| x in Contents(t) && ext <= x && Name(ext, x) == n;
      NameWhole(ext, x);
    }
  }

  /** The spelling under which a child was emitted. */
  lemma EmittedAs(t: Tree, pfx: Key, ext: Key, was: seq<Key>, p: Key) returns (e: Key)
    requires Named(t) && Emitted(t, pfx, ext, was) && HasEither(t, pfx, ext, Stem(p)) && Bracketed(Stem(p))
    ensures e in was && SameChild(p, e) && (e == Stem(p) || e == Stem(p) + [SLASH])
  {
    hide Named, HasEither, MarkedEither, Whole, Stem;
    HasWhole(t, pfx, ext, Stem(p));
    WholeStem(Stem(p));
    e := if Stem(p) in was then Stem(p) else Stem(p) + [SLASH];
  }

  /** The scanned names have an order exactly when no child of the directory straddles. */
  lemma OrderableIff(t: Tree, pfx: Key, ext: Key, was: seq<Key>)
    requires Named(t) && Emitted(t, pfx, ext, was)
    ensures Orderable(t, pfx, ext) <==> Transitive(set e | e in was)
  {
    hide Named, HasEither, MarkedEither, Transitive, Emitted, StrCmp, ChildOrder, Coords, Stem;
    if Orderable(t, pfx, ext) {
      OrderableNames(t, pfx, ext, was);
    }
    OrderIff(set e | e in was);
    forall p, u, q |
      && HasEither(t, pfx, ext, Stem(p)) && HasEither(t, pfx, ext, Stem(u)) && HasEither(t, pfx, ext, Stem(q))
      && Straddles(p, u, q)
      ensures !Transitive(set e | e in was)
    {
      var p' := EmittedAs(t, pfx, ext, was, p);
      var u' := EmittedAs(t, pfx, ext, was, u);
      var q' := EmittedAs(t, pfx, ext, was, q);
      StraddlesStems(p, u, q, p', u', q');
    }
  }

  lemma OrderableNames(t: Tree, pfx: Key, ext: Key, was: seq<Key>)
    requires Named(t) && Emitted(t, pfx, ext, was) && Orderable(t, pfx, ext)
    ensures Transitive(set e | e in was)
  {
    hide Named, HasEither, MarkedEither, Straddles, Transitive, Whole;
    var names := set e | e in was;
    OrderIff(names);
    forall e | e in was ensures HasEither(t, pfx, ext, Stem(e)) {
      StemTail(e);
    }
  }

  /** No child whose name is a coordinate is hidden. */
  ghost predicate CoordsVisible(t: Tree, pfx: Key, ext: Key)
    requires Named(t)
  {
    forall n :: HasEither(t, pfx, ext, n) && Bracketed(n) ==> Visible(pfx, n)
  }

  /** The spelling under which a visible child is listed. */
  lemma ListedAs(t: Tree, pfx: Key, ext: Key, was: seq<Key>, names: seq<Key>, p: Key) returns (e: Key)
    requires Named(t) && Emitted(t, pfx, ext, was) && Kept(pfx, was, names) && CoordsVisible(t, pfx, ext)
    requires HasEither(t, pfx, ext, Stem(p)) && Bracketed(Stem(p))
    ensures e in names && SameChild(p, e)
  {
    hide Named, HasEither, Emitted, Visible, Stem, Bracketed;
    var k := EmittedAs(t, pfx, ext, was, p);
    VisibleMarker(pfx, Stem(p));
    assert Stands(names, k);
    e :| e in names && SameChild(e, k) && (Marker(k) ==> e == k);
  }

  /** If the list is sorted although no coordinate is hidden, then no child straddles. */
  lemma ArrangedOrderable(t: Tree, pfx: Key, ext: Key, was: seq<Key>, names: seq<Key>)
    requires Named(t) && Emitted(t, pfx, ext, was) && Kept(pfx, was, names) && CoordsVisible(t, pfx, ext)
    requires Arranged(names)
    ensures Orderable(t, pfx, ext)
  {
    hide Named, HasEither, Emitted, Kept, CoordsVisible, Arranged, StrCmp, ChildOrder, Coords, Stem;
    forall p, u, q |
      HasEither(t, pfx, ext, Stem(p)) && HasEither(t, pfx, ext, Stem(u)) && HasEither(t, pfx, ext, Stem(q))
      ensures !Straddles(p, u, q)
    {
      if Straddles(p, u, q) {
        var p' := ListedAs(t, pfx, ext, was, names, p);
        var u' := ListedAs(t, pfx, ext, was, names, u);
        var q' := ListedAs(t, pfx, ext, was, names, q);
        StraddlesStems(p, u, q, p', u', q');
        ArrangedStraight(names, p', u', q');
      }
    }
  }

  /** A directory with the children [2], [10] and [1a] cannot be listed in order. */
  lemma DirectoryInACircle(t: Tree, pfx: Key, ext: Key)
    requires Named(t) && pfx + TWO in Contents(t) && pfx + TEN in Contents(t) && pfx + ODD in Contents(t)
    ensures !Orderable(t, pfx, ext)
  {
    hide Named, Contents, Straddles;
    OrderCycle();
    ShowsItself(t, pfx, TWO);
    ShowsItself(t, pfx, TEN);
    ShowsItself(t, pfx, ODD);
    assert Stem(TWO) == TWO && Stem(TEN) == TEN && Stem(ODD) == ODD;
  }

  lemma ShowsItself(t: Tree, pfx: Key, n: Key)
    requires Named(t) && pfx + n in Contents(t) && forall i :: 0 <= i < |n| ==> !Boundary(n, i)
    ensures HasChild(t, pfx, n)
  {
    hide Named, Contents;
    assert (pfx + n)[|pfx|..] == n;
    assert Name(pfx, pfx + n) == n;
  }

  /** Scan the target directory and, when ext is not empty, the source mounted on it. */
  method ListScan(p: ArtPool, pfx: Key, ext: Key) returns (ok: bool, names: seq<Key>)
    requires p.Valid() && AtRest(p.t)
    ensures ok == !((p.root >= 0 && |pfx| >= SCAN_BUFFER) || |ext| >= SCAN_BUFFER)
    ensures Named(p.t)
    ensures (ok && Orderable(p.t, pfx, ext) ==> ListOf(p.t, pfx, ext, names) && Arranged(names) && Distinct(names))
    ensures ok ==> exists was :: Emitted(p.t, pfx, ext, was) && Kept(pfx, was, names)
    ensures ok && CoordsVisible(p.t, pfx, ext) ==> (Arranged(names) <==> Orderable(p.t, pfx, ext))
    ensures ok && Arranged(names) ==> forall x, y, z :: x in names && y in names && z in names ==> !Straddles(x, y, z)
  {
    hide Inv, Named, Children, Emitted, Kept, Orderable, Arranged, Distinct, ListOf, Transitive, CoordsVisible,
      Straddles;
    RestNamed(p.t);
    names := [];
    if p.root >= 0 {
      ok, names := ScanPfx(p, pfx);
      if !ok {
        return false, [];
      }
    } else {
      NothingAlive(p.t, pfx);
    }
    var more := [];
    if |ext| > 0 {
      ok, more := ScanPfx(p, ext);
      if !ok {
        return false, [];
      }
    }
    ScansTogether(p.t, pfx, ext, names, more);
    ghost var was := names + more;
    var sorted := Sort(names + more);
    SameEmitted(p.t, pfx, ext, was, sorted);
    if Orderable(p.t, pfx, ext) {
      OrderableNames(p.t, pfx, ext, was);
    }
    var keys := new Key[|sorted|](i requires 0 <= i < |sorted| => sorted[i]);
    assert keys[..] == sorted;
    NamesNotEmpty(p.t, pfx, ext, sorted);
    var unique := Compact(pfx, keys);
    names := keys[..unique];
    if Orderable(p.t, pfx, ext) {
      EmittedList(p.t, pfx, ext, sorted, names);
    }
    if Arranged(names) {
      if CoordsVisible(p.t, pfx, ext) {
        ArrangedOrderable(p.t, pfx, ext, sorted, names);
      }
      forall x, y, z | x in names && y in names && z in names ensures !Straddles(x, y, z) {
        ArrangedStraight(names, x, y, z);
      }
    }
    return true, names;
  }

  lemma NamesNotEmpty(t: Tree, pfx: Key, ext: Key, was: seq<Key>)
    requires Named(t) && Emitted(t, pfx, ext, was)
    ensures forall i :: 0 <= i < |was| ==> was[i] != []
  {
    hide Named, HasEither, MarkedEither;
    forall i | 0 <= i < |was| ensures was[i] != [] {
      assert Whole(Stem(was[i]));
    }
  }

  lemma SameEmitted(t: Tree, pfx: Key, ext: Key, a: seq<Key>, b: seq<Key>)
    requires Named(t) && Emitted(t, pfx, ext, a) && forall e :: e in a <==> e in b
    ensures Emitted(t, pfx, ext, b)
  {
    hide Named, HasEither, MarkedEither, Whole, Stem;
  }
}
