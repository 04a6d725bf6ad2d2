/** Reads that follow links and fall back to a directory mounted on the parent of the key, and reads through a
    reference. */
module ArtMount {
  import opened Bytes
  import opened ArtNodes
  import opened ArtTree
  import opened ArtSteps
  import opened ArtPools
  import opened ArtInsert
  import opened ArtLookup

  // ---- paths ----

  /** Position of the last '/', or -1. */
  function LastSlash(key: Key): (r: int)
    ensures -1 <= r < |key| && (r >= 0 ==> key[r] == SLASH)
    ensures forall i :: r < i < |key| ==> key[i] != SLASH
  {
    if key == [] then -1
    else if key[|key| - 1] == SLASH then |key| - 1
    else LastSlash(key[..|key| - 1])
  }

  /** The directory of a key, with its closing '/'. */
  function Parent(key: Key): Key {
    if LastSlash(key) <= 0 then [SLASH] else key[..LastSlash(key) + 1]
  }

  function Leaf(key: Key): Key {
    key[LastSlash(key) + 1..]
  }

  function Join(a: Key, b: Key): Key {
    a + (if a != [] && a[|a| - 1] != SLASH then [SLASH] else []) + b
  }

  /** A directory written with its closing '/'. */
  function Directory(path: Key): Key {
    if path != [] && path[|path| - 1] == SLASH then path else path + [SLASH]
  }

  predicate Slashless(name: Key) {
    forall i :: 0 <= i < |name| ==> name[i] != SLASH
  }

  /** Joining undoes splitting, except that a key without any '/' is taken to lie in the root directory. */
  lemma SplitThenJoin(key: Key)
    ensures Join(Parent(key), Leaf(key)) == if LastSlash(key) < 0 then [SLASH] + key else key
  {
    hide LastSlash;
    var at := LastSlash(key);
    if at < 0 {
      JoinedDirectly([SLASH], key);
    } else {
      assert key[..at + 1][at] == SLASH && (at == 0 ==> key[..1] == [SLASH]);
      JoinedDirectly(key[..at + 1], key[at + 1..]);
    }
  }

  /** After a closing '/' nothing is put between. */
  lemma JoinedDirectly(a: Key, b: Key)
    requires a != [] && a[|a| - 1] == SLASH
    ensures Join(a, b) == a + b
  {
    assert a + [] == a;
  }

  /** One '/' stands between the parts. */
  lemma JoinSpelled(a: Key, b: Key)
    ensures Join(a + [0x2F], b) == a + [0x2F] + b
    ensures a != [] && a[|a| - 1] != 0x2F ==> Join(a, b) == a + [0x2F] + b
    ensures a == [] || a[|a| - 1] != 0x2F ==> Directory(a) == a + [0x2F]
    ensures Directory(a + [0x2F]) == a + [0x2F]
  {
    JoinedDirectly(a + [0x2F], b);
  }

  /** Splitting undoes joining a directory and a name. */
  lemma JoinThenSplit(dir: Key, name: Key)
    requires Slashless(name)
    ensures Parent(Join(Directory(dir), name)) == Directory(dir) && Leaf(Join(Directory(dir), name)) == name
  {
    hide LastSlash;
    var d := Directory(dir);
    assert d[|d| - 1] == SLASH;
    var k := d + name;
    JoinedDirectly(d, name);
    assert k[..|d|] == d && k[|d|..] == name;
    LastSlashIs(k, |d| - 1);
  }

  lemma LastSlashIs(k: Key, at: nat)
    requires at < |k| && k[at] == SLASH && Slashless(k[at + 1..])
    ensures LastSlash(k) == at
  {
    forall i | at < i < |k| ensures k[i] != SLASH {
      assert k[at + 1..][i - at - 1] == k[i];
    }
  }

  // ---- reads ----

  /** What the values in boxes say about themselves: whether the head is in order, the key that a link names, and the
      directory that an extension value names. */
  datatype Values = Values(readable: nat -> bool, pointer: nat -> Option<Key>, locator: nat -> Option<Key>)

  /** The directory mounted on dir. */
  ghost function Mount(t: Tree, dir: Key, v: Values): (r: Option<Key>)
    requires Named(t)
    ensures r.Some? ==> 0 < |r.value| < KEY_LIMIT && Bound(t, dir)
  {
    var box := Lookup(t, dir);
    if box.None? || !v.readable(box.value) || v.locator(box.value).None? then None
    else
      var path := v.locator(box.value).value;
      if path == [] || |path| >= KEY_LIMIT then None else Some(path)
  }

  method DirExtPath(p: ArtPool, dir: Key, v: Values) returns (r: Option<Key>)
    requires p.Valid() && Inv(p.t, map[])
    ensures Named(p.t) && r == Mount(p.t, dir, v)
  {
    hide Inv, Named, NodeAt, Contents;
    var box := Get(p, dir);
    if box.None? || !v.readable(box.value) {
      return None;
    }
    r := v.locator(box.value);
    if r.Some? && (r.value == [] || |r.value| >= KEY_LIMIT) {
      return None;
    }
  }

  /** The key that key stands for in the directory mounted on its parent. */
  ghost function Mounted(t: Tree, key: Key, v: Values): Option<Key>
    requires Named(t)
  {
    var dir := Mount(t, Parent(key), v);
    if dir.None? then None else Some(Join(dir.value, Leaf(key)))
  }

  /** The box of key, if its value can be read. */
  ghost function ReadableBox(t: Tree, key: Key, v: Values): Option<nat>
    requires Named(t)
  {
    var box := Lookup(t, key);
    if box.Some? && v.readable(box.value) then box else None
  }

  // ---- links ----

  const HOPS := 16

  /** The key that the value of key links to. */
  ghost function Link(t: Tree, key: Key, v: Values): Option<Key>
    requires Named(t)
  {
    var box := Lookup(t, key);
    if box.None? || !v.readable(box.value) then None
    else if v.pointer(box.value).None? || |v.pointer(box.value).value| >= KEY_LIMIT then None
    else v.pointer(box.value)
  }

  /** Where following links ends, and the value found there. */
  ghost function Resolve(t: Tree, path: Key, v: Values, hops: nat): (Key, Option<nat>)
    requires Named(t)
    decreases hops
  {
    if hops == 0 then (path, None)
    else if Link(t, path, v).Some? then Resolve(t, Link(t, path, v).value, v, hops - 1)
    else (path, ReadableBox(t, path, v))
  }

  method ResolveFetch(p: ArtPool, path: Key, v: Values) returns (out: Key, box: Option<nat>)
    requires p.Valid() && Inv(p.t, map[])
    ensures Named(p.t) && (out, box) == Resolve(p.t, path, v, HOPS)
  {
    hide Inv, Named, NodeAt, Contents, ArtPool.Valid, Lookup;
    MissOrHit(p.t, path);
    out, box := path, None;
    var hops: nat := HOPS;
    while hops > 0
      invariant box == None && Resolve(p.t, out, v, hops) == Resolve(p.t, path, v, HOPS)
    {
      var found := Get(p, out);
      if found.None? || !v.readable(found.value) {
        return;
      }
      var next := v.pointer(found.value);
      if next.None? || |next.value| >= KEY_LIMIT {
        box := found;
        return;
      }
      out, hops := next.value, hops - 1;
    }
  }

  /** Each key links to the next. */
  ghost predicate Chained(t: Tree, v: Values, keys: seq<Key>)
    requires Named(t)
  {
    forall i :: 0 <= i < |keys| - 1 ==> Link(t, keys[i], v) == Some(keys[i + 1])
  }

  /** Resolving walks along one chain of links: to its end, whose value it finds, or as far as it may go. */
  lemma {:induction false} ResolveChain(t: Tree, path: Key, v: Values, hops: nat) returns (keys: seq<Key>)
    requires Named(t)
    decreases hops
    ensures 0 < |keys| <= hops + 1 && keys[0] == path && Chained(t, v, keys)
    ensures var last := keys[|keys| - 1];
            if |keys| <= hops
            then Link(t, last, v) == None && Resolve(t, path, v, hops) == (last, ReadableBox(t, last, v))
            else Resolve(t, path, v, hops) == (last, None)
  {
    hide Named, Link, ReadableBox;
    keys := [path];
    if hops > 0 && Link(t, path, v).Some? {
      var rest := ResolveChain(t, Link(t, path, v).value, v, hops - 1);
      keys := [path] + rest;
    }
  }

  // ---- reading a key ----

  /** What a read of key is to find: its value, or that of the key its links lead to, else that of the key which that
      one stands for. A value that cannot be read hides the mounted one unless links are followed. */
  ghost function Read(t: Tree, key: Key, follow: bool, v: Values): Option<nat>
    requires Named(t)
  {
    if ReservedMeta(key) || |key| >= KEY_LIMIT then None
    else
      var end := if follow then Resolve(t, key, v, HOPS) else (key, ReadableBox(t, key, v));
      if end.1.Some? || (!follow && Bound(t, key)) then end.1
      else if Mounted(t, end.0, v).Some? then ReadableBox(t, Mounted(t, end.0, v).value, v)
      else None
  }

  method ShmGet(p: ArtPool, key: Key, follow: bool, v: Values) returns (r: Option<nat>)
    requires p.Valid() && Inv(p.t, map[])
    ensures Named(p.t) && r == Read(p.t, key, follow, v)
  {
    hide Inv, Named, NodeAt, Contents, Bound, Mount, Resolve;
    MissOrHit(p.t, key);
    LookupBound(p.t, key);
    if ReservedMeta(key) || |key| >= KEY_LIMIT {
      return None;
    }
    var out := key;
    if follow {
      out, r := ResolveFetch(p, key, v);
      if r.Some? {
        return r;
      }
    } else {
      r := Get(p, key);
      if r.Some? {
        return if v.readable(r.value) then r else None;
      }
    }
    var ext := DirExtPath(p, Parent(out), v);
    if ext.None? {
      return None;
    }
    r := Get(p, Join(ext.value, Leaf(out)));
    if r.Some? && !v.readable(r.value) {
      return None;
    }
  }

  /** The box of key if it is live and its value is in order. */
  ghost function Sees(t: Tree, key: Key, v: Values): Option<nat>
    requires Named(t)
  {
    if key in Contents(t) && v.readable(Contents(t)[key]) then Some(Contents(t)[key]) else None
  }

  /** The directory src is mounted on dir: its value is in order and names src. */
  ghost predicate Mounts(t: Tree, dir: Key, src: Key, v: Values)
    requires Named(t)
  {
    && dir in Contents(t) && v.readable(Contents(t)[dir]) && v.locator(Contents(t)[dir]) == Some(src)
    && 0 < |src| < 1024
  }

  /** The value of a links to b. */
  ghost predicate LinksTo(t: Tree, a: Key, b: Key, v: Values)
    requires Named(t)
  {
    a in Contents(t) && v.readable(Contents(t)[a]) && v.pointer(Contents(t)[a]) == Some(b) && |b| < 1024
  }

  ghost predicate LinksOn(t: Tree, a: Key, v: Values)
    requires Named(t)
  {
    exists b :: LinksTo(t, a, b, v)
  }

  ghost predicate LinkChain(t: Tree, keys: seq<Key>, v: Values)
    requires Named(t)
  {
    forall i :: 0 <= i < |keys| - 1 ==> LinksTo(t, keys[i], keys[i + 1], v)
  }

  predicate Readable(key: Key) {
    !ReservedMeta(key) && |key| < 1024
  }

  lemma SeesIs(t: Tree, key: Key, v: Values)
    requires Named(t)
    ensures ReadableBox(t, key, v) == Sees(t, key, v) && (Bound(t, key) <==> key in Contents(t))
    ensures key !in Contents(t) ==> Sees(t, key, v) == None
  {
    hide Named;
  }

  lemma MountsIs(t: Tree, dir: Key, src: Key, v: Values)
    requires Named(t)
    ensures Mounts(t, dir, src, v) <==> Mount(t, dir, v) == Some(src)
  {
    hide Named;
  }

  lemma LinksToIs(t: Tree, a: Key, b: Key, v: Values)
    requires Named(t)
    ensures LinksTo(t, a, b, v) <==> Link(t, a, v) == Some(b)
  {
    hide Named;
  }

  /** The value of dir/name when it has none of its own. */
  lemma MountedIs(t: Tree, dir: Key, name: Key, v: Values)
    requires Named(t) && Slashless(name)
    ensures var m := Mounted(t, Join(Directory(dir), name), v);
            && (forall src :: Mounts(t, Directory(dir), src, v) ==> m == Some(Join(src, name)))
            && ((forall src :: !Mounts(t, Directory(dir), src, v)) ==> m == None)
  {
    hide Named, Contents, Mount, Mounts, Join, Directory, Parent, Leaf;
    JoinThenSplit(dir, name);
    forall src ensures Mounts(t, Directory(dir), src, v) <==> Mount(t, Directory(dir), v) == Some(src) {
      MountsIs(t, Directory(dir), src, v);
    }
    if Mount(t, Directory(dir), v).Some? {
      assert Mounts(t, Directory(dir), Mount(t, Directory(dir), v).value, v);
    }
  }

  /** Without following links: a key that is live shows its own value, or nothing if that is not in order; under a
      mounted directory any other name shows the value of the same name in the source. */
  lemma MountShows(t: Tree, dir: Key, name: Key, src: Key, v: Values)
    requires Named(t) && Slashless(name) && Readable(Join(Directory(dir), name))
    ensures var key := Join(Directory(dir), name);
            && (key in Contents(t) ==> Read(t, key, false, v) == Sees(t, key, v))
            && (key !in Contents(t) && Mounts(t, Directory(dir), src, v) ==>
                  Read(t, key, false, v) == Sees(t, Join(src, name), v))
            && (key !in Contents(t) && (forall x :: !Mounts(t, Directory(dir), x, v)) ==>
                  Read(t, key, false, v) == None)
  {
    hide Named, Contents, Bound, Mounts, Mounted, Join, Directory, Sees, ReadableBox;
    SeesIs(t, Join(Directory(dir), name), v);
    SeesIs(t, Join(src, name), v);
    MountedIs(t, dir, name, v);
  }

  /** Links lead from the first key to the last: that is where resolving goes on, with as many links less to spend. */
  lemma {:induction false} ChainResolves(t: Tree, keys: seq<Key>, v: Values, hops: nat)
    requires Named(t) && 0 < |keys| <= hops + 1 && LinkChain(t, keys, v)
    ensures Resolve(t, keys[0], v, hops) == Resolve(t, keys[|keys| - 1], v, hops - (|keys| - 1))
    decreases |keys|
  {
    hide Named, LinksTo, Link, ReadableBox;
    if |keys| > 1 {
      assert LinksTo(t, keys[0], keys[1], v);
      LinksToIs(t, keys[0], keys[1], v);
      forall i | 0 <= i < |keys[1..]| - 1 ensures LinksTo(t, keys[1..][i], keys[1..][i + 1], v) {
        assert LinksTo(t, keys[i + 1], keys[i + 2], v);
      }
      ChainResolves(t, keys[1..], v, hops - 1);
    }
  }

  /** Following links: at most fifteen of them lead to the value at their end. */
  lemma ReadFollows(t: Tree, keys: seq<Key>, v: Values)
    requires Named(t) && 0 < |keys| <= 16 && LinkChain(t, keys, v) && Readable(keys[0])
    requires !LinksOn(t, keys[|keys| - 1], v)
    ensures var last := keys[|keys| - 1];
            Sees(t, last, v).Some? ==> Read(t, keys[0], true, v) == Sees(t, last, v)
  {
    hide Named, LinksTo, Link, ReadableBox, Sees, Mounted, Contents, LinkChain;
    var last := keys[|keys| - 1];
    ChainResolves(t, keys, v, 16);
    NoLink(t, last, v);
    SeesIs(t, last, v);
  }

  lemma NoLink(t: Tree, key: Key, v: Values)
    requires Named(t) && !LinksOn(t, key, v)
    ensures Link(t, key, v) == None
  {
    hide Named, LinksTo, Link;
    if Link(t, key, v).Some? {
      LinksToIs(t, key, Link(t, key, v).value, v);
    }
  }

  /** Where no value in order is found at the end of the links, or a seventeenth key is reached, the mounted value is
      that
      of the key last reached, not of the key asked for. */
  lemma ReadFallsBack(t: Tree, keys: seq<Key>, dir: Key, name: Key, src: Key, v: Values)
    requires Named(t) && 0 < |keys| <= 17 && LinkChain(t, keys, v) && Readable(keys[0])
    requires Slashless(name) && keys[|keys| - 1] == Join(Directory(dir), name)
    requires |keys| == 17 || (Sees(t, keys[|keys| - 1], v) == None && !LinksOn(t, keys[|keys| - 1], v))
    ensures Mounts(t, Directory(dir), src, v) ==> Read(t, keys[0], true, v) == Sees(t, Join(src, name), v)
    ensures (forall x :: !Mounts(t, Directory(dir), x, v)) ==> Read(t, keys[0], true, v) == None
  {
    hide Named, LinksTo, Link, ReadableBox, Sees, Mounted, Contents, LinkChain, Mounts, Join, Directory;
    var last := keys[|keys| - 1];
    ChainResolves(t, keys, v, 16);
    if |keys| < 17 {
      NoLink(t, last, v);
    }
    SeesIs(t, last, v);
    SeesIs(t, Join(src, name), v);
    MountedIs(t, dir, name, v);
  }

  // ---- reads through a reference ----

  /** The reference falls back to a mounted directory: the key has no value of its own, and the source has one. */
  ghost predicate FallsBack(t: Tree, ref: Ref, key: Key, v: Values)
    requires Named(t)
  {
    ref.gen == 0 && !Bound(t, key) && Read(t, key, false, v).Some?
  }

  /** The box of key, through a reference, and the refreshed reference. A leaf reference without a value falls back to a
      read by key; when that finds a mounted value, resolving the key again fails and leaves the zeroed reference. */
  method GetByRef(p: ArtPool, ref: Ref, key: Key, v: Values) returns (r: Option<nat>, ref': Ref)
    requires p.Valid() && Inv(p.t, map[])
    requires LeafRef(p.t, ref, key) || DirRef(p.t, ref, key)
    ensures Named(p.t)
    ensures r == if ReadableBox(p.t, key, v).Some? || ref.gen != 0 then ReadableBox(p.t, key, v)
      else Read(p.t, key, false, v)
    ensures ref.gen == 0 && !ReservedMeta(key) && |key| < KEY_LIMIT ==> r == Read(p.t, key, false, v)
    ensures (LeafRef(p.t, ref', key) || DirRef(p.t, ref', key)) <==>
              (FallsBack(p.t, ref, key, v) ==> p.t.path[0] == key)
  {
    hide Inv, Named, NodeAt, Contents, Mounted;
    var id;
    id, ref' := RefLeaf(p, ref, key);
    HolderLookup(p.t, key);
    LookupBound(p.t, key);
    PoolSizes(p);
    if id >= 0 && p.nodes[id].word.has && v.readable(p.nodes[id].word.off) {
      return Some(p.nodes[id].word.off), ref';
    }
    if ref.gen != 0 {
      return None, ref';
    }
    r := ShmGet(p, key, false, v);
    if r.Some? {
      var again := ResolveRef(p, key);
      match again {
        case None => ref' := Ref(0, 0, 0, 0);
        case Some(found) => ref' := found;
      }
    }
  }

  // ---- a reference that is lost ----

  const KEY_B: Key := [0x2F, 0x62]
  const SOURCE: Key := [0x2F, 0x73, 0x2F]
  const KEY_SB: Key := [0x2F, 0x73, 0x2F, 0x62]

  /** Keys "/", "/b", "/s/" and "/s/b" in the order they were set, with "/b" deleted since. */
  const TOMBSTONE := Tree(
    [Node(false, 0, [0x2F], map[0x62 := 1, 0x73 := 2], Word(true, 8), 1), Node(false, 0, [], map[], EMPTY_WORD, 2),
     Node(false, 0, [0x2F], map[0x62 := 3], Word(true, 16), 3), Node(false, 0, [], map[], Word(true, 24), 4)],
    [[SLASH], KEY_B, SOURCE, KEY_SB], map[[SLASH] := 0, KEY_B := 1, SOURCE := 2, KEY_SB := 3], 0)

  lemma TombstoneNamed()
    ensures Named(TOMBSTONE)
  {
    var t := TOMBSTONE;
    assert |[SLASH]| == 1 && |KEY_B| == 2 && |SOURCE| == 3 && |KEY_SB| == 4;
    assert SOURCE[2..] == [SLASH];
    forall i | 0 <= i < |t.nodes| ensures t.path[i] in t.at && t.at[t.path[i]] == i {
      assert i == 0 || i == 1 || i == 2 || i == 3;
    }
    forall k | k in t.at ensures k == [SLASH] || k == KEY_B || k == SOURCE || k == KEY_SB {
    }
  }

  lemma TombstoneForwards()
    requires Named(TOMBSTONE)
    ensures Forwards(TOMBSTONE)
  {
    hide Named;
    var t := TOMBSTONE;
    forall i | 0 <= i < |t.nodes| ensures ForwardsAt(t, i) {
      assert i == 0 || i == 1 || i == 2 || i == 3;
    }
  }

  lemma TombstoneNodes()
    requires Named(TOMBSTONE)
    ensures TOMBSTONE.at.Keys == {[SLASH], KEY_B, SOURCE, KEY_SB}
    ensures NodeAt(TOMBSTONE, [SLASH]).edges == map[0x62 := 1, 0x73 := 2]
    ensures NodeAt(TOMBSTONE, SOURCE).edges == map[0x62 := 3]
    ensures NodeAt(TOMBSTONE, KEY_B).edges == map[] && NodeAt(TOMBSTONE, KEY_SB).edges == map[]
    ensures Base(TOMBSTONE, [SLASH]) == [] && Base(TOMBSTONE, KEY_B) == KEY_B
    ensures Base(TOMBSTONE, SOURCE) == [SLASH, 0x73] && Base(TOMBSTONE, KEY_SB) == KEY_SB
    ensures NodeAt(TOMBSTONE, [SLASH]).word == Word(true, 8) && !NodeAt(TOMBSTONE, KEY_B).word.has
    ensures NodeAt(TOMBSTONE, KEY_SB).word == Word(true, 24)
  {
    assert |[SLASH]| == 1 && |KEY_B| == 2 && |SOURCE| == 3 && |KEY_SB| == 4;
  }

  lemma Spelling()
    ensures [] + [SLASH] == [SLASH] && KEY_B + [] == KEY_B && [SLASH, 0x73] + [SLASH] == SOURCE && KEY_SB + [] == KEY_SB
  {
  }

  lemma TombstoneHangs()
    requires Named(TOMBSTONE)
    ensures Hangs(TOMBSTONE, [], 0) && Hangs(TOMBSTONE, KEY_B, 1)
    ensures Hangs(TOMBSTONE, [SLASH, 0x73], 2) && Hangs(TOMBSTONE, KEY_SB, 3)
  {
    hide Named;
    Spelling();
    var t := TOMBSTONE;
    assert t.nodes[0].prefix == [SLASH] && t.path[0] == [SLASH];
    assert t.nodes[1].prefix == [] && t.path[1] == KEY_B;
    assert t.nodes[2].prefix == [SLASH] && t.path[2] == SOURCE;
    assert t.nodes[3].prefix == [] && t.path[3] == KEY_SB;
  }

  lemma TombstoneDown()
    requires Named(TOMBSTONE)
    ensures Down(TOMBSTONE, map[])
  {
    hide Named, NodeAt, Base, Hangs;
    TombstoneNodes();
    TombstoneHangs();
    var t := TOMBSTONE;
    assert [SLASH] + [0x62] == KEY_B && [SLASH] + [0x73] == [SLASH, 0x73] && SOURCE + [0x62] == KEY_SB;
    forall k, b | k in t.at && b in NodeAt(t, k).edges ensures Hangs(t, k + [b], NodeAt(t, k).edges[b]) {
      assert k in t.at.Keys && (k == [SLASH] || k == SOURCE);
    }
  }

  lemma TombstoneUp()
    requires Named(TOMBSTONE)
    ensures Up(TOMBSTONE, map[])
  {
    hide Named, NodeAt, Base, Hangs;
    TombstoneNodes();
    var t := TOMBSTONE;
    assert KEY_B[..1] == [SLASH] && [SLASH, 0x73][..1] == [SLASH] && KEY_SB[..3] == SOURCE;
    forall k | k in t.at ensures Target(t, map[], Base(t, k)) == t.at[k] {
      assert k in t.at.Keys && (k == [SLASH] || k == KEY_B || k == SOURCE || k == KEY_SB);
    }
  }

  lemma TombstonePaths()
    ensures Parent(KEY_B) == [SLASH] && Leaf(KEY_B) == [0x62] && Join(SOURCE, [0x62]) == KEY_SB && !ReservedMeta(KEY_B)
  {
    assert LastSlash(KEY_B) == 0 by {
      assert KEY_B[0] == SLASH;
    }
  }

  lemma TombstoneInv()
    ensures Inv(TOMBSTONE, map[])
  {
    hide Named, Forwards, Up, Down;
    TombstoneNamed();
    TombstoneForwards();
    TombstoneDown();
    TombstoneUp();
  }

  lemma TombstoneKeys()
    requires Named(TOMBSTONE)
    ensures Lookup(TOMBSTONE, [SLASH]) == Some(8) && Lookup(TOMBSTONE, KEY_SB) == Some(24) && !Bound(TOMBSTONE, KEY_B)
  {
    hide Named, NodeAt;
    TombstoneNodes();
    assert [SLASH] in TOMBSTONE.at && KEY_SB in TOMBSTONE.at;
  }

  lemma TombstoneRead(v: Values)
    requires Named(TOMBSTONE)
    requires v.readable(8) && v.locator(8) == Some(SOURCE) && v.readable(24)
    ensures Read(TOMBSTONE, KEY_B, false, v) == Some(24)
  {
    hide Named, Lookup, Bound, Parent, Leaf, Join, ReservedMeta;
    TombstoneKeys();
    TombstonePaths();
    LookupBound(TOMBSTONE, KEY_B);
  }

  /** With "/s/" mounted on "/", a reference to "/b" reads "/s/b" and comes back as one that names "/". */
  lemma ReferenceLost(v: Values)
    requires v.readable(8) && v.locator(8) == Some(SOURCE) && v.readable(24)
    ensures Inv(TOMBSTONE, map[]) && LeafRef(TOMBSTONE, Ref(1, 0, 0, 0), KEY_B)
    ensures FallsBack(TOMBSTONE, Ref(1, 0, 0, 0), KEY_B, v) && Read(TOMBSTONE, KEY_B, false, v) == Some(24)
    ensures LeafRef(TOMBSTONE, Ref(0, 0, 0, 0), [SLASH]) && !LeafRef(TOMBSTONE, Ref(0, 0, 0, 0), KEY_B)
  {
    hide Inv, Named, Read, Bound;
    TombstoneInv();
    TombstoneNamed();
    TombstoneKeys();
    TombstoneRead(v);
    assert |[SLASH]| != |KEY_B|;
  }
}
