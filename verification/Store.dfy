/** Values in boxes: writing, deleting one key, deleting a subtree. */
module Stores {
  import opened Bytes
  import opened ArtNodes
  import opened ArtTree
  import opened ArtSteps
  import opened ArtPools
  import opened ArtInsert
  import opened ArtLookup
  import opened ArtScan

  /** What the allocator answers to one request: an unused box, with whatever bytes it holds. */
  datatype Spare = Spare(off: nat, bytes: Key)

  /** Every key has a box of its own, and no retired box belongs to a key or is retired twice. */
  ghost predicate Sound(c: map<Key, nat>, boxes: map<nat, Key>, retired: seq<nat>) {
    && (forall k :: k in c ==> c[k] in boxes)
    && (forall k, j :: k in c && j in c && k != j ==> c[k] != c[j])
    && (forall i :: 0 <= i < |retired| ==> retired[i] in boxes && forall k :: k in c ==> c[k] != retired[i])
    && (forall i, j :: 0 <= i < j < |retired| ==> retired[i] != retired[j])
  }

  /** The bytes a reader of key sees: the value at the start of its box, as long as `total` says. */
  ghost function ValueOf(c: map<Key, nat>, boxes: map<nat, Key>, total: Key -> nat, key: Key): Option<Key> {
    if key in c && c[key] in boxes && total(boxes[c[key]]) <= |boxes[c[key]]|
        then Some(boxes[c[key]][..total(boxes[c[key]])])
    else None
  }

  /** A valid value carries its own length, whatever follows it in the box. */
  ghost predicate Valued(total: Key -> nat, val: Key) {
    forall d :: val <= d ==> total(d) == |val|
  }

  /** A key-set change has moved the list generation. */
  ghost predicate Announced(t: Tree, g: nat, t': Tree, g': nat)
    requires Named(t) && Named(t')
  {
    g <= g' && (g == g' ==> Contents(t').Keys == Contents(t).Keys)
  }

  /** Key, or key followed by '/', U+00B7 or U+2025; the empty base is the root. */
  predicate SubtreeKey(base: Key, key: Key) {
    if base == [] then key != [] && key[0] == SLASH
    else base <= key && (|key| == |base| || key[|base|] == SLASH || OtherMark(key, |base|))
  }

  predicate OtherMark(key: Key, at: nat)
    requires at <= |key|
  {
    MarkAt(key, at, [DOT0, DOT1]) || MarkAt(key, at, [0xE2, 0x80, 0xA5])
  }

  predicate MarkAt(key: Key, at: nat, mark: Key)
    requires at <= |key|
  {
    mark <= key[at..]
  }

  /** Nothing, or '/', U+00B7 or U+2025 and anything. */
  predicate Tail(r: Key) {
    r == [] || r[0] == 0x2F || [0xC2, 0xB7] <= r || [0xE2, 0x80, 0xA5] <= r
  }

  /** The subtree of base is base itself and base with one of the three separators behind it, not what merely starts
      with
      the same bytes. */
  lemma SubtreeSpelled(base: Key, r: Key, k: Key)
    ensures base != [] ==> (SubtreeKey(base, base + r) <==> Tail(r)) && (SubtreeKey(base, k) ==> base <= k)
    ensures SubtreeKey([], k) <==> k != [] && k[0] == 0x2F
  {
    assert (base + r)[|base|..] == r;
  }

  function Trunk(prefix: Key): Key {
    if prefix == [SLASH] then []
    else if prefix != [] && prefix[|prefix| - 1] == SLASH then prefix[..|prefix| - 1]
    else if |prefix| >= 2 && prefix[|prefix| - 2..] == [DOT0, DOT1] then prefix[..|prefix| - 2]
    else prefix
  }

  /** One closing '/' or U+00B7 is taken off a prefix; the root is empty. */
  lemma TrunkSpelled(base: Key)
    ensures Trunk(base + [0x2F]) == base && Trunk(base + [0xC2, 0xB7]) == base && Trunk([]) == []
    ensures base != [] && base[|base| - 1] != 0x2F && !(|base| >= 2 && base[|base| - 2..] == [0xC2, 0xB7]) ==>
              Trunk(base) == base
  {
    assert (base + [0xC2, 0xB7])[|base|..] == [0xC2, 0xB7] && (base + [0x2F])[..|base|] == base;
  }

  /** The prefix means the directory base: base itself, or base closed by '/' or U+00B7. */
  predicate Denotes(prefix: Key, base: Key) {
    || prefix == base + [0x2F] || prefix == base + [0xC2, 0xB7]
    || (prefix == base && (base == [] ||
          (base[|base| - 1] != 0x2F && !(|base| >= 2 && base[|base| - 2..] == [0xC2, 0xB7]))))
  }

  /** Every prefix denotes a directory. */
  lemma TrunkDenotes(prefix: Key)
    ensures Denotes(prefix, Trunk(prefix))
  {
    var n := |prefix|;
    if prefix == [SLASH] {
    } else if n >= 1 && prefix[n - 1] == SLASH {
      Halves(prefix, n - 1);
    } else if n >= 2 && prefix[n - 2..] == [DOT0, DOT1] {
      Halves(prefix, n - 2);
    }
  }

  lemma Halves(a: Key, i: nat)
    requires i <= |a|
    ensures a == a[..i] + a[i..] && (i + 1 == |a| ==> a[i..] == [a[i]])
  {
  }

  /** From c, exactly the keys of the subtree that are not reserved and whose box the ring takes have gone. */
  ghost predicate SubtreeGone(c: map<Key, nat>, c': map<Key, nat>, prefix: Key, room: Key -> bool) {
    && (forall k :: k in c' ==> k in c && c'[k] == c[k])
    && forall base :: Denotes(prefix, base) ==> GoneBelow(c, c', base, room)
  }

  ghost predicate GoneBelow(c: map<Key, nat>, c': map<Key, nat>, base: Key, room: Key -> bool) {
    && (forall k :: k in c && k !in c' ==> base <= k)
    && forall r {:trigger base + r} :: base + r in c ==>
        (base + r in c' <==>
          ReservedMeta(base + r) || !room(base + r) || !(if base == [] then r != [] && r[0] == 0x2F else Tail(r)))
  }

  lemma SparedGone(c: map<Key, nat>, prefix: Key, room: Key -> bool)
    ensures SubtreeGone(c, Spared(c, Trunk(prefix), room), prefix, room)
  {
    hide SubtreeKey, Trunk, ReservedMeta, Tail;
    var c' := Spared(c, Trunk(prefix), room);
    forall base | Denotes(prefix, base) ensures GoneBelow(c, c', base, room) {
      TrunkSpelled(base);
      assert Trunk(prefix) == base;
      forall k | k in c && k !in c' ensures base <= k {
        SubtreeSpelled(base, [], k);
      }
      forall r | base + r in c
        ensures base + r in c' <==>
          ReservedMeta(base + r) || !room(base + r) || !(if base == [] then r != [] && r[0] == 0x2F else Tail(r))
      {
        SubtreeSpelled(base, r, base + r);
        assert base == [] ==> base + r == r;
      }
    }
  }

  /** Refused are over-long prefixes, reserved ones, and the reserved directory closed by U+00B7. */
  lemma DeletableSpelled(prefix: Key)
    ensures Deletable(prefix) <==>
              |prefix| < 1024 && !ReservedMeta(prefix) && prefix != [0x2F] + META_NAME + [0xC2, 0xB7]
  {
    var t, m := Trunk(prefix), [0x2F] + META_NAME;
    assert t <= prefix;
    if ReservedMeta(t) && t != [] && !ReservedMeta(prefix) {
      assert t == m;
      assert prefix == t + prefix[|t|..];
      assert prefix[|t|..] == [0xC2, 0xB7];
    }
    TrunkSpelled(m);
  }

  ghost predicate OthersRead(c: map<Key, nat>, boxes: map<nat, Key>, c': map<Key, nat>, boxes': map<nat, Key>,
      total: Key -> nat, key: Key) {
    forall k {:trigger k in c'} {:trigger ValueOf(c', boxes', total, k)} :: k != key ==>
      ValueOf(c', boxes', total, k) == ValueOf(c, boxes, total, k) && (k in c' <==> k in c)
  }

  /** Boxes keep their capacity. */
  ghost predicate SameSizes(boxes: map<nat, Key>, boxes': map<nat, Key>) {
    forall b :: b in boxes ==> b in boxes' && |boxes'[b]| == |boxes[b]|
  }

  lemma Own(c: map<Key, nat>, boxes: map<nat, Key>, retired: seq<nat>, key: Key)
    requires Sound(c, boxes, retired) && key in c
    ensures c[key] in boxes
  {
  }

  /** Overwriting the front of a box changes what one key reads. */
  lemma Overwritten(c: map<Key, nat>, boxes: map<nat, Key>, retired: seq<nat>, total: Key -> nat, key: Key, val: Key,
      data: Key)
    requires Sound(c, boxes, retired) && key in c && c[key] in boxes && Valued(total, val)
    requires val <= data && |data| == |boxes[c[key]]|
    ensures var b := boxes[c[key] := data];
            && Sound(c, b, retired) && ValueOf(c, b, total, key) == Some(val)
            && OthersRead(c, boxes, c, b, total, key) && SameSizes(boxes, b)
  {
    assert data[..|val|] == val;
  }

  /** So does moving the key to a new box and retiring the old one. */
  lemma Rehoused(c: map<Key, nat>, boxes: map<nat, Key>, retired: seq<nat>, total: Key -> nat, key: Key, val: Key,
      data: Key, off: nat)
    requires Sound(c, boxes, retired) && off !in boxes && Valued(total, val) && val <= data
    ensures var b, c' := boxes[off := data], c[key := off];
            && Sound(c', b, if key in c then retired + [c[key]] else retired) && ValueOf(c', b, total, key) == Some(val)
            && OthersRead(c, boxes, c', b, total, key) && SameSizes(boxes, b)
  {
    assert data[..|val|] == val;
  }

  lemma Unchanged(c: map<Key, nat>, boxes: map<nat, Key>, total: Key -> nat, key: Key)
    ensures OthersRead(c, boxes, c, boxes, total, key) && SameSizes(boxes, boxes)
  {
  }

  const STATUS_MIN_CAP := 80

  /** "/vthread/...", ending in "/", U+2025 and "status" */
  predicate StatusKey(key: Key) {
    var head := [0x2F, 0x76, 0x74, 0x68, 0x72, 0x65, 0x61, 0x64, 0x2F];
    var tail := [0x2F, 0xE2, 0x80, 0xA5, 0x73, 0x74, 0x61, 0x74, 0x75, 0x73];
    |key| > |tail| && head <= key && key[|key| - |tail|..] == tail
  }

  /** Status keys: "/vthread", then nothing or '/' and anything, then "/", U+2025 and "status". */
  lemma StatusSpelled(mid: Key)
    ensures var head, tail := [0x2F, 0x76, 0x74, 0x68, 0x72, 0x65, 0x61, 0x64],
                              [0x2F, 0xE2, 0x80, 0xA5, 0x73, 0x74, 0x61, 0x74, 0x75, 0x73];
            StatusKey(head + mid + tail) <==> mid == [] || mid[0] == 0x2F
  {
    var head, tail := [0x2F, 0x76, 0x74, 0x68, 0x72, 0x65, 0x61, 0x64],
                      [0x2F, 0xE2, 0x80, 0xA5, 0x73, 0x74, 0x61, 0x74, 0x75, 0x73];
    var w := head + mid + tail;
    assert w[|w| - |tail|..] == tail && w[..8] == head;
    assert w[8] == if mid == [] then 0x2F else mid[0];
    assert head + [0x2F] <= w <==> w[8] == 0x2F;
  }

  lemma StatusParts(key: Key) returns (mid: Key)
    requires StatusKey(key)
    ensures key == [0x2F, 0x76, 0x74, 0x68, 0x72, 0x65, 0x61, 0x64] + mid +
                   [0x2F, 0xE2, 0x80, 0xA5, 0x73, 0x74, 0x61, 0x74, 0x75, 0x73]
  {
    var h := [0x2F, 0x76, 0x74, 0x68, 0x72, 0x65, 0x61, 0x64, 0x2F];
    var tail := [0x2F, 0xE2, 0x80, 0xA5, 0x73, 0x74, 0x61, 0x74, 0x75, 0x73];
    var n := |key| - 10;
    assert key[n] == key[n..][0] == tail[0] == 0x2F;
    assert forall i :: 0 <= i < 9 ==> key[i] == h[i];
    assert forall i :: 1 <= i < 8 ==> h[i] != 0x2F;
    assert n >= 8;
    mid := key[8..n];
    assert key == key[..8] + mid + key[n..];
    assert key[..8] == h[..8] == [0x2F, 0x76, 0x74, 0x68, 0x72, 0x65, 0x61, 0x64];
  }

  /** The capacity asked for: value, reserve, and the minimum of a status key. */
  function Need(key: Key, len: nat, reserve: nat): (n: nat)
    ensures n >= len && n >= reserve && (StatusKey(key) ==> n >= STATUS_MIN_CAP)
    ensures n == len || n == reserve || (StatusKey(key) && n == STATUS_MIN_CAP)
  {
    var n := if reserve > len then reserve else len;
    if StatusKey(key) && n < STATUS_MIN_CAP then STATUS_MIN_CAP else n
  }

  /** The key's own box is large enough for what is to be stored. */
  ghost predicate Fits(c: map<Key, nat>, boxes: map<nat, Key>, key: Key, need: nat) {
    key in c && c[key] in boxes && need <= |boxes[c[key]]|
  }

  class Store {
    const pool: ArtPool
    const id: nat                // of the handle, not of the files behind it
    const total: Key -> nat      // length of the value at the start of these bytes
    const pointer: Key -> bool   // is this value a pointer
    const inline: Key -> bool    // is the head at the start of these bytes in order, and of no reference
    var boxes: map<nat, Key>     // boxes in use, with all their bytes
    var reserved: nat            // ring entries reserved and not settled
    var retired: seq<nat>        // boxes committed to the ring
    var listGen: nat

    constructor (id: nat, total: Key -> nat, pointer: Key -> bool, inline: Key -> bool)
      ensures Valid() && fresh(pool) && fresh(pool.repr) && Keys() == map[] && this.id == id && this.total == total
      ensures this.pointer == pointer && this.inline == inline
    {
      pool := new ArtPool();
      this.id, this.total, this.pointer, this.inline := id, total, pointer, inline;
      boxes, reserved, retired, listGen := map[], 0, [], 0;
    }

    ghost predicate Valid()
      reads this, pool, pool.repr
    {
      this !in pool.repr && pool.Valid() && AtRest(pool.t) && Named(pool.t) && Sound(Contents(pool.t), boxes, retired)
    }

    ghost function Keys(): map<Key, nat>
      requires Named(pool.t)
      reads this, pool
    {
      Contents(pool.t)
    }

    ghost function Value(key: Key): Option<Key>
      requires Named(pool.t)
      reads this, pool
    {
      ValueOf(Keys(), boxes, total, key)
    }

    /** Write one value: in place when its box is large enough, else into a new box.
        `room` says whether the garbage ring takes a reservation, `spare` what the allocator has. */
    method Set(key: Key, val: Key, reserve: nat, room: bool, spare: Option<Spare>) returns (ok: bool)
      requires Valid() && |key| < KEY_LIMIT && Valued(total, val)
      requires spare.Some? ==> spare.value.off !in boxes && |spare.value.bytes| >= Need(key, |val|, reserve)
      modifies this, pool, pool.repr
      ensures Valid() && Named(old(pool.t)) && reserved == old(reserved)
      ensures Announced(old(pool.t), old(listGen), pool.t, listGen) && Evolves(old(pool.t), pool.t, {})
      ensures listGen == if ok && key !in old(Keys()) then old(listGen) + 1 else old(listGen)
      ensures ok ==> Value(key) == Some(val) && key in Keys()
      ensures !ok ==> Keys() == old(Keys()) && boxes == old(boxes)
      ensures OthersRead(old(Keys()), old(boxes), Keys(), boxes, total, key) && SameSizes(old(boxes), boxes)
      ensures ok <==>
                || Fits(old(Keys()), old(boxes), key, Need(key, |val|, reserve))
                || (spare.Some? && (key in old(Keys()) ==> room))
      ensures retired == if ok && key in old(Keys()) && !Fits(old(Keys()), old(boxes), key, Need(key, |val|, reserve))
                         then old(retired) + [old(Keys())[key]] else old(retired)
    {
      hide Named, Contents, AtRest, Evolves, Sound, OthersRead, SameSizes, ValueOf, Valued, ArtPool.Valid, StatusKey;
      ghost var c := Keys();
      var need := Need(key, |val|, reserve);
      RestNamed(pool.t);
      EvolvesSelf(pool.t);
      Unchanged(c, boxes, total, key);
      var was := Get(pool, key);
      if was.Some? {
        Own(c, boxes, retired, key);
        var box := boxes[was.value];
        if need <= |box| {
          Overwritten(c, boxes, retired, total, key, val, val + box[|val|..]);
          boxes := boxes[was.value := val + box[|val|..]];
          return true;
        }
        if !room {
          return false;
        }
        reserved := reserved + 1;
      }
      if spare.None? {
        if was.Some? {
          reserved := reserved - 1;
        }
        return false;
      }
      var off := spare.value.off;
      var data := val + spare.value.bytes[|val|..];
      Rehoused(c, boxes, retired, total, key, val, data, off);
      boxes := boxes[off := data];
      Bind(pool, key, off);
      RestNamed(pool.t);
      if was.Some? {
        reserved, retired := reserved - 1, retired + [was.value];
      } else {
        listGen := listGen + 1;
      }
      return true;
    }

    /** Delete a key itself, without following links; the list generation is left to the caller. */
    method DelKey(key: Key, room: bool) returns (r: Deleted)
      requires Valid()
      modifies this`reserved, this`retired, pool, pool.repr
      ensures reserved == old(reserved)
      ensures Valid() && pool.repr == old(pool.repr) && Named(old(pool.t)) && Evolves(old(pool.t), pool.t, {})
      ensures r == if key !in old(Keys()) then Missing else if room then Gone else Refused
      ensures Keys() == if r == Gone then old(Keys()) - {key} else old(Keys())
      ensures retired == if r == Gone then old(retired) + [old(Keys())[key]] else old(retired)
    {
      hide Named, Contents, AtRest, Evolves, Sound, ArtPool.Valid;
      ghost var c := Keys();
      RestNamed(pool.t);
      var was := Get(pool, key);
      if was.Some? && room {
        reserved := reserved + 1;
      }
      r := Unbind(pool, key, room);
      RestNamed(pool.t);
      if r == Gone {
        Retired(c, boxes, retired, key);
        reserved, retired := reserved - 1, retired + [was.value];
      }
    }

    method Del(key: Key, room: bool) returns (rc: int)
      requires Valid()
      modifies this`reserved, this`retired, this`listGen, pool, pool.repr
      ensures reserved == old(reserved)
      ensures Valid() && pool.repr == old(pool.repr) && Named(old(pool.t)) && Evolves(old(pool.t), pool.t, {})
      ensures rc == if key in old(Keys()) && room then 0 else -1
      ensures Keys() == if rc == 0 then old(Keys()) - {key} else old(Keys())
      ensures Announced(old(pool.t), old(listGen), pool.t, listGen)
      ensures listGen == if rc == 0 then old(listGen) + 1 else old(listGen)
    {
      hide Named, Contents, AtRest, Evolves, Sound, ArtPool.Valid;
      LiveShort(pool.t, key);
      if |key| >= KEY_LIMIT {
        EvolvesSelf(pool.t);
        return -1;
      }
      var r := DelKey(key, room);
      if r != Gone {
        return -1;
      }
      listGen := listGen + 1;
      return 0;
    }

    method IsPtrKey(key: Key) returns (r: bool)
      requires Valid()
      ensures r == IsPointer(Keys(), boxes, total, pointer, key) == (Value(key).Some? && pointer(Value(key).value))
      ensures r ==> key in Keys()
    {
      hide Named, Contents, AtRest, Sound, ArtPool.Valid;
      RestNamed(pool.t);
      var off := Get(pool, key);
      if off.None? {
        return false;
      }
      Own(Keys(), boxes, retired, key);
      var data := boxes[off.value];
      return total(data) <= |data| && pointer(data[..total(data)]);
    }

    /** Read the word of the node a leaf reference leads to. Directory references, keys without a value and values
        that are references are refused. */
    method ViewFromRef(ref: Ref, epoch: nat, ghost key: Key) returns (tok: Option<View>)
      requires Valid() && (LeafRef(pool.t, ref, key) || ref.gen != 0)
      ensures ref.gen != 0 ==> tok == None
      ensures ref.gen == 0 ==>
                (tok.Some? <==> key in Keys() && Keys()[key] in boxes && boxes[Keys()[key]] != [] &&
                                inline(boxes[Keys()[key]]))
      ensures tok.Some? ==> Checks(pool.t, tok.value, id, epoch)
      ensures tok.Some? ==> tok.value.store == id && tok.value.stamp == epoch
      ensures tok.Some? ==> key in Keys() && tok.value.off == Keys()[key]
      ensures tok.Some? ==> tok.value.node < |pool.t.path| && pool.t.path[tok.value.node] == key
    {
      hide Named, Contents, AtRest, Sound, NodeAt;
      if ref.gen != 0 {
        return None;
      }
      RestNamed(pool.t);
      PoolSizes(pool);
      var node, _ := Follow(pool, ref.block);
      Standing(pool.t, key);
      var h := pool.nodes[node];
      if !h.word.has {
        return None;
      }
      StandingBox(pool.t, boxes, retired, key);
      var data := boxes[h.word.off];
      if data == [] || !inline(data) {
        return None;
      }
      return Some(View(id, node, h.structGen, h.word.off, epoch));
    }

    /** 0 when the token is this handle's and still good. */
    method ViewCheck(tok: View, epoch: nat) returns (r: int)
      requires Valid()
      ensures r == if Checks(pool.t, tok, id, epoch) then 0 else 1
      ensures r == 0 <==>
                && tok.store == id && tok.stamp == epoch && tok.node < |pool.t.nodes|
                && pool.t.nodes[tok.node].gen == tok.structGen && pool.t.nodes[tok.node].word == Word(true, tok.off)
    {
      hide Named, Contents, AtRest, Sound;
      if tok.store != id {
        return 1;
      }
      if tok.stamp != epoch {
        return 1;
      }
      if tok.node >= |pool.nodes| {
        return 1;
      }
      var h := pool.nodes[tok.node];
      if h.structGen != tok.structGen || !h.word.has || h.word.off != tok.off {
        return 1;
      }
      return 0;
    }

    /** Delete through a token: the word goes to zero, the generation stays. */
    method ViewDel(tok: View, epoch: nat, room: bool) returns (r: int)
      requires Valid()
      modifies this`reserved, this`retired, this`listGen, pool, pool.repr
      ensures reserved == old(reserved)
      ensures Valid() && pool.repr == old(pool.repr) && Named(old(pool.t)) && Evolves(old(pool.t), pool.t, {})
      ensures r == if !Checks(old(pool.t), tok, id, epoch) then 1 else if room then 0 else -1
      ensures tok.store != id || tok.stamp != epoch ==> r == 1
      ensures tok.node < |old(pool.t).nodes| && old(pool.t).nodes[tok.node].gen != tok.structGen ==> r == 1
      ensures r == 0 ==> tok.node < |old(pool.t).path| && var key := old(pool.t).path[tok.node];
                && key in old(Keys()) && old(Keys())[key] == tok.off
                && Keys() == old(Keys()) - {key} && retired == old(retired) + [tok.off]
      ensures r != 0 ==> pool.t == old(pool.t) && retired == old(retired) && listGen == old(listGen)
      ensures r == 0 ==> listGen == old(listGen) + 1
      ensures Announced(old(pool.t), old(listGen), pool.t, listGen)
    {
      hide Named, Contents, AtRest, Evolves, Sound, ArtPool.Valid, NodeAt;
      ghost var t, c := pool.t, Keys();
      RestNamed(t);
      EvolvesSelf(t);
      r := ViewCheck(tok, epoch);
      if r != 0 {
        return;
      }
      if !room {
        return -1;
      }
      reserved := reserved + 1;
      ghost var key := NodeKey(t, tok, id, epoch);
      WordCleared(t, key);
      PoolSizes(pool);
      InRepr(pool, tok.node);
      pool.SetWord(tok.node, EMPTY_WORD);
      RestNamed(pool.t);
      Retired(c, boxes, retired, key);
      reserved, retired, listGen := reserved - 1, retired + [tok.off], listGen + 1;
    }

    /** Delete everything under prefix; `room` says for which keys the garbage ring takes the box. */
    method Deltree(prefix: Key, room: Key -> bool) returns (rc: int)
      requires Valid()
      modifies this`reserved, this`retired, this`listGen, pool, pool.repr
      ensures reserved == old(reserved)
      ensures Valid() && pool.repr == old(pool.repr) && Named(old(pool.t)) && Evolves(old(pool.t), pool.t, {})
      ensures Announced(old(pool.t), old(listGen), pool.t, listGen)
      ensures !Deletable(prefix) ==> rc == -1 && Keys() == old(Keys())
      ensures Deletable(prefix) && !Linked(old(Keys()), old(boxes), total, pointer, prefix) ==>
                && Keys() == Spared(old(Keys()), Trunk(prefix), room)
                && listGen == (if Keys() == old(Keys()) then old(listGen) else old(listGen) + 1)
                && (rc == 0 <==> forall k :: k in old(Keys()) && Doomed(Trunk(prefix), k) ==> room(k))
      ensures Deletable(prefix) && !Linked(old(Keys()), old(boxes), total, pointer, prefix) ==>
                SubtreeGone(old(Keys()), Keys(), prefix, room)
      ensures Deletable(prefix) && prefix != [] && old(Value(prefix)).Some? && pointer(old(Value(prefix)).value) ==>
                Keys() == (if room(prefix) then old(Keys()) - {prefix} else old(Keys()))
      ensures Deletable(prefix) && Linked(old(Keys()), old(boxes), total, pointer, prefix) ==>
                var direct := prefix != [] && IsPointer(old(Keys()), old(boxes), total, pointer, prefix);
                && Keys() == Unlinked(old(Keys()), if direct then {prefix} else {prefix, Trunk(prefix)}, room)
                && (rc == 0 <==> room(if direct then prefix else Trunk(prefix)))
      ensures -1 <= rc <= 0
    {
      hide Named, Contents, AtRest, Evolves, Sound, ArtPool.Valid, IsPointer, SubtreeKey, ReservedMeta, Spared,
        SparedOf, Doomed, SubtreeGone, ValueOf;
      RestNamed(pool.t);
      EvolvesSelf(pool.t);
      ghost var t0, c := pool.t, Keys();
      SparedGone(c, prefix, room);
      if ReservedMeta(prefix) || |prefix| >= KEY_LIMIT {
        return -1;
      }
      var base := Trunk(prefix);
      if base != [] && ReservedMeta(base) {
        return -1;
      }
      var link := IsPtrKey(prefix);
      if prefix != [] && link {
        rc := Del(prefix, room(prefix));
        return;
      }
      link := IsPtrKey(base);
      if base != [] && base != prefix && link {
        rc := Del(base, room(base));
        ghost var t1 := pool.t;
        var companion := Del(prefix, room(prefix));
        EvolvesThen(t0, t1, pool.t);
        return;
      }
      rc := DelBelow(base, room);
    }

    /** Delete what lies in the subtree of base, whatever it is. */
    method DelBelow(base: Key, room: Key -> bool) returns (rc: int)
      requires Valid() && |base| < KEY_LIMIT
      modifies this`reserved, this`retired, this`listGen, pool, pool.repr
      ensures reserved == old(reserved)
      ensures Valid() && pool.repr == old(pool.repr) && Named(old(pool.t)) && Evolves(old(pool.t), pool.t, {})
      ensures Announced(old(pool.t), old(listGen), pool.t, listGen)
      ensures Keys() == Spared(old(Keys()), base, room)
      ensures listGen == (if Keys() == old(Keys()) then old(listGen) else old(listGen) + 1)
      ensures -1 <= rc <= 0 && (rc == 0 <==> forall k :: k in old(Keys()) && Doomed(base, k) ==> room(k))
    {
      hide Named, Contents, AtRest, Evolves, Sound, ArtPool.Valid, SubtreeKey, ReservedMeta, Spared, SparedOf, Doomed;
      RestNamed(pool.t);
      ghost var c := Keys();
      var from := if base != [] then base else [SLASH];
      var ok, keys := ScanKeys(pool, from);
      if !ok {
        return -1;
      }
      Swept(c, base, room, keys);
      var any;
      rc, any := DeleteKeys(keys, base, room);
      if any {
        listGen := listGen + 1;
      }
    }

    /** Delete those of the keys that belong to the subtree of base; `any` says whether one was there. */
    method DeleteKeys(keys: seq<Key>, base: Key, room: Key -> bool) returns (rc: int, any: bool)
      requires Valid() && forall k :: k in keys ==> k in Keys()
      modifies this`reserved, this`retired, pool, pool.repr
      ensures reserved == old(reserved)
      ensures Valid() && pool.repr == old(pool.repr) && Named(old(pool.t)) && Evolves(old(pool.t), pool.t, {})
      ensures Keys() == SparedOf(old(Keys()), base, room, keys)
      ensures -1 <= rc <= 0 && (rc == 0 <==> forall k :: k in keys && Doomed(base, k) ==> room(k))
      ensures any <==> Keys() != old(Keys())
    {
      hide Named, Contents, AtRest, Evolves, Sound, ArtPool.Valid, SubtreeKey, ReservedMeta, SparedOf;
      RestNamed(pool.t);
      EvolvesSelf(pool.t);
      ghost var t0, c := pool.t, Keys();
      rc, any := 0, false;
      SparedNone(c, base, room, keys);
      for i := 0 to |keys|
        invariant Valid() && pool.repr == old(pool.repr) && Evolves(t0, pool.t, {}) && reserved == old(reserved)
        invariant Keys() == SparedOf(c, base, room, keys[..i])
        invariant -1 <= rc <= 0 && (rc == 0 <==> forall j :: 0 <= j < i && Doomed(base, keys[j]) ==> room(keys[j]))
        invariant any <==> Keys() != c
      {
        SparedNext(c, base, room, keys, i);
        var k := keys[i];
        LiveShortIn(t0, k);
        if SubtreeKey(base, k) && !ReservedMeta(k) && |k| < KEY_LIMIT {
          ghost var t1, was := pool.t, Keys();
          var d := DelKey(k, room(k));
          EvolvesThen(t0, t1, pool.t);
          if d == Refused {
            rc := -1;
          } else if d == Gone {
            any := true;
            assert k in c && k !in Keys();
          } else {
            assert was - {k} == was;
          }
        }
      }
      assert keys[..|keys|] == keys;
    }
  }

  ghost predicate IsPointer(c: map<Key, nat>, boxes: map<nat, Key>, total: Key -> nat, pointer: Key -> bool, key: Key) {
    ValueOf(c, boxes, total, key).Some? && pointer(ValueOf(c, boxes, total, key).value)
  }

  predicate Deletable(prefix: Key) {
    !ReservedMeta(prefix) && |prefix| < KEY_LIMIT && (Trunk(prefix) != [] ==> !ReservedMeta(Trunk(prefix)))
  }

  /** The prefix, or what is left of it without its last separator, is a pointer. */
  ghost predicate Linked(c: map<Key, nat>, boxes: map<nat, Key>, total: Key -> nat, pointer: Key -> bool, prefix: Key) {
    || (prefix != [] && IsPointer(c, boxes, total, pointer, prefix))
    || (Trunk(prefix) != [] && Trunk(prefix) != prefix && IsPointer(c, boxes, total, pointer, Trunk(prefix)))
  }

  /** A directory is reached through a pointer when the value of the prefix is one, or that of the directory it
      denotes. */
  lemma LinkedSpelled(c: map<Key, nat>, boxes: map<nat, Key>, total: Key -> nat, pointer: Key -> bool, prefix: Key,
      base: Key)
    requires Denotes(prefix, base) && base != []
    ensures var a, b := ValueOf(c, boxes, total, prefix), ValueOf(c, boxes, total, base);
            && (IsPointer(c, boxes, total, pointer, prefix) <==> a.Some? && pointer(a.value))
            && (Linked(c, boxes, total, pointer, prefix) <==>
                  (a.Some? && pointer(a.value)) || (b.Some? && pointer(b.value)))
  {
    hide ValueOf, Trunk;
    TrunkSpelled(base);
  }

  ghost function Unlinked(c: map<Key, nat>, keys: set<Key>, room: Key -> bool): map<Key, nat> {
    map k | k in c && !(k in keys && room(k)) :: c[k]
  }

  predicate Doomed(base: Key, k: Key) {
    SubtreeKey(base, k) && !ReservedMeta(k)
  }

  ghost function Spared(c: map<Key, nat>, base: Key, room: Key -> bool): map<Key, nat> {
    map k | k in c && !(Doomed(base, k) && room(k)) :: c[k]
  }

  ghost function SparedOf(c: map<Key, nat>, base: Key, room: Key -> bool, keys: seq<Key>): map<Key, nat> {
    map k | k in c && !(Doomed(base, k) && room(k) && k in keys) :: c[k]
  }

  /** A view token: the handle it was made for, a node, its generation, the box its word named, and the recovery
      epoch. */
  datatype View = View(store: nat, node: nat, structGen: nat, off: nat, stamp: nat)

  predicate Checks(t: Tree, tok: View, id: nat, epoch: nat) {
    tok.store == id && tok.stamp == epoch && tok.node < |t.nodes| && t.nodes[tok.node].gen == tok.structGen &&
        t.nodes[tok.node].word.has && t.nodes[tok.node].word.off == tok.off
  }

  lemma Standing(t: Tree, key: Key)
    requires Inv(t, map[]) && key in t.at
    ensures Named(t) && 0 <= t.at[key] < |t.nodes| == |t.path| && t.path[t.at[key]] == key
    ensures key in Contents(t) <==> t.nodes[t.at[key]].word.has
  {
    hide Forwards, Down, Up;
  }

  /** A standing key with a value has its box. */
  lemma StandingBox(t: Tree, boxes: map<nat, Key>, retired: seq<nat>, key: Key)
    requires Inv(t, map[]) && Named(t) && Sound(Contents(t), boxes, retired)
    requires key in t.at && 0 <= t.at[key] < |t.nodes| && t.nodes[t.at[key]].word.has
    ensures key in Contents(t) && Contents(t)[key] == t.nodes[t.at[key]].word.off && Contents(t)[key] in boxes
  {
    hide Inv;
  }

  /** The key whose node a good token names. */
  lemma NodeKey(t: Tree, tok: View, id: nat, epoch: nat) returns (key: Key)
    requires Inv(t, map[]) && Checks(t, tok, id, epoch)
    ensures Named(t) && tok.node < |t.path| && key == t.path[tok.node] && key in t.at && t.at[key] == tok.node
    ensures key in Contents(t) && Contents(t)[key] == tok.off
  {
    hide Down, Up;
    key := t.path[tok.node];
  }

  lemma WordCleared(t: Tree, key: Key)
    requires AtRest(t) && key in t.at
    ensures Named(t) && 0 <= t.at[key] < |t.nodes|
    ensures var t' := t.(nodes := t.nodes[t.at[key] := t.nodes[t.at[key]].(word := EMPTY_WORD)]);
            Named(t') && AtRest(t') && Contents(t') == Contents(t) - {key} && Evolves(t, t', {})
  {
    hide Forwards, Down, Up, Base, Target;
    RestNamed(t);
    var n := NodeAt(t, key).(word := EMPTY_WORD);
    NodeChanged(t, map[], key, n);
    ChangedContents(t, key, n);
  }

  lemma Retired(c: map<Key, nat>, boxes: map<nat, Key>, retired: seq<nat>, key: Key)
    requires Sound(c, boxes, retired) && key in c
    ensures Sound(c - {key}, boxes, retired + [c[key]])
  {
  }

  lemma LiveShort(t: Tree, key: Key)
    requires AtRest(t) && Named(t)
    ensures Inv(t, map[]) && (key in Contents(t) ==> |key| < KEY_LIMIT)
  {
    hide Inv, Named;
  }

  lemma SparedNone(c: map<Key, nat>, base: Key, room: Key -> bool, keys: seq<Key>)
    ensures SparedOf(c, base, room, keys[..0]) == c
  {
  }

  /** A scan from the trunk meets every doomed key. */
  lemma Swept(c: map<Key, nat>, base: Key, room: Key -> bool, keys: seq<Key>)
    requires forall k :: k in keys <==> (if base != [] then base else [SLASH]) <= k && k in c
    ensures SparedOf(c, base, room, keys) == Spared(c, base, room)
    ensures forall k :: k in c && Doomed(base, k) ==> k in keys
  {
  }

  lemma LiveShortIn(t: Tree, key: Key)
    requires AtRest(t) && Named(t) && key in Contents(t)
    ensures |key| < KEY_LIMIT
  {
    LiveShort(t, key);
  }

  lemma SparedNext(c: map<Key, nat>, base: Key, room: Key -> bool, keys: seq<Key>, i: nat)
    requires i < |keys|
    ensures var was, now, k := SparedOf(c, base, room, keys[..i]), SparedOf(c, base, room, keys[..i + 1]), keys[i];
            now == (if Doomed(base, k) && room(k) then was - {k} else was) && (k in c && !room(k) ==> k in was)
  {
    hide Doomed;
    assert keys[..i + 1] == keys[..i] + [keys[i]];
  }

  lemma EvolvesThen(a: Tree, b: Tree, c: Tree)
    requires Evolves(a, b, {}) && Evolves(b, c, {})
    ensures Evolves(a, c, {})
  {
    forall i | 0 <= i < |a.nodes|
      ensures c.nodes[i].gen >= a.nodes[i].gen
      ensures c.nodes[i].gen == a.nodes[i].gen ==> c.nodes[i].word == a.nodes[i].word || !c.nodes[i].word.has
    {
      assert b.nodes[i].gen >= a.nodes[i].gen;
    }
  }

  /** Deleting the subtree of the empty prefix, or of a lone U+00B7, deletes what is under "/". */
  lemma EmptyTrunk(prefix: Key, k: Key)
    requires prefix == [] || prefix == [DOT0, DOT1] || prefix == [SLASH]
    ensures Trunk(prefix) == [] && Deletable(prefix)
    ensures Doomed(Trunk(prefix), k) <==> k != [] && k[0] == SLASH && !ReservedMeta(k)
  {
  }

  /** A token that was good once and is good again named one box all along: no box has come and gone in between. */
  lemma GoodTokensKeep(run: seq<Tree>, tok: View, id: nat, e0: nat, e1: nat, i: nat)
    requires i < |run| && Checks(run[0], tok, id, e0) && Checks(run[|run| - 1], tok, id, e1)
    requires forall j :: 0 <= j < |run| - 1 ==> Evolves(run[j], run[j + 1], {})
    ensures tok.node < |run[i].nodes| && run[i].nodes[tok.node].word == Word(true, tok.off)
  {
    hide Evolves;
    TokensCatchChange(run, tok.node, Word(true, tok.off));
  }
}
