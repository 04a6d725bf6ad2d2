/** What a writer can always do: with an entry of the ring to spare it can delete a key, or move it to another box. */
module ReclaimRetire {
  import opened Bytes
  import opened Reclaim
  import opened ReclaimInv
  import opened ReclaimSteps
  import opened ReclaimSafety
  import opened ReclaimProgress

  /** Only client c writes, and the ring has changed at index i at most. */
  ghost predicate WroteAt(s: State, n: State, c: Claim, i: nat) {
    && c in s.clients && n.clients.Keys == s.clients.Keys && n.head == s.head && n.epoch == s.epoch
    && n.slots == s.slots && (forall d :: d in s.clients && d != c ==> n.clients[d] == s.clients[d])
    && n.clients[c] == s.clients[c].(write := n.clients[c].write)
    && |n.ring| == |s.ring| > 0
    && forall j {:trigger At(n.ring, j)} :: s.head <= j < s.head + |s.ring| && j != i ==> At(n.ring, j) == At(s.ring, j)
  }

  lemma WroteThen(s: State, m: State, n: State, c: Claim, i: nat)
    requires WroteAt(s, m, c, i) && WroteAt(m, n, c, i)
    ensures WroteAt(s, n, c, i)
  {
    hide At;
  }

  lemma WroteActs(s: State, n: State, c: Claim, i: nat)
    requires WroteAt(s, n, c, i) && Acting(s, c)
    ensures Acting(n, c)
  {
  }

  lemma WriteOne(s: State, c: Claim, w: WriteOp, i: nat)
    requires Writers(s) && RingShape(s.ring, s.head, s.tail) && CanWrite(s, c, w)
    requires if w.Recover? || w.Mark? then i == s.tail else i + 1 == s.tail || !(w.Cancel? || w.Stamp? || w.Commit?)
    ensures WroteAt(s, Write(s, c, w), c, i) && Plays(s, [Writes(c, w)], Write(s, c, w))
  {
    hide At, Put, Write, ClaimAlive, SoleWriter, RingShape, Writers, WriteOk, Plays;
    GoodBounds(s);
    WriteFrame(s, c, w);
    WriteRing(s, c, w);
    PlaysOne(s, Writes(c, w));
  }

  lemma GoodBounds(s: State)
    requires RingShape(s.ring, s.head, s.tail)
    ensures |s.ring| > 0 && s.head <= s.tail <= s.head + |s.ring|
  {
  }

  /** With a free entry and nobody else writing, a writer gets its reservation. */
  lemma GetsEntry(s: State, c: Claim) returns (steps: seq<Step>, n: State)
    requires Good(s) && Acting(s, c) && (forall d :: !IsWriting(s, d)) && |s.ring| > 0 && s.tail < s.head + |s.ring|
    ensures Plays(s, steps, n) && WroteAt(s, n, c, s.tail) && n.links == s.links && n.place == s.place
    ensures n.tail == s.tail + 1 && n.clients[c].write == Holding(s.tail)
  {
    hide Plays, Good, WroteAt, At, Put, Write;
    var a, m := LooksAround(s, c);
    PlaysGood(s, a, m);
    GoodWriters(m);
    WroteActs(s, m, c, s.tail);
    WroteClient(s, m, c, s.tail);
    assert CanWrite(m, c, Mark);
    WriteOne(m, c, Mark, s.tail);
    MarkGoes(m, c);
    var k := Write(m, c, Mark);
    PlaysGood(m, [Writes(c, Mark)], k);
    GoodWriters(k);
    WroteActs(m, k, c, s.tail);
    assert CanWrite(k, c, Publish);
    WriteOne(k, c, Publish, s.tail);
    n := Write(k, c, Publish);
    PublishGoes(k, c);
    PlaysThen(s, a, m, [Writes(c, Mark)], k);
    PlaysThen(s, a + [Writes(c, Mark)], k, [Writes(c, Publish)], n);
    WroteThen(s, m, k, c, s.tail);
    WroteThen(s, k, n, c, s.tail);
    WroteClient(s, n, c, s.tail);
    steps := a + [Writes(c, Mark)] + [Writes(c, Publish)];
  }

  lemma WroteClient(s: State, n: State, c: Claim, i: nat)
    requires WroteAt(s, n, c, i)
    ensures c in s.clients && c in n.clients && n.head == s.head && |n.ring| == |s.ring| > 0 && n.epoch == s.epoch
  {
    hide At;
  }

  lemma GoodWriters(s: State)
    requires Good(s)
    ensures |s.ring| > 0 && Writers(s) && RingShape(s.ring, s.head, s.tail)
  {
    hide Registered, Election, Rounds, InOrder, Drains, Reservations, Links, Retires, Owns, Tokens, SlotsOwned,
      WordHeld, Writers, RingShape;
  }

  lemma MarkGoes(s: State, c: Claim)
    requires |s.ring| > 0 && CanWrite(s, c, Mark)
    ensures var n := Write(s, c, Mark);
            c in n.clients && n.clients[c].write == Marked && n.links == s.links && n.place == s.place &&
                n.tail == s.tail
  {
    hide At, Put;
  }

  lemma PublishGoes(s: State, c: Claim)
    requires |s.ring| > 0 && CanWrite(s, c, Publish)
    ensures var n := Write(s, c, Publish);
            && c in n.clients && n.clients[c].write == Holding(s.tail) && n.links == s.links && n.place == s.place
            && n.tail == s.tail + 1
  {
    hide At, Put;
  }

  /** It looks at the head; what a dead writer left at the tail it clears away. */
  lemma LooksAround(s: State, c: Claim) returns (steps: seq<Step>, n: State)
    requires Good(s) && Acting(s, c) && (forall d :: !IsWriting(s, d)) && |s.ring| > 0 && s.tail < s.head + |s.ring|
    ensures Plays(s, steps, n) && WroteAt(s, n, c, s.tail) && n.links == s.links && n.place == s.place
    ensures n.tail == s.tail && n.clients[c].write == Looked(s.head) && At(n.ring, s.tail).meta == Empty
  {
    hide Plays, Good, WroteAt, At, Put, RingShape;
    GoodWriters(s);
    NobodyWrites(s, c);
    var m := Write(s, c, Look);
    WriteOne(s, c, Look, s.tail);
    steps, n := [Writes(c, Look)], m;
    TailEmpty(s);
    if At(s.ring, s.tail).meta != Empty {
      SameAlive(s, m, At(s.ring, s.tail).meta.claim);
      assert CanWrite(m, c, Recover);
      PlaysGood(s, [Writes(c, Look)], m);
      GoodWriters(m);
      WriteOne(m, c, Recover, s.tail);
      n := Write(m, c, Recover);
      PutAt(m.ring, m.tail, At(m.ring, m.tail).(meta := Empty), m.head);
      PlaysThen(s, [Writes(c, Look)], m, [Writes(c, Recover)], n);
      WroteThen(s, m, n, c, s.tail);
      steps := [Writes(c, Look)] + [Writes(c, Recover)];
    }
  }

  lemma NobodyWrites(s: State, c: Claim)
    requires |s.ring| > 0 && Acting(s, c) && forall d :: !IsWriting(s, d)
    ensures CanWrite(s, c, Look)
  {
    hide At;
    assert !IsWriting(s, c);
    forall d | d in s.clients && d != c && s.clients[d].alive ensures s.clients[d].write == Resting {
      assert !IsWriting(s, d);
    }
  }

  /** The entry at the tail is empty, or left reserved by a dead writer. */
  lemma TailEmpty(s: State)
    requires Good(s) && (forall d :: !IsWriting(s, d)) && |s.ring| > 0 && s.tail < s.head + |s.ring|
    ensures var m := At(s.ring, s.tail).meta; m == Empty || (m.Reserved? && !ClaimAlive(s, m.claim))
    ensures s.head <= s.tail
  {
    hide Rounds, InOrder, Writers, Drains, Links, Retires, Owns, Tokens, SlotsOwned, WordHeld, Election, At, Registered;
    var m := At(s.ring, s.tail).meta;
    if m.Reserved? {
      assert Reserves(s, m.claim, s.tail) && !IsWriting(s, m.claim);
    }
  }

  /** A writer whose box has been taken out of the tree puts it into the ring, stamped with the epoch. */
  lemma Commits(s: State, c: Claim) returns (steps: seq<Step>, n: State)
    requires Good(s) && Acting(s, c) && s.clients[c].write.Detached? && |s.ring| > 0
    ensures var x := s.clients[c].write;
            && Plays(s, steps, n) && WroteAt(s, n, c, x.idx) && n.links == s.links && n.tail == s.tail
            && At(n.ring, x.idx) == Entry(Committed(c), x.box, s.epoch) && n.clients[c].write == Resting
  {
    hide Plays, Good, WroteAt, At, Put, ClaimAlive, SoleWriter, RingShape;
    GoodWriters(s);
    GoodBounds(s);
    var x := s.clients[c].write;
    assert WriteOk(c, x, s.ring, s.head, s.tail, s.epoch);
    var m := Write(s, c, Stamp);
    WriteOne(s, c, Stamp, x.idx);
    WriteRing(s, c, Stamp);
    PlaysGood(s, [Writes(c, Stamp)], m);
    GoodWriters(m);
    WroteActs(s, m, c, x.idx);
    n := Write(m, c, Commit);
    WriteOne(m, c, Commit, x.idx);
    WriteRing(m, c, Commit);
    PlaysThen(s, [Writes(c, Stamp)], m, [Writes(c, Commit)], n);
    WroteThen(s, m, n, c, x.idx);
    steps := [Writes(c, Stamp)] + [Writes(c, Commit)];
  }

  /** Deleting a key when the ring has an entry to spare: its box goes to the tail of the ring with today's stamp, and
      nothing else changes. */
  lemma KeyCanGo(s: State, c: Claim, key: nat) returns (steps: seq<Step>, n: State)
    requires Good(s) && Acting(s, c) && (forall d :: !IsWriting(s, d)) && |s.ring| > 0 && s.tail < s.head + |s.ring|
    requires key in s.links
    ensures Plays(s, steps, n) && WroteAt(s, n, c, s.tail) && n.links == s.links - {key} && n.tail == s.tail + 1
    ensures At(n.ring, s.tail) == Entry(Committed(c), s.links[key], s.epoch) && n.clients[c].write == Resting
  {
    hide Plays, Good, WroteAt, At, Put, RingShape;
    var a, m := GetsEntry(s, c);
    PlaysGood(s, a, m);
    GoodWriters(m);
    WroteActs(s, m, c, s.tail);
    WroteClient(s, m, c, s.tail);
    var k := Write(m, c, Unlink(key));
    WriteOne(m, c, Unlink(key), s.tail);
    PlaysGood(m, [Writes(c, Unlink(key))], k);
    WroteActs(m, k, c, s.tail);
    WroteClient(m, k, c, s.tail);
    var b, l := Commits(k, c);
    PlaysThen(s, a, m, [Writes(c, Unlink(key))], k);
    PlaysThen(s, a + [Writes(c, Unlink(key))], k, b, l);
    WroteThen(s, m, k, c, s.tail);
    WroteThen(s, k, l, c, s.tail);
    steps, n := a + [Writes(c, Unlink(key))] + b, l;
  }

  /** Moving a key to a free box likewise retires its old one. */
  lemma KeyCanMove(s: State, c: Claim, key: nat, box: nat) returns (steps: seq<Step>, n: State)
    requires Good(s) && Acting(s, c) && (forall d :: !IsWriting(s, d)) && |s.ring| > 0 && s.tail < s.head + |s.ring|
    requires key in s.links && IsFree(s, box)
    ensures Plays(s, steps, n) && WroteAt(s, n, c, s.tail) && n.links == s.links[key := box] && n.tail == s.tail + 1
    ensures At(n.ring, s.tail) == Entry(Committed(c), s.links[key], s.epoch) && n.clients[c].write == Resting
  {
    hide Plays, Good, WroteAt, At, Put, RingShape;
    var a, m := GetsEntry(s, c);
    PlaysGood(s, a, m);
    GoodWriters(m);
    WroteActs(s, m, c, s.tail);
    WroteClient(s, m, c, s.tail);
    var x := Write(m, c, Alloc(box));
    WriteOne(m, c, Alloc(box), s.tail);
    PlaysGood(m, [Writes(c, Alloc(box))], x);
    GoodWriters(x);
    WroteActs(m, x, c, s.tail);
    WroteClient(m, x, c, s.tail);
    var k := Write(x, c, Replace(key));
    WriteOne(x, c, Replace(key), s.tail);
    PlaysGood(x, [Writes(c, Replace(key))], k);
    WroteActs(x, k, c, s.tail);
    WroteClient(x, k, c, s.tail);
    var b, l := Commits(k, c);
    PlaysThen(s, a, m, [Writes(c, Alloc(box))], x);
    PlaysThen(s, a + [Writes(c, Alloc(box))], x, [Writes(c, Replace(key))], k);
    PlaysThen(s, a + [Writes(c, Alloc(box))] + [Writes(c, Replace(key))], k, b, l);
    WroteThen(s, m, x, c, s.tail);
    WroteThen(s, x, k, c, s.tail);
    WroteThen(s, k, l, c, s.tail);
    steps, n := a + [Writes(c, Alloc(box))] + [Writes(c, Replace(key))] + b, l;
  }
}
