/** Every step keeps the invariant. */
module ReclaimSteps {
  import opened Reclaim
  import opened ReclaimInv

  lemma Apart(i: nat, j: nat, n: nat)
    requires i < j < i + n
    ensures i % n != j % n
  {
    var a, b := i / n, j / n;
    assert i == n * a + i % n && j == n * b + j % n;
    if i % n == j % n {
      assert j - i == n * (b - a);
      Multiple(n, b - a);
    }
  }

  lemma Multiple(n: nat, q: int)
    requires 0 - n < n * q < n
    ensures q == 0
  {
    assert q >= 1 ==> n * (q - 1) >= 0;
    assert q <= -1 ==> n * (-1 - q) >= 0;
  }

  /** Writing one ring entry leaves the others of the window alone. */
  lemma PutAt(ring: seq<Entry>, i: nat, e: Entry, lo: nat)
    requires |ring| > 0 && lo <= i < lo + |ring|
    ensures At(Put(ring, i, e), i) == e
    ensures forall j {:trigger At(Put(ring, i, e), j)} :: lo <= j < lo + |ring| && j != i ==>
      At(Put(ring, i, e), j) == At(ring, j)
  {
    forall j | lo <= j < lo + |ring| && j != i ensures At(Put(ring, i, e), j) == At(ring, j) {
      if i < j {
        Apart(i, j, |ring|);
      } else {
        Apart(j, i, |ring|);
      }
    }
  }

  /** One entry of the window that starts at lo is now e. */
  ghost predicate Changed(a: seq<Entry>, b: seq<Entry>, lo: nat, i: nat, e: Entry) {
    && |b| == |a| > 0 && lo <= i < lo + |a| && At(b, i) == e
    && forall j {:trigger At(b, j)} :: lo <= j < lo + |a| && j != i ==> At(b, j) == At(a, j)
  }

  lemma WriteRing(s: State, c: Claim, w: WriteOp)
    requires Writers(s) && s.head <= s.tail <= s.head + |s.ring| && CanWrite(s, c, w)
    ensures var a, b, t := s.ring, Write(s, c, w).ring, s.tail;
            && |b| == |a|
            && match w
               case Recover => Changed(a, b, s.head, t, At(a, t).(meta := Empty))
               case Mark => Changed(a, b, s.head, t, At(a, t).(meta := Reserved(c)))
               case Cancel => t > 0 && Changed(a, b, s.head, t - 1, At(a, t - 1).(meta := Empty))
               case Stamp => t > 0 && Changed(a, b, s.head, t - 1,
                   At(a, t - 1).(off := s.clients[c].write.box, epoch := s.epoch))
               case Commit => t > 0 && Changed(a, b, s.head, t - 1, At(a, t - 1).(meta := Committed(c)))
               case _ => b == a
  {
    hide At, Put, OneWriter;
    var n := Write(s, c, w);
    assert WriteOk(c, s.clients[c].write, s.ring, s.head, s.tail, s.epoch);
    if w.Recover? || w.Mark? {
      PutAt(s.ring, s.tail, At(s.ring, s.tail).(meta := if w.Mark? then Reserved(c) else Empty), s.head);
    } else if w.Cancel? {
      PutAt(s.ring, s.tail - 1, At(s.ring, s.tail - 1).(meta := Empty), s.head);
    } else if w.Commit? {
      PutAt(s.ring, s.tail - 1, At(s.ring, s.tail - 1).(meta := Committed(c)), s.head);
    } else if w.Stamp? {
      PutAt(s.ring, s.tail - 1, At(s.ring, s.tail - 1).(off := s.clients[c].write.box, epoch := s.epoch), s.head);
    }
  }

  lemma LeadRing(s: State, p: nat, l: LeadOp)
    requires Drains(s) && s.head <= s.tail <= s.head + |s.ring| && CanLead(s, p, l)
    ensures var a, b := s.ring, Lead(s, p, l).ring;
            if l.SkipDead? || l.Take?
            then s.head < s.tail && Changed(a, b, s.head, s.head, At(a, s.head).(meta := Empty))
            else b == a
  {
    hide At, Put;
    assert Live(s, p) && DrainOk(s.threads[p].lead, s.ring, s.head, s.tail);
    if l.SkipDead? || l.Take? {
      PutAt(s.ring, s.head, At(s.ring, s.head).(meta := Empty), s.head);
    }
  }

  /** What a leader's step leaves alone. */
  lemma LeadFrame(s: State, p: nat, l: LeadOp)
    requires |s.ring| > 0 && CanLead(s, p, l)
    ensures var n, x := Lead(s, p, l), s.threads[p];
            && |n.ring| == |s.ring| && n.clients == s.clients && n.slots == s.slots &&
                n.links == s.links && n.tail == s.tail && n.claims == s.claims
            && p in n.threads && n.threads == s.threads[p := x.(lead := n.threads[p].lead)]
            && n.barrier == (if l.Win? then x.claim
                             else if l.Release? && s.barrier == x.claim then 0 else s.barrier)
  {
    hide At, Put, ClaimAlive, Passes, Stops, Due;
  }

  /** What becomes of the epoch, the head of the ring and the boxes. */
  lemma LeadEffect(s: State, p: nat, l: LeadOp)
    requires |s.ring| > 0 && CanLead(s, p, l)
    ensures var n, x := Lead(s, p, l), s.threads[p];
            && n.epoch == (if l.Bump? then s.epoch + 1 else s.epoch)
            && n.head == (if l.Advance? || l.Behead? then x.lead.at + 1 else s.head)
            && n.place == (if l.Take? then s.place[At(s.ring, x.lead.at).off := Taken]
                           else if l.FreeBox? then s.place[x.lead.box := Free] else s.place)
  {
    hide At, Put, ClaimAlive, Passes, Stops, Due;
  }

  /** Index i + |ring| is the same physical entry as i. */
  lemma Wrap(ring: seq<Entry>, i: nat)
    requires |ring| > 0
    ensures At(ring, i + |ring|) == At(ring, i)
  {
    var n := |ring|;
    var a, b := i / n, (i + n) / n;
    assert i == n * a + i % n && i + n == n * b + (i + n) % n;
    assert n * (b - a - 1) == i % n - (i + n) % n;
    Multiple(n, b - a - 1);
  }

  /** A claim whose handle was open is alive by the registry exactly when its process lives. */
  lemma AliveByRegistry(s: State, c: Claim)
    requires Registered(s) && c in s.clients && s.clients[c].stage == Open
    ensures ClaimAlive(s, c) <==> s.clients[c].alive
  {
    assert ClientOk(c, s.clients[c], s.slots, s.epoch, s.claims);
  }

  /** While one client writes, every other live one rests. */
  lemma OthersRest(s: State, c: Claim, w: WriteOp)
    requires Writers(s) && CanWrite(s, c, w)
    ensures forall d :: d in s.clients && d != c && s.clients[d].alive ==> s.clients[d].write == Resting
  {
    hide At, WriteOk;
    forall d | d in s.clients && d != c && s.clients[d].alive ensures s.clients[d].write == Resting {
      assert IsWriting(s, c) && IsWriting(s, d) ==> c == d;
    }
  }

  /** While one live thread is in its round, no other is. */
  lemma OnlyLeader(s: State, p: nat)
    requires Election(s) && InRound(s, p)
    ensures forall q :: Live(s, q) && q != p ==> !IsLeading(s.threads[q].lead)
  {
    forall q | Live(s, q) && q != p ensures !IsLeading(s.threads[q].lead) {
      assert InRound(s, p) && InRound(s, q) ==> p == q;
    }
  }

  lemma WriterAlive(s: State, c: Claim)
    requires Registered(s) && IsWriting(s, c)
    ensures ClaimAlive(s, c)
  {
    assert ClientOk(c, s.clients[c], s.slots, s.epoch, s.claims);
    AliveByRegistry(s, c);
  }

  /** A slot that passes in the current round holds no client with an older token. */
  lemma PassClears(s: State, i: nat, dead: set<nat>)
    requires Registered(s) && i < |s.slots| && Passes(s, i, s.epoch, dead)
    ensures i in dead || forall d :: d in s.clients && s.clients[d].alive && s.clients[d].slot == i ==>
      Since(s.clients[d].tokens, s.epoch)
  {
    forall d | d in s.clients && s.clients[d].alive && s.clients[d].slot == i && i !in dead
        ensures Since(s.clients[d].tokens, s.epoch) {
      assert ClientOk(d, s.clients[d], s.slots, s.epoch, s.claims);
    }
  }

  lemma DeadOwner(s: State, i: nat)
    requires Registered(s) && i < |s.slots| && (s.slots[i].owner !in s.clients || !s.clients[s.slots[i].owner].alive)
    ensures forall d :: d in s.clients && s.clients[d].alive ==> s.clients[d].slot != i
  {
    forall d | d in s.clients && s.clients[d].alive ensures s.clients[d].slot != i {
      assert ClientOk(d, s.clients[d], s.slots, s.epoch, s.claims);
    }
  }

  lemma SlotsBound(s: State)
    requires Registered(s)
    ensures forall d :: d in s.clients ==> s.clients[d].slot < |s.slots|
  {
    forall d | d in s.clients ensures s.clients[d].slot < |s.slots| {
      assert ClientOk(d, s.clients[d], s.slots, s.epoch, s.claims);
    }
  }

  /** Nobody is not a client, and an owner that the registry does not show alive is dead. */
  lemma OwnerGone(s: State, x: Claim)
    requires Registered(s) && WasOpen(s, x)
    ensures 0 !in s.clients && s.claims + 1 !in s.clients
    ensures x != 0 && !ClaimAlive(s, x) ==> !s.clients[x].alive
  {
    forall c | c in s.clients ensures 1 <= c <= s.claims {
      assert ClientOk(c, s.clients[c], s.slots, s.epoch, s.claims);
    }
    if x != 0 {
      AliveByRegistry(s, x);
    }
  }

  // ---- taking and leaving slots ----

  /** Threads stay as they are, except that one may start, and live threads were alive before. */
  lemma RegistryFrame(s: State, r: RegOp)
    requires Registered(s) && Election(s) && CanRegister(s, r)
    ensures var n := Register(s, r);
            && (forall p :: p in s.threads ==> p in n.threads && n.threads[p] == s.threads[p])
            && (forall p :: Live(n, p) ==> n.threads[p].lead == Idle || Live(s, p))
            && n.epoch == s.epoch && |n.slots| == |s.slots| && n.ring == s.ring && n.head == s.head &&
                n.tail == s.tail && n.place == s.place
  {
    hide At, Put, Registered, ClientOk;
    OwnerGone(s, 0);
    forall p | p in s.threads ensures s.threads[p].claim in s.clients {
      assert LeadOk(s, s.threads[p]);
    }
  }

  lemma RegistryKeepsRegistered(s: State, r: RegOp)
    requires Registered(s) && CanRegister(s, r)
    ensures var n := Register(s, r); Registered(n)
  {
  }

  lemma RegistryKeepsClaim(s: State, r: RegOp, x: Thread)
    requires Registered(s) && WasOpen(s, s.barrier) && CanRegister(s, r) && LeadOk(s, x)
    ensures var n := Register(s, r); LeadOk(n, x)
  {
    hide At, Put, Registered, ClientOk;
    OwnerGone(s, 0);
  }

  lemma RegistryKeepsClaims(s: State, r: RegOp)
    requires Registered(s) && Election(s) && CanRegister(s, r)
    ensures var n := Register(s, r); WasOpen(n, n.barrier) && forall p :: p in n.threads ==> LeadOk(n, n.threads[p])
  {
    hide At, Put, Registered, ClientOk, InRound, Live;
    OwnerGone(s, 0);
    forall p | p in s.threads ensures LeadOk(Register(s, r), s.threads[p]) {
      RegistryKeepsClaim(s, r, s.threads[p]);
    }
  }

  lemma RegistryKeepsElection(s: State, r: RegOp)
    requires Registered(s) && Election(s) && CanRegister(s, r)
    ensures var n := Register(s, r); Election(n)
  {
    hide At, Put, Registered, Register, CanRegister, LeadOk, WasOpen;
    RegistryFrame(s, r);
    RegistryKeepsClaims(s, r);
    forall p, q | InRound(Register(s, r), p) && InRound(Register(s, r), q) ensures p == q {
      assert InRound(s, p) && InRound(s, q);
    }
  }

  /** Nobody gets an old token, and a new client has none. */
  lemma RegistryKeepsRound(s: State, r: RegOp, l: Leading)
    requires RoundOk(s, l) && CanRegister(s, r)
    ensures RoundOk(Register(s, r), l)
  {
    hide At, Put;
  }

  lemma RegistryKeepsRounds(s: State, r: RegOp)
    requires Registered(s) && Election(s) && Rounds(s) && CanRegister(s, r)
    ensures var n := Register(s, r); Rounds(n)
  {
    hide At, Put, Election, Registered, Register, CanRegister, Since;
    RegistryFrame(s, r);
    forall p | Live(Register(s, r), p) ensures RoundOk(Register(s, r), Register(s, r).threads[p].lead) {
      if Live(s, p) {
        RegistryKeepsRound(s, r, s.threads[p].lead);
      }
    }
  }

  lemma RegistryKeepsRingShape(s: State, r: RegOp)
    requires RingShape(s.ring, s.head, s.tail) && CanRegister(s, r)
    ensures var n := Register(s, r); RingShape(n.ring, n.head, n.tail)
  {
  }

  lemma RegistryKeepsInOrder(s: State, r: RegOp)
    requires |s.ring| > 0 && InOrder(s.ring, s.head, s.tail, s.epoch) && CanRegister(s, r)
    ensures var n := Register(s, r); |n.ring| > 0 && InOrder(n.ring, n.head, n.tail, n.epoch)
  {
  }

  lemma RegistryKeepsWriters(s: State, r: RegOp)
    requires Registered(s) && Writers(s) && CanRegister(s, r)
    ensures var n := Register(s, r); Writers(n)
  {
    hide At;
    forall d | IsWriting(Register(s, r), d) ensures IsWriting(s, d) {
    }
  }

  lemma RegistryKeepsDrains(s: State, r: RegOp)
    requires Registered(s) && Election(s) && Drains(s) && CanRegister(s, r)
    ensures var n := Register(s, r); Drains(n)
  {
    hide At, Registered, Election, Register, CanRegister;
    RegistryFrame(s, r);
  }

  lemma RegistryKeepsReservations(s: State, r: RegOp)
    requires Registered(s) && Reservations(s) && CanRegister(s, r)
    ensures var n := Register(s, r); Reservations(n)
  {
  }

  lemma RegistryKeepsLinks(s: State, r: RegOp)
    requires Registered(s) && Links(s) && CanRegister(s, r)
    ensures var n := Register(s, r); Links(n)
  {
  }

  lemma RegistryKeepsRetires(s: State, r: RegOp)
    requires Registered(s) && Retires(s) && CanRegister(s, r)
    ensures var n := Register(s, r); Retires(n)
  {
  }

  lemma RegistryKeepsOwns(s: State, r: RegOp)
    requires Registered(s) && Election(s) && Owns(s) && CanRegister(s, r)
    ensures var n := Register(s, r); Owns(n)
  {
    hide At, Put, Registered, Election;
    RegistryFrame(s, r);
  }

  lemma RegistryKeepsTokens(s: State, r: RegOp)
    requires Registered(s) && Tokens(s) && CanRegister(s, r)
    ensures var n := Register(s, r); Tokens(n)
  {
  }

  // ---- a view process ----

  /** A view step leaves everything but one client and its slot alone. */
  lemma ViewFrame(s: State, c: Claim, v: ViewOp)
    requires CanView(s, c, v)
    ensures var n := Use(s, c, v);
            && c in s.clients && n.clients.Keys == s.clients.Keys && n.threads == s.threads
            && n.barrier == s.barrier && n.ring == s.ring && n.epoch == s.epoch && n.claims == s.claims
            && (forall d :: d in s.clients && d != c ==> n.clients[d] == s.clients[d])
            && n.clients[c].alive == s.clients[c].alive && n.clients[c].stage == s.clients[c].stage
  {
    hide At, Put;
  }

  /** The client that moves. */
  lemma ViewKeepsOwnSlot(s: State, c: Claim, v: ViewOp)
    requires Registered(s) && CanView(s, c, v)
    ensures var n := Use(s, c, v); ClientOk(c, n.clients[c], n.slots, n.epoch, n.claims)
  {
    hide At, Put;
    assert ClientOk(c, s.clients[c], s.slots, s.epoch, s.claims);
  }

  /** Everyone else: no two live clients share a slot. */
  lemma ViewKeepsOtherSlot(s: State, c: Claim, v: ViewOp, d: Claim)
    requires Registered(s) && CanView(s, c, v) && d in s.clients && d != c
    ensures var n := Use(s, c, v); ClientOk(d, s.clients[d], n.slots, n.epoch, n.claims)
  {
    hide At, Put;
    assert ClientOk(c, s.clients[c], s.slots, s.epoch, s.claims) &&
        ClientOk(d, s.clients[d], s.slots, s.epoch, s.claims);
  }

  lemma ViewKeepsRegistered(s: State, c: Claim, v: ViewOp)
    requires Registered(s) && CanView(s, c, v)
    ensures var n := Use(s, c, v); Registered(n)
  {
    hide At, Put, Use, CanView, ClientOk;
    ViewFrame(s, c, v);
    ViewKeepsOwnSlot(s, c, v);
    forall d | d in s.clients && d != c
      ensures var n := Use(s, c, v); ClientOk(d, n.clients[d], n.slots, n.epoch, n.claims)
    {
      ViewKeepsOtherSlot(s, c, v, d);
    }
  }

  lemma ViewKeepsElection(s: State, c: Claim, v: ViewOp)
    requires |s.ring| > 0 && Election(s) && CanView(s, c, v)
    ensures var n := Use(s, c, v); Election(n)
  {
    hide At, Put, Use, CanView;
    ViewFrame(s, c, v);
    forall p | InRound(Use(s, c, v), p) ensures InRound(s, p) {
    }
  }

  lemma ViewKeepsRounds(s: State, c: Claim, v: ViewOp)
    requires Registered(s) && Rounds(s) && CanView(s, c, v)
    ensures var n := Use(s, c, v); Rounds(n)
  {
  }

  lemma ViewKeepsRingShape(s: State, c: Claim, v: ViewOp)
    requires RingShape(s.ring, s.head, s.tail) && CanView(s, c, v)
    ensures var n := Use(s, c, v); RingShape(n.ring, n.head, n.tail)
  {
  }

  lemma ViewKeepsInOrder(s: State, c: Claim, v: ViewOp)
    requires |s.ring| > 0 && InOrder(s.ring, s.head, s.tail, s.epoch) && CanView(s, c, v)
    ensures var n := Use(s, c, v); |n.ring| > 0 && InOrder(n.ring, n.head, n.tail, n.epoch)
  {
  }

  lemma ViewKeepsWriters(s: State, c: Claim, v: ViewOp)
    requires Writers(s) && CanView(s, c, v)
    ensures var n := Use(s, c, v); Writers(n)
  {
    hide At;
    forall d | IsWriting(Use(s, c, v), d) ensures IsWriting(s, d) {
    }
  }

  lemma ViewKeepsDrains(s: State, c: Claim, v: ViewOp)
    requires Drains(s) && CanView(s, c, v)
    ensures var n := Use(s, c, v); Drains(n)
  {
  }

  lemma ViewKeepsReservations(s: State, c: Claim, v: ViewOp)
    requires Reservations(s) && CanView(s, c, v)
    ensures var n := Use(s, c, v); Reservations(n)
  {
  }

  lemma ViewKeepsLinks(s: State, c: Claim, v: ViewOp)
    requires |s.ring| > 0 && Links(s) && CanView(s, c, v)
    ensures var n := Use(s, c, v); Links(n)
  {
  }

  lemma ViewKeepsRetires(s: State, c: Claim, v: ViewOp)
    requires Retires(s) && CanView(s, c, v)
    ensures var n := Use(s, c, v); Retires(n)
  {
  }

  lemma ViewKeepsOwns(s: State, c: Claim, v: ViewOp)
    requires |s.ring| > 0 && Owns(s) && CanView(s, c, v)
    ensures var n := Use(s, c, v); Owns(n)
  {
  }

  lemma ViewKeepsTokens(s: State, c: Claim, v: ViewOp)
    requires |s.ring| > 0 && Links(s) && Tokens(s) && CanView(s, c, v)
    ensures var n := Use(s, c, v); Tokens(n)
  {
    hide At;
  }

  // ---- the writer ----

  /** What a writer's step leaves alone. */
  lemma WriteFrame(s: State, c: Claim, w: WriteOp)
    requires |s.ring| > 0 && CanWrite(s, c, w)
    ensures var n := Write(s, c, w);
            && |n.ring| == |s.ring| && n.clients.Keys == s.clients.Keys && n.slots == s.slots && n.head == s.head &&
                n.claims == s.claims && n.threads == s.threads
            && (forall d :: d in s.clients ==>
                n.clients[d] == if d == c then s.clients[d].(write := n.clients[c].write) else s.clients[d])
            && n.epoch == s.epoch && n.barrier == s.barrier && n.tail == (if w.Publish? then s.tail + 1 else s.tail)
  {
    hide At, Put, ClaimAlive, SoleWriter;
  }

  lemma WriteKeepsRegistered(s: State, c: Claim, w: WriteOp)
    requires Registered(s) && CanWrite(s, c, w)
    ensures var n := Write(s, c, w); Registered(n)
  {
    hide At, Put, Write, ClaimAlive, SoleWriter;
    WriteFrame(s, c, w);
  }

  lemma WriteKeepsElection(s: State, c: Claim, w: WriteOp)
    requires |s.ring| > 0 && Election(s) && CanWrite(s, c, w)
    ensures var n := Write(s, c, w); Election(n)
  {
    hide At, Put, Write, CanWrite;
    WriteFrame(s, c, w);
    forall p | InRound(Write(s, c, w), p) ensures InRound(s, p) {
    }
  }

  lemma WriteKeepsRounds(s: State, c: Claim, w: WriteOp)
    requires Registered(s) && Rounds(s) && CanWrite(s, c, w)
    ensures var n := Write(s, c, w); Rounds(n)
  {
    hide At, Put;
  }

  lemma WriteKeepsRingShape(s: State, c: Claim, w: WriteOp)
    requires RingShape(s.ring, s.head, s.tail) && Writers(s) && CanWrite(s, c, w)
    ensures var n := Write(s, c, w); RingShape(n.ring, n.head, n.tail)
  {
    hide At, Put, OneWriter;
    WriteRing(s, c, w);
  }

  lemma WriteKeepsInOrder(s: State, c: Claim, w: WriteOp)
    requires RingShape(s.ring, s.head, s.tail) && Writers(s) && InOrder(s.ring, s.head, s.tail, s.epoch)
    requires CanWrite(s, c, w)
    ensures var n := Write(s, c, w); |n.ring| > 0 && InOrder(n.ring, n.head, n.tail, n.epoch)
  {
    hide At, Put, OneWriter;
    WriteRing(s, c, w);
  }

  lemma WriteKeepsOwnPlace(s: State, c: Claim, w: WriteOp)
    requires Writers(s) && RingShape(s.ring, s.head, s.tail) && InOrder(s.ring, s.head, s.tail, s.epoch)
    requires CanWrite(s, c, w)
    ensures var n := Write(s, c, w); WriteOk(c, n.clients[c].write, n.ring, n.head, n.tail, n.epoch)
  {
    hide At, Put, OneWriter, ClaimAlive, SoleWriter;
    assert WriteOk(c, s.clients[c].write, s.ring, s.head, s.tail, s.epoch);
    WriteRing(s, c, w);
  }

  lemma WriteKeepsWriters(s: State, c: Claim, w: WriteOp)
    requires RingShape(s.ring, s.head, s.tail) && Writers(s) && InOrder(s.ring, s.head, s.tail, s.epoch)
    requires CanWrite(s, c, w)
    ensures var n := Write(s, c, w); Writers(n)
  {
    hide At, Put, Write, CanWrite, RingShape, InOrder;
    OthersRest(s, c, w);
    WriteFrame(s, c, w);
    WriteKeepsOwnPlace(s, c, w);
  }

  lemma WriteKeepsDrains(s: State, c: Claim, w: WriteOp)
    requires RingShape(s.ring, s.head, s.tail) && Writers(s) && Drains(s) && CanWrite(s, c, w)
    ensures var n := Write(s, c, w); Drains(n)
  {
    hide At, Put;
    WriteRing(s, c, w);
  }

  /** A reservation that was there before the step. */
  lemma WriteKeepsReservation(s: State, c: Claim, w: WriteOp, i: nat)
    requires RingShape(s.ring, s.head, s.tail) && Writers(s) && Reservations(s) && CanWrite(s, c, w)
    requires s.head <= i <= s.tail && i < s.head + |s.ring| && At(s.ring, i).meta.Reserved?
    requires At(Write(s, c, w).ring, i).meta == At(s.ring, i).meta
    ensures Reserves(Write(s, c, w), At(s.ring, i).meta.claim, i)
  {
    hide At, Put, ClaimAlive, SoleWriter;
    WriteRing(s, c, w);
  }

  lemma WriteKeepsReservations(s: State, c: Claim, w: WriteOp)
    requires RingShape(s.ring, s.head, s.tail) && Writers(s) && Reservations(s) && CanWrite(s, c, w)
    ensures var n := Write(s, c, w); Reservations(n)
  {
    hide At, Put, ClaimAlive, SoleWriter, OneWriter;
    WriteRing(s, c, w);
    WriteFrame(s, c, w);
    forall i | s.head <= i <= s.tail && i < s.head + |s.ring| && At(s.ring, i).meta.Reserved? &&
        At(Write(s, c, w).ring, i).meta == At(s.ring, i).meta
      ensures Reserves(Write(s, c, w), At(s.ring, i).meta.claim, i)
    {
      WriteKeepsReservation(s, c, w, i);
    }
  }

  lemma WriteKeepsLinks(s: State, c: Claim, w: WriteOp)
    requires Writers(s) && Owns(s) && Links(s) && CanWrite(s, c, w)
    ensures var n := Write(s, c, w); Links(n)
  {
    hide At, Put;
  }

  lemma WriteKeepsRetires(s: State, c: Claim, w: WriteOp)
    requires RingShape(s.ring, s.head, s.tail) && Writers(s) && Retires(s) && Links(s) && Owns(s) && CanWrite(s, c, w)
    ensures var n := Write(s, c, w); Retires(n)
  {
    hide At, Put;
    WriteRing(s, c, w);
  }

  lemma WriteKeepsOwnBox(s: State, c: Claim, w: WriteOp)
    requires |s.ring| > 0 && Links(s) && Owns(s) && CanWrite(s, c, w)
    ensures var n := Write(s, c, w); BoxesOf(n.clients[c].write, n.place)
  {
    hide At, Put, ClaimAlive, SoleWriter, BoxOf;
    assert BoxesOf(s.clients[c].write, s.place);
  }

  /** No writer touches a box that a leader has taken. */
  lemma WriteKeepsTaken(s: State, c: Claim, w: WriteOp)
    requires |s.ring| > 0 && Links(s) && Owns(s) && CanWrite(s, c, w)
    ensures var n := Write(s, c, w);
            forall b :: b in s.place && s.place[b] == Taken ==> b in n.place && n.place[b] == Taken
  {
    hide At, Put, ClaimAlive, SoleWriter, BoxOf;
    assert BoxesOf(s.clients[c].write, s.place);
  }

  lemma WriteKeepsOwns(s: State, c: Claim, w: WriteOp)
    requires |s.ring| > 0 && Writers(s) && Links(s) && Owns(s) && CanWrite(s, c, w)
    ensures var n := Write(s, c, w); Owns(n)
  {
    hide At, Put, Write, CanWrite, Writers, Links;
    OthersRest(s, c, w);
    WriteFrame(s, c, w);
    WriteKeepsOwnBox(s, c, w);
    WriteKeepsTaken(s, c, w);
  }

  /** A box that a token may name stays one, whatever the writer does. */
  lemma WriteKeepsHeld(s: State, c: Claim, w: WriteOp, b: nat, born: nat)
    requires |s.ring| > 0 && Links(s) && Owns(s) && CanWrite(s, c, w)
    requires b in s.place && Held(s.place[b], born) && born <= s.epoch
    ensures var n := Write(s, c, w); b in n.place && Held(n.place[b], born)
  {
    hide At, Put, ClaimAlive, SoleWriter, BoxOf;
    assert BoxesOf(s.clients[c].write, s.place);
  }

  lemma WriteKeepsTokens(s: State, c: Claim, w: WriteOp)
    requires Registered(s) && Links(s) && Owns(s) && Tokens(s) && CanWrite(s, c, w)
    ensures var n := Write(s, c, w); Tokens(n)
  {
    hide At, Put, Write, CanWrite, Links, Owns, Held;
    WriteFrame(s, c, w);
    forall d, k | d in s.clients && s.clients[d].alive && k in s.clients[d].tokens
      ensures var n := Write(s, c, w); k.box in n.place && Held(n.place[k.box], k.born)
    {
      assert TokensHeld(s.clients[d].tokens, s.place) && ClientOk(d, s.clients[d], s.slots, s.epoch, s.claims);
      WriteKeepsHeld(s, c, w, k.box, k.born);
    }
  }

  // ---- the leader ----

  lemma LeadKeepsRegistered(s: State, p: nat, l: LeadOp)
    requires Registered(s) && CanLead(s, p, l)
    ensures var n := Lead(s, p, l); Registered(n)
  {
    hide At, Put, Lead, ClaimAlive, Passes, Stops, Due;
    LeadFrame(s, p, l);
    LeadEffect(s, p, l);
  }

  /** A thread wins the word only when it is free or its owner is dead. */
  lemma WinsFromNobody(s: State, p: nat)
    requires |s.ring| > 0 && Election(s) && CanLead(s, p, Win)
    ensures s.barrier == 0 || (s.barrier in s.clients && !s.clients[s.barrier].alive)
  {
    hide At, Put, ClaimAlive, Passes, Stops, Due, InRound;
    assert LeadOk(s, s.threads[p]);
  }

  /** A thread starts its round by a win only. */
  lemma LeadStarts(s: State, p: nat, l: LeadOp)
    requires |s.ring| > 0 && CanLead(s, p, l)
    ensures p in Lead(s, p, l).threads
    ensures IsLeading(Lead(s, p, l).threads[p].lead) ==> l.Win? || (InRound(s, p) && !l.Release?)
  {
    hide At, Put, ClaimAlive, Passes, Stops, Due;
  }

  /** Where the word that a thread is about to act on comes from. */
  lemma LeadSees(s: State, p: nat, l: LeadOp)
    requires |s.ring| > 0 && CanLead(s, p, l)
    ensures p in Lead(s, p, l).threads
    ensures var x, y := s.threads[p].lead, Lead(s, p, l).threads[p].lead;
            && (y.Saw? ==> l.See? && y.cur == s.barrier)
            && (y.Judged? ==> l.Judge? && x.Saw? && y.cur == x.cur && !ClaimAlive(s, x.cur))
  {
    hide At, Put, ClaimAlive, Passes, Stops, Due;
  }

  lemma LeadKeepsOwnClaim(s: State, p: nat, l: LeadOp)
    requires Registered(s) && Election(s) && CanLead(s, p, l)
    ensures var n := Lead(s, p, l); p in n.threads && LeadOk(n, n.threads[p])
  {
    hide At, Put, Lead, ClientOk, ClaimAlive, Passes, Stops, Due;
    LeadFrame(s, p, l);
    LeadStarts(s, p, l);
    LeadSees(s, p, l);
    assert LeadOk(s, s.threads[p]);
    OwnerGone(s, if s.threads[p].lead.Saw? then s.threads[p].lead.cur else 0);
  }

  /** Before a win nobody alive is in a round: the election word is free or its owner is dead. */
  lemma NobodyLeads(s: State)
    requires Registered(s) && Election(s)
    requires s.barrier == 0 || (s.barrier in s.clients && !s.clients[s.barrier].alive)
    ensures forall q :: !InRound(s, q)
  {
    hide Registered, ClientOk;
    OwnerGone(s, 0);
    forall q | q in s.threads ensures !InRound(s, q) {
      assert LeadOk(s, s.threads[q]);
    }
  }

  lemma LeadKeepsOtherClaim(s: State, p: nat, l: LeadOp, q: nat)
    requires Registered(s) && Election(s) && CanLead(s, p, l) && q in s.threads && q != p
    ensures LeadOk(Lead(s, p, l), s.threads[q])
  {
    hide At, Put, Lead, ClientOk, ClaimAlive, Passes, Stops, Due;
    LeadFrame(s, p, l);
    assert LeadOk(s, s.threads[q]);
    if l.Win? {
      WinsFromNobody(s, p);
      NobodyLeads(s);
      assert !InRound(s, q);
    } else if l.Release? {
      OnlyLeader(s, p);
    }
  }

  lemma LeadKeepsElection(s: State, p: nat, l: LeadOp)
    requires |s.ring| > 0 && Registered(s) && Election(s) && CanLead(s, p, l)
    ensures var n := Lead(s, p, l); Election(n)
  {
    hide At, Put, Lead, Registered, LeadOk;
    LeadFrame(s, p, l);
    LeadKeepsOwnClaim(s, p, l);
    forall q | q in s.threads && q != p ensures LeadOk(Lead(s, p, l), s.threads[q]) {
      LeadKeepsOtherClaim(s, p, l, q);
    }
    LeadKeepsOneLeader(s, p, l);
  }

  lemma LeadKeepsOneLeader(s: State, p: nat, l: LeadOp)
    requires Registered(s) && Election(s) && CanLead(s, p, l)
    ensures var n := Lead(s, p, l); forall q, r :: InRound(n, q) && InRound(n, r) ==> q == r
  {
    hide At, Put, Lead, ClientOk, ClaimAlive, Passes, Stops, Due;
    LeadFrame(s, p, l);
    LeadStarts(s, p, l);
    if l.Win? {
      WinsFromNobody(s, p);
      NobodyLeads(s);
    }
    forall q, r | InRound(Lead(s, p, l), q) && InRound(Lead(s, p, l), r) ensures q == r {
      assert q != p ==> InRound(s, q);
      assert r != p ==> InRound(s, r);
    }
  }

  /** One more slot has passed. */
  lemma PassKeepsRound(s: State, p: nat)
    requires Registered(s) && Rounds(s) && CanLead(s, p, Pass)
    ensures var n := Lead(s, p, Pass); RoundOk(n, n.threads[p].lead)
  {
    hide At, Put, Registered, ClientOk, Since, Passes, ClaimAlive, Stops, Due;
    assert Live(s, p) && RoundOk(s, s.threads[p].lead);
    var now := s.threads[p].lead;
    PassClears(s, now.next, now.dead);
    if s.slots[now.next].owner !in s.clients || !s.clients[s.slots[now.next].owner].alive {
      DeadOwner(s, now.next);
    }
  }

  /** The round of the thread that moves. */
  lemma LeadKeepsOwnRound(s: State, p: nat, l: LeadOp)
    requires Registered(s) && Rounds(s) && CanLead(s, p, l) && l != Pass
    ensures var n := Lead(s, p, l); RoundOk(n, n.threads[p].lead)
  {
    hide At, Put, Registered, ClientOk, Since, Passes, ClaimAlive, Stops, Due;
    SlotsBound(s);
    assert Live(s, p) && RoundOk(s, s.threads[p].lead);
  }

  /** Everyone else is either not in a round, or nothing of theirs has moved. */
  lemma LeadKeepsOtherRound(s: State, p: nat, l: LeadOp, q: nat)
    requires |s.ring| > 0 && Election(s) && Rounds(s) && CanLead(s, p, l) && Live(s, q) && q != p
    ensures RoundOk(Lead(s, p, l), s.threads[q].lead)
  {
    hide At, Put, Lead, Election, LeadOk, Since, Passes, ClaimAlive, Stops, Due;
    LeadFrame(s, p, l);
    LeadEffect(s, p, l);
    assert RoundOk(s, s.threads[q].lead);
    if IsLeading(s.threads[p].lead) {
      OnlyLeader(s, p);
    }
  }

  lemma LeadKeepsRounds(s: State, p: nat, l: LeadOp)
    requires |s.ring| > 0 && Registered(s) && Election(s) && Rounds(s) && CanLead(s, p, l)
    ensures var n := Lead(s, p, l); Rounds(n)
  {
    hide At, Put, Lead, Election, Registered, RoundOk;
    LeadFrame(s, p, l);
    LeadEffect(s, p, l);
    if l.Pass? {
      PassKeepsRound(s, p);
    } else {
      LeadKeepsOwnRound(s, p, l);
    }
    forall q | Live(s, q) && q != p ensures RoundOk(Lead(s, p, l), s.threads[q].lead) {
      LeadKeepsOtherRound(s, p, l, q);
    }
  }

  lemma LeadKeepsRingShape(s: State, p: nat, l: LeadOp)
    requires RingShape(s.ring, s.head, s.tail) && Drains(s) && CanLead(s, p, l)
    ensures var n := Lead(s, p, l); RingShape(n.ring, n.head, n.tail)
  {
    hide At, Put;
    LeadRing(s, p, l);
    Wrap(s.ring, s.head);
  }

  lemma LeadKeepsInOrder(s: State, p: nat, l: LeadOp)
    requires RingShape(s.ring, s.head, s.tail) && Drains(s) && InOrder(s.ring, s.head, s.tail, s.epoch)
    requires CanLead(s, p, l)
    ensures var n := Lead(s, p, l); |n.ring| > 0 && InOrder(n.ring, n.head, n.tail, n.epoch)
  {
    hide At, Put;
    LeadRing(s, p, l);
  }

  /** A writer's entry is neither skipped, taken nor passed by. */
  lemma LeadKeepsPlace(s: State, p: nat, l: LeadOp, d: Claim)
    requires Registered(s) && RingShape(s.ring, s.head, s.tail) && Writers(s) && Drains(s) && CanLead(s, p, l)
    requires IsWriting(s, d)
    ensures var n := Lead(s, p, l); WriteOk(d, s.clients[d].write, n.ring, n.head, n.tail, n.epoch)
  {
    hide At, Put, Lead, Registered, ClaimAlive, Passes, Stops, Due, OneWriter;
    LeadFrame(s, p, l);
    LeadEffect(s, p, l);
    LeadRing(s, p, l);
    assert Live(s, p) && DrainOk(s.threads[p].lead, s.ring, s.head, s.tail);
    assert WriteOk(d, s.clients[d].write, s.ring, s.head, s.tail, s.epoch);
    WriterAlive(s, d);
  }

  lemma LeadKeepsWriters(s: State, p: nat, l: LeadOp)
    requires Registered(s) && RingShape(s.ring, s.head, s.tail) && Writers(s) && Drains(s) && CanLead(s, p, l)
    ensures var n := Lead(s, p, l); Writers(n)
  {
    hide At, Put, Lead, CanLead, Registered, RingShape, Drains, WriteOk;
    LeadFrame(s, p, l);
    LeadEffect(s, p, l);
    forall d | IsWriting(Lead(s, p, l), d) ensures IsWriting(s, d) {
    }
    forall d | d in s.clients && s.clients[d].alive
      ensures var n := Lead(s, p, l); WriteOk(d, s.clients[d].write, n.ring, n.head, n.tail, n.epoch)
    {
      if s.clients[d].write == Resting {
        RestOk(s, p, l, d);
      } else {
        LeadKeepsPlace(s, p, l, d);
      }
    }
  }

  lemma RestOk(s: State, p: nat, l: LeadOp, d: Claim)
    requires |s.ring| > 0 && CanLead(s, p, l)
    ensures var n := Lead(s, p, l); |n.ring| > 0 && WriteOk(d, Resting, n.ring, n.head, n.tail, n.epoch)
  {
    hide At, Put, Lead;
    LeadFrame(s, p, l);
    LeadEffect(s, p, l);
  }

  lemma LeadKeepsOwnDrain(s: State, p: nat, l: LeadOp)
    requires RingShape(s.ring, s.head, s.tail) && Drains(s) && CanLead(s, p, l)
    ensures var n := Lead(s, p, l); |n.ring| > 0 && DrainOk(n.threads[p].lead, n.ring, n.head, n.tail)
  {
    hide At, Put, ClaimAlive, Passes, Stops, Due;
    assert Live(s, p) && DrainOk(s.threads[p].lead, s.ring, s.head, s.tail);
    LeadRing(s, p, l);
  }

  lemma LeadKeepsDrains(s: State, p: nat, l: LeadOp)
    requires RingShape(s.ring, s.head, s.tail) && Drains(s) && Election(s) && CanLead(s, p, l)
    ensures var n := Lead(s, p, l); Drains(n)
  {
    hide At, Put, Lead, Election, LeadOk, ClaimAlive, Passes, Stops, Due;
    LeadFrame(s, p, l);
    LeadEffect(s, p, l);
    LeadKeepsOwnDrain(s, p, l);
    if IsLeading(s.threads[p].lead) {
      OnlyLeader(s, p);
    } else {
      LeadRing(s, p, l);
    }
  }

  lemma LeadKeepsReservations(s: State, p: nat, l: LeadOp)
    requires RingShape(s.ring, s.head, s.tail) && Drains(s) && Reservations(s) && CanLead(s, p, l)
    ensures var n := Lead(s, p, l); Reservations(n)
  {
    hide At, Put;
    LeadRing(s, p, l);
    Wrap(s.ring, s.head);
  }

  lemma LeadKeepsLinks(s: State, p: nat, l: LeadOp)
    requires RingShape(s.ring, s.head, s.tail) && Retires(s) && Drains(s) && Links(s) && Owns(s) && CanLead(s, p, l)
    ensures var n := Lead(s, p, l); Links(n)
  {
    hide At, Put;
  }

  lemma LeadKeepsRetires(s: State, p: nat, l: LeadOp)
    requires RingShape(s.ring, s.head, s.tail) && Retires(s) && Drains(s) && Owns(s) && CanLead(s, p, l)
    ensures var n := Lead(s, p, l); Retires(n)
  {
    hide At, Put, Lead, ClaimAlive, Passes, Stops, Due;
    LeadFrame(s, p, l);
    LeadEffect(s, p, l);
    LeadRing(s, p, l);
    assert Live(s, p) && BoxOf(s.threads[p].lead, s.place) && DrainOk(s.threads[p].lead, s.ring, s.head, s.tail);
  }

  /** The box a leader is freeing, before and after its step. */
  lemma LeaderBox(s: State, p: nat, l: LeadOp)
    requires |s.ring| > 0 && CanLead(s, p, l)
    ensures var x, y := s.threads[p].lead, Lead(s, p, l).threads[p].lead;
            && (y.Dropping? ==> l.Take? && y.box == At(s.ring, x.at).off)
            && (y.Freeing? ==> l.Behead? && x.Dropping? && y.box == x.box)
            && (l.FreeBox? ==> x.Freeing?)
  {
    hide At, Put, ClaimAlive, Passes, Stops, Due;
  }

  /** Changing the place of a retired box, or of one taken out of the ring, concerns no writer. */
  lemma BoxesStay(w: Writing, place: map<nat, Place>, b: nat, x: Place)
    requires BoxesOf(w, place) && b in place && (place[b].Retired? || place[b] == Taken)
    ensures BoxesOf(w, place[b := x])
  {
  }

  lemma LeadKeepsOwns(s: State, p: nat, l: LeadOp)
    requires RingShape(s.ring, s.head, s.tail) && Drains(s) && Retires(s) && Election(s) && Owns(s) && CanLead(s, p, l)
    ensures var n := Lead(s, p, l); Owns(n)
  {
    hide At, Put, Lead, Election, LeadOk, ClaimAlive, Passes, Stops, Due;
    LeadFrame(s, p, l);
    LeadEffect(s, p, l);
    LeaderBox(s, p, l);
    assert Live(s, p) && BoxOf(s.threads[p].lead, s.place);
    if l.Take? || l.FreeBox? {
      OnlyLeader(s, p);
      var b := if l.Take? then At(s.ring, s.threads[p].lead.at).off else s.threads[p].lead.box;
      forall d | d in s.clients && s.clients[d].alive ensures BoxesOf(s.clients[d].write, Lead(s, p, l).place) {
        BoxesStay(s.clients[d].write, s.place, b, if l.Take? then Taken else Free);
      }
    }
  }

  /** In round r nobody alive holds a token for a box stamped before r. */
  lemma NobodyHolds(s: State, p: nat)
    requires RingShape(s.ring, s.head, s.tail) && Drains(s) && Retires(s) && InOrder(s.ring, s.head, s.tail, s.epoch)
    requires Rounds(s) && Tokens(s) && CanLead(s, p, Take)
    ensures forall d, k :: d in s.clients && s.clients[d].alive && k in s.clients[d].tokens ==>
              k.box != At(s.ring, s.threads[p].lead.at).off
  {
    hide At, Put;
    var e := At(s.ring, s.head);
    assert Live(s, p) && DrainOk(s.threads[p].lead, s.ring, s.head, s.tail) && RoundOk(s, s.threads[p].lead);
    assert e.epoch < s.epoch;
    forall d, k | d in s.clients && s.clients[d].alive && k in s.clients[d].tokens ensures k.box != e.off {
      assert TokensHeld(s.clients[d].tokens, s.place) && Since(s.clients[d].tokens, s.epoch);
    }
  }

  lemma HeldStay(tokens: set<Token>, place: map<nat, Place>, b: nat, p: Place)
    requires TokensHeld(tokens, place) && forall k :: k in tokens ==> k.box != b
    ensures TokensHeld(tokens, place[b := p])
  {
  }

  lemma LeadKeepsTokens(s: State, p: nat, l: LeadOp)
    requires RingShape(s.ring, s.head, s.tail) && Drains(s) && Retires(s) && InOrder(s.ring, s.head, s.tail, s.epoch)
    requires Rounds(s) && Owns(s) && Tokens(s) && CanLead(s, p, l)
    ensures var n := Lead(s, p, l); Tokens(n)
  {
    hide At, Put, Lead, Drains, Retires, InOrder, Rounds, ClaimAlive, Passes, Stops, Due;
    LeadFrame(s, p, l);
    LeadEffect(s, p, l);
    if l.Take? {
      NobodyHolds(s, p);
      forall d | d in s.clients && s.clients[d].alive ensures TokensHeld(s.clients[d].tokens, Lead(s, p, l).place) {
        HeldStay(s.clients[d].tokens, s.place, At(s.ring, s.threads[p].lead.at).off, Taken);
      }
    } else if l.FreeBox? {
      assert Live(s, p) && BoxOf(s.threads[p].lead, s.place);
      forall d | d in s.clients && s.clients[d].alive ensures TokensHeld(s.clients[d].tokens, Lead(s, p, l).place) {
        assert TokensHeld(s.clients[d].tokens, s.place);
        HeldStay(s.clients[d].tokens, s.place, s.threads[p].lead.box, Free);
      }
    }
  }
}
