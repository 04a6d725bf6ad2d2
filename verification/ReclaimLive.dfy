/**
 No garbage is stuck: from every state of every run there is a way on that frees every box which has been retired,
 as long as no entry is half the range of epochs old.
 */
module ReclaimLive {
  import opened Bytes
  import opened Reclaim
  import opened ReclaimInv
  import opened ReclaimSteps
  import opened ReclaimSafety
  import opened ReclaimProgress

  // ---- what a way on keeps ----

  predicate InHand(s: State, b: nat, p: nat) {
    Live(s, p) && (s.threads[p].lead.Dropping? || s.threads[p].lead.Freeing?) && s.threads[p].lead.box == b
  }

  predicate CommittedAt(s: State, b: nat, j: nat)
    requires |s.ring| > 0
  {
    InRing(s, j) && At(s.ring, j).off == b
  }

  /** The box is free, or retired and not lost: in the ring, or in the hands of a live leader. */
  ghost predicate Spent(s: State, b: nat)
    requires |s.ring| > 0
  {
    IsFree(s, b) || (exists j :: CommittedAt(s, b, j)) || exists p :: InHand(s, b, p)
  }

  /** At epoch r no entry, nor one about to be committed, is half the range of epochs old. */
  ghost predicate Recent(s: State, r: nat)
    requires |s.ring| > 0
  {
    && (forall j :: InRing(s, j) ==> r < At(s.ring, j).epoch + EPOCHS / 2)
    && (forall c :: IsWriting(s, c) && s.clients[c].write.Stamping? ==> r < s.clients[c].write.epoch + EPOCHS / 2)
  }

  /** Nobody has died and no key has changed; what was spent is spent, what was recent is recent. */
  ghost predicate Onward(s: State, n: State, r: nat) {
    && |s.ring| > 0 && Good(n) && n.links == s.links && n.clients.Keys == s.clients.Keys
    && (forall c :: c in s.clients ==>
        n.clients[c].alive == s.clients[c].alive && n.clients[c].stage == s.clients[c].stage)
    && (forall b :: Spent(s, b) ==> Spent(n, b))
    && (Recent(s, r) ==> Recent(n, r))
  }

  lemma OnwardThen(s: State, m: State, n: State, r: nat)
    requires Onward(s, m, r) && Onward(m, n, r)
    ensures Onward(s, n, r)
  {
    hide Good, Spent, Recent;
  }

  lemma OnwardSelf(s: State, r: nat)
    requires |s.ring| > 0 && Good(s)
    ensures Onward(s, s, r)
  {
    hide Good, Spent, Recent;
  }

  // ---- a leader's step ----

  /** Nothing has been committed. */
  ghost predicate NoneAdded(s: State, n: State)
    requires |s.ring| > 0 && |n.ring| > 0
  {
    forall j :: InRing(n, j) ==> InRing(s, j) && At(n.ring, j) == At(s.ring, j)
  }

  /** Only thread p has moved on. */
  ghost predicate LedOn(s: State, n: State, p: nat) {
    && p in s.threads && p in n.threads && n.clients == s.clients && n.slots == s.slots && n.tail == s.tail
    && |n.ring| == |s.ring| > 0 && n.threads == s.threads[p := s.threads[p].(lead := n.threads[p].lead)]
    && NoneAdded(s, n)
  }

  lemma LedThen(s: State, m: State, n: State, p: nat)
    requires LedOn(s, m, p) && LedOn(m, n, p)
    ensures LedOn(s, n, p)
  {
  }

  lemma LeadKeepsSpent(s: State, p: nat, l: LeadOp, b: nat)
    requires Inv(s) && CanLead(s, p, l) && Spent(s, b)
    ensures |Lead(s, p, l).ring| > 0 && Spent(Lead(s, p, l), b)
  {
    hide Registered, Election, Rounds, InOrder, Writers, Reservations, Links, Retires, Owns, Tokens, Lead, At, Put,
      ClaimAlive, Passes, Stops, Due;
    LeadFrame(s, p, l);
    LeadEffect(s, p, l);
    LeadRing(s, p, l);
    LeadActs(s, p, l);
    LeadGrip(s, p, l);
    var n := Lead(s, p, l);
    assert DrainOk(s.threads[p].lead, s.ring, s.head, s.tail);
    if IsFree(s, b) {
      LeadKeepsFree(s, p, l, b);
    } else if exists j :: CommittedAt(s, b, j) {
      var j :| CommittedAt(s, b, j);
      if l.Take? && j == s.head {
        assert InHand(n, b, p);
      } else {
        LeadKeepsEntry(s, p, l, j);
        assert CommittedAt(n, b, j);
      }
    } else {
      var q :| InHand(s, b, q);
      if l.FreeBox? && q == p {
        assert IsFree(n, b);
      } else {
        assert InHand(n, b, q);
      }
    }
  }

  lemma LeadKeepsFree(s: State, p: nat, l: LeadOp, b: nat)
    requires Inv(s) && CanLead(s, p, l) && IsFree(s, b)
    ensures IsFree(Lead(s, p, l), b)
  {
    hide Registered, Election, Rounds, RingShape, InOrder, Writers, Drains, Reservations, Links, Retires, Owns, Tokens,
      Lead, CanLead;
    LeadStaysFree(s, p, l, b);
  }

  /** What the thread has in its hands after the step. */
  lemma LeadGrip(s: State, p: nat, l: LeadOp)
    requires |s.ring| > 0 && CanLead(s, p, l)
    ensures var x, n := s.threads[p].lead, Lead(s, p, l);
            && p in n.threads
            && (l.Take? ==> n.threads[p].lead == Dropping(x.r, x.at, At(s.ring, x.at).off))
            && (l.Behead? ==> n.threads[p].lead == Freeing(x.r, x.at, x.box))
            && (x.Dropping? ==> l.Behead?) && (x.Freeing? ==> l.FreeBox?)
  {
    hide At, Put, ClaimAlive, Passes, Stops, Due;
  }

  /** Only the entry at head is touched, and only when it goes. */
  lemma LeadKeepsEntry(s: State, p: nat, l: LeadOp, j: nat)
    requires RingShape(s.ring, s.head, s.tail) && Drains(s) && CanLead(s, p, l) && InRing(s, j)
    requires !(l.Take? && j == s.head)
    ensures var n := Lead(s, p, l); |n.ring| > 0 && InRing(n, j) && At(n.ring, j) == At(s.ring, j)
  {
    hide At, Put, Lead, ClaimAlive, Passes, Stops, Due;
    LeadFrame(s, p, l);
    LeadEffect(s, p, l);
    LeadRing(s, p, l);
    LeadActs(s, p, l);
    assert DrainOk(s.threads[p].lead, s.ring, s.head, s.tail);
  }

  lemma LeadAddsNone(s: State, p: nat, l: LeadOp)
    requires RingShape(s.ring, s.head, s.tail) && Drains(s) && CanLead(s, p, l)
    ensures |Lead(s, p, l).ring| > 0 && NoneAdded(s, Lead(s, p, l))
  {
    hide At, Put, Lead, ClaimAlive, Passes, Stops, Due;
    LeadFrame(s, p, l);
    LeadEffect(s, p, l);
    LeadRing(s, p, l);
    LeadActs(s, p, l);
    assert DrainOk(s.threads[p].lead, s.ring, s.head, s.tail);
  }

  lemma LeadKeepsRecent(s: State, p: nat, l: LeadOp, r: nat)
    requires RingShape(s.ring, s.head, s.tail) && Drains(s) && CanLead(s, p, l) && Recent(s, r)
    ensures |Lead(s, p, l).ring| > 0 && Recent(Lead(s, p, l), r)
  {
    hide At, Put, Lead, ClaimAlive, Passes, Stops, Due;
    LeadFrame(s, p, l);
    LeadAddsNone(s, p, l);
    var n := Lead(s, p, l);
    forall c | IsWriting(n, c) ensures IsWriting(s, c) {
    }
  }

  lemma LeadOnward(s: State, p: nat, l: LeadOp, r: nat)
    requires Good(s) && CanLead(s, p, l)
    ensures var n := Lead(s, p, l); Plays(s, [Leads(p, l)], n) && Onward(s, n, r) && LedOn(s, n, p)
  {
    hide Plays, Registered, Election, Rounds, InOrder, Writers, Drains, Reservations, Links, Retires, Owns, Tokens,
      Lead, CanLead, Spent, Recent, SlotsOwned, WordHeld, RingShape, NoneAdded;
    LeadActs(s, p, l);
    LeadAddsNone(s, p, l);
    LeadFrame(s, p, l);
    PlaysOne(s, Leads(p, l));
    StepKeepsInv(s, Leads(p, l));
    StepKeepsSlotsOwned(s, Leads(p, l));
    StepKeepsWordHeld(s, Leads(p, l));
    forall b | Spent(s, b) ensures Spent(Lead(s, p, l), b) {
      LeadKeepsSpent(s, p, l, b);
    }
    if Recent(s, r) {
      LeadKeepsRecent(s, p, l, r);
    }
  }

  // ---- waiting for the slots ----

  /** When nothing holds the round back, the leader comes to the drain. */
  lemma {:induction false} PassAll(s: State, p: nat) returns (steps: seq<Step>, n: State)
    requires |s.ring| > 0 && p in s.threads && Acting(s, s.threads[p].claim) && s.threads[p].lead.Waiting?
    requires s.threads[p].lead.next <= |s.slots|
    requires forall i :: s.threads[p].lead.next <= i < |s.slots| ==>
      Passes(s, i, s.threads[p].lead.r, s.threads[p].lead.dead)
    ensures Plays(s, steps, n) && n == Led(s, p, Draining(s.threads[p].lead.r, s.head))
    decreases |s.slots| - s.threads[p].lead.next
  {
    hide Plays, ClaimAlive, Stops, Due;
    var now := s.threads[p].lead;
    if now.next == |s.slots| {
      PlaysOne(s, Leads(p, Proceed));
      steps, n := [Leads(p, Proceed)], Lead(s, p, Proceed);
    } else {
      var m := Lead(s, p, Pass);
      PlaysOne(s, Leads(p, Pass));
      forall i | now.next < i < |s.slots| ensures Passes(m, i, now.r, m.threads[p].lead.dead) {
        assert Passes(s, i, now.r, now.dead);
      }
      var rest, k := PassAll(m, p);
      PlaysThen(s, [Leads(p, Pass)], m, rest, k);
      var x := s.threads[p].(lead := Draining(now.r, s.head));
      assert s.threads[p := m.threads[p]][p := x] == s.threads[p := x];
      steps, n := [Leads(p, Pass)] + rest, k;
    }
  }

  // ---- the drain ----

  /** Thread p is at work on the ring, in a live process. */
  predicate AtDrain(s: State, p: nat, at: nat) {
    p in s.threads && Acting(s, s.threads[p].claim) && s.threads[p].lead.Draining? && s.threads[p].lead.at == at
  }

  /** One more entry is dealt with. */
  ghost predicate WentOn(s: State, n: State, p: nat, r: nat) {
    && Onward(s, n, r) && LedOn(s, n, p) && n.epoch == s.epoch && n.barrier == s.barrier && n.head == s.head + 1
    && AtDrain(s, p, s.head) && AtDrain(n, p, n.head) && n.threads[p].lead.r == s.threads[p].lead.r
    && forall j {:trigger At(n.ring, j)} :: s.head < j < s.head + |s.ring| ==> At(n.ring, j) == At(s.ring, j)
  }

  lemma SkipsOne(s: State, p: nat, l: LeadOp, r: nat) returns (steps: seq<Step>, n: State)
    requires Good(s) && AtDrain(s, p, s.head) && (l == Skip || l == SkipDead) && CanLead(s, p, l)
    ensures Plays(s, steps, n) && WentOn(s, n, p, r)
  {
    hide Plays, Onward, Good, At, Put, ClaimAlive, Passes, Stops, Due, Rounds, Election, InOrder, Writers, Reservations;
    GoodRing(s);
    var m := Lead(s, p, l);
    LeadOnward(s, p, l, r);
    LeadRing(s, p, l);
    OnwardGood(s, m, r);
    assert CanLead(m, p, Advance);
    n := Lead(m, p, Advance);
    LeadOnward(m, p, Advance, r);
    PlaysThen(s, [Leads(p, l)], m, [Leads(p, Advance)], n);
    OnwardThen(s, m, n, r);
    LedThen(s, m, n, p);
    steps := [Leads(p, l)] + [Leads(p, Advance)];
  }

  lemma GoodRing(s: State)
    requires Good(s)
    ensures |s.ring| > 0 && Drains(s) && s.head <= s.tail <= s.head + |s.ring|
  {
    hide Registered, Election, Rounds, InOrder, Writers, Drains, Reservations, Links, Retires, Owns, Tokens, SlotsOwned,
      WordHeld;
  }

  lemma OnwardGood(s: State, n: State, r: nat)
    requires Onward(s, n, r)
    ensures Good(n) && |n.ring| > 0
  {
    hide Registered, Election, Rounds, InOrder, Writers, Drains, Reservations, Links, Retires, Owns, Tokens, SlotsOwned,
      WordHeld, Spent, Recent;
  }

  /** A box in hand is freed, and the leader is back at the drain. */
  lemma LaysDown(s: State, p: nat, l: LeadOp, r: nat) returns (steps: seq<Step>, n: State)
    requires Good(s) && (l == Behead || l == FreeBox) && |s.ring| > 0 && CanLead(s, p, l)
    ensures Plays(s, steps, n) && Onward(s, n, r) && LedOn(s, n, p) && n.epoch == s.epoch && n.barrier == s.barrier
    ensures n.ring == s.ring && AtDrain(n, p, n.head) && n.threads[p].lead.r == s.threads[p].lead.r
    ensures n.head == if l == Behead then s.threads[p].lead.at + 1 else s.head
  {
    hide Plays, Onward, At, Put, ClaimAlive, Passes, Stops, Due, Registered, Election, Rounds, InOrder, Writers,
      Reservations, Links, Retires, Owns, Tokens, SlotsOwned, WordHeld, RingShape;
    var b := s;
    steps := [];
    if l == Behead {
      b := Lead(s, p, Behead);
      LeadOnward(s, p, Behead, r);
      OnwardGood(s, b, r);
      steps := [Leads(p, Behead)];
    } else {
      PlaysNone(s);
      OnwardSelf(s, r);
      LedSelf(s, p);
    }
    assert CanLead(b, p, FreeBox);
    n := Lead(b, p, FreeBox);
    LeadOnward(b, p, FreeBox, r);
    PlaysThen(s, steps, b, [Leads(p, FreeBox)], n);
    OnwardThen(s, b, n, r);
    LedThen(s, b, n, p);
    GoodDrain(b, p);
    steps := steps + [Leads(p, FreeBox)];
  }

  lemma LedSelf(s: State, p: nat)
    requires p in s.threads && |s.ring| > 0
    ensures LedOn(s, s, p)
  {
    assert s.threads[p := s.threads[p]] == s.threads;
  }

  lemma GoodDrain(s: State, p: nat)
    requires Good(s) && Live(s, p)
    ensures |s.ring| > 0 && DrainOk(s.threads[p].lead, s.ring, s.head, s.tail)
  {
    hide Registered, Election, Rounds, InOrder, Writers, Reservations, Links, Retires, Owns, Tokens, SlotsOwned,
      WordHeld, RingShape, At;
  }

  lemma TakesOne(s: State, p: nat, r: nat) returns (steps: seq<Step>, n: State)
    requires Good(s) && AtDrain(s, p, s.head) && |s.ring| > 0 && CanLead(s, p, Take)
    ensures Plays(s, steps, n) && WentOn(s, n, p, r)
  {
    hide Plays, Onward, Good, At, Put, ClaimAlive, Passes, Stops, Due;
    GoodRing(s);
    var a := Lead(s, p, Take);
    LeadOnward(s, p, Take, r);
    LeadRing(s, p, Take);
    OnwardGood(s, a, r);
    assert CanLead(a, p, Behead);
    var rest;
    rest, n := LaysDown(a, p, Behead, r);
    PlaysThen(s, [Leads(p, Take)], a, rest, n);
    OnwardThen(s, a, n, r);
    LedThen(s, a, n, p);
    steps := [Leads(p, Take)] + rest;
  }

  lemma DrainsOne(s: State, p: nat, r: nat) returns (steps: seq<Step>, n: State)
    requires Good(s) && AtDrain(s, p, s.head) && |s.ring| > 0 && !Stops(s, s.threads[p].lead.r, s.head)
    ensures Plays(s, steps, n) && WentOn(s, n, p, r)
  {
    hide Plays, Good, WentOn, At, ClaimAlive, Passes, Due;
    if CanLead(s, p, Skip) {
      steps, n := SkipsOne(s, p, Skip, r);
    } else if CanLead(s, p, SkipDead) {
      steps, n := SkipsOne(s, p, SkipDead, r);
    } else {
      steps, n := TakesOne(s, p, r);
    }
  }

  /** The drain goes on to the first entry that stops it, leaves what lies behind, and ends. */
  ghost predicate DrainedUp(s: State, n: State, p: nat, r: nat) {
    && Onward(s, n, r) && LedOn(s, n, p) && n.epoch == s.epoch && n.barrier == s.barrier && |n.ring| > 0
    && AtDrain(s, p, s.head) && n.threads[p].lead == Leaving && s.head <= n.head
    && Stops(n, s.threads[p].lead.r, n.head)
  }

  lemma {:induction false} DrainsUp(s: State, p: nat, r: nat) returns (steps: seq<Step>, n: State)
    requires Good(s) && AtDrain(s, p, s.head)
    ensures Plays(s, steps, n) && DrainedUp(s, n, p, r)
    decreases s.tail - s.head
  {
    hide Plays, Onward, Good, At, ClaimAlive, Passes, Due;
    GoodRing(s);
    if Stops(s, s.threads[p].lead.r, s.head) {
      LeadOnward(s, p, Finish, r);
      steps, n := [Leads(p, Finish)], Lead(s, p, Finish);
      SameStops(s, n, s.threads[p].lead.r, s.head);
    } else {
      var a, m := DrainsOne(s, p, r);
      OnwardGood(s, m, r);
      GoodRing(m);
      var b, k := DrainsUp(m, p, r);
      PlaysThen(s, a, m, b, k);
      OnwardThen(s, m, k, r);
      LedThen(s, m, k, p);
      steps, n := a + b, k;
    }
  }

  lemma SameStops(s: State, n: State, r: nat, at: nat)
    requires |s.ring| > 0 && n.ring == s.ring && n.tail == s.tail && n.slots == s.slots && n.clients == s.clients
    requires Stops(s, r, at)
    ensures Stops(n, r, at)
  {
    hide At, Due;
  }

  // ---- a round under way ----

  lemma LiveActs(s: State, p: nat)
    requires Good(s) && Live(s, p)
    ensures Acting(s, s.threads[p].claim)
  {
    hide Rounds, InOrder, Writers, Drains, Reservations, Links, Retires, Owns, Tokens, SlotsOwned, WordHeld, RingShape;
    assert LeadOk(s, s.threads[p]);
    assert ClientOk(s.threads[p].claim, s.clients[s.threads[p].claim], s.slots, s.epoch, s.claims);
  }

  /** A leader anywhere in its round gets to the end of it. */
  lemma Leaves(s: State, p: nat, r: nat) returns (steps: seq<Step>, n: State)
    requires Good(s) && InRound(s, p)
    ensures Plays(s, steps, n) && Onward(s, n, r) && LedOn(s, n, p) && n.epoch == s.epoch
    ensures n.threads[p].lead == Leaving
  {
    hide Plays, Onward, Good, LedOn, At, Put, ClaimAlive, Passes, Stops, Due, Lead;
    LiveActs(s, p);
    GoodDrain(s, p);
    var l := s.threads[p].lead;
    if l.Elected? || l.Waiting? {
      LeadOnward(s, p, Abandon, r);
      steps, n := [Leads(p, Abandon)], Lead(s, p, Abandon);
      LeadEffect(s, p, Abandon);
      Abandons(s, p);
    } else if l.Leaving? {
      PlaysNone(s);
      OnwardSelf(s, r);
      LedSelf(s, p);
      steps, n := [], s;
    } else {
      var a, m := ToDrain(s, p, r);
      OnwardGood(s, m, r);
      var b, k := DrainsUp(m, p, r);
      PlaysThen(s, a, m, b, k);
      OnwardThen(s, m, k, r);
      LedThen(s, m, k, p);
      steps, n := a + b, k;
    }
  }

  lemma Abandons(s: State, p: nat)
    requires |s.ring| > 0 && CanLead(s, p, Abandon)
    ensures Lead(s, p, Abandon).threads[p].lead == Leaving
  {
  }

  /** Whatever it holds is laid down first. */
  lemma ToDrain(s: State, p: nat, r: nat) returns (steps: seq<Step>, n: State)
    requires Good(s) && InRound(s, p) && Acting(s, s.threads[p].claim)
    requires RoundOf(s.threads[p].lead).Some? && !s.threads[p].lead.Waiting?
    ensures Plays(s, steps, n) && Onward(s, n, r) && LedOn(s, n, p) && n.epoch == s.epoch && AtDrain(n, p, n.head)
  {
    hide Plays, Onward, Good, At, Put, ClaimAlive, Passes, Stops, Due;
    GoodDrain(s, p);
    var l := s.threads[p].lead;
    if l.Draining? {
      PlaysNone(s);
      OnwardSelf(s, r);
      LedSelf(s, p);
      steps, n := [], s;
    } else if l.Skipping? {
      LeadOnward(s, p, Advance, r);
      steps, n := [Leads(p, Advance)], Lead(s, p, Advance);
    } else {
      steps, n := LaysDown(s, p, if l.Dropping? then Behead else FreeBox, r);
    }
  }

  /** And gives the word back. */
  lemma EndsRound(s: State, p: nat, r: nat) returns (steps: seq<Step>, n: State)
    requires Good(s) && InRound(s, p)
    ensures Plays(s, steps, n) && Onward(s, n, r) && LedOn(s, n, p) && n.epoch == s.epoch
    ensures n.threads[p].lead == Idle && n.barrier == 0
  {
    hide Plays, Onward, Good, At, Put, ClaimAlive, Passes, Stops, Due;
    var a, m := Leaves(s, p, r);
    OnwardGood(s, m, r);
    LiveActs(s, p);
    GoodOwn(m, p);
    n := Lead(m, p, Release);
    LeadOnward(m, p, Release, r);
    PlaysThen(s, a, m, [Leads(p, Release)], n);
    OnwardThen(s, m, n, r);
    LedThen(s, m, n, p);
    steps := a + [Leads(p, Release)];
  }

  lemma GoodOwn(s: State, p: nat)
    requires Good(s) && InRound(s, p)
    ensures s.barrier == s.threads[p].claim
  {
    hide Rounds, InOrder, Writers, Drains, Reservations, Links, Retires, Owns, Tokens, SlotsOwned, WordHeld, RingShape,
      Registered;
    assert LeadOk(s, s.threads[p]);
  }

  // ---- a write under way ----

  /** What a writer can always do next to come to rest. */
  function Closing(w: Writing): WriteOp {
    match w
    case Resting => Refuse
    case Looked(_) => Refuse
    case Marked => Publish
    case Holding(_) => Cancel
    case Ready(res, _) => if res.Some? then Cancel else Discard
    case Detached(_, _) => Stamp
    case Stamping(_, _, _) => Commit
  }

  function ToGo(w: Writing): nat {
    match w
    case Resting => 0
    case Looked(_) => 1
    case Marked => 2
    case Holding(_) => 1
    case Ready(res, _) => if res.Some? then 2 else 1
    case Detached(_, _) => 2
    case Stamping(_, _, _) => 1
  }

  lemma CanClose(s: State, c: Claim)
    requires |s.ring| > 0 && Acting(s, c) && s.clients[c].write != Resting
    ensures CanWrite(s, c, Closing(s.clients[c].write))
    ensures var n := Write(s, c, Closing(s.clients[c].write));
            && c in n.clients && ToGo(n.clients[c].write) < ToGo(s.clients[c].write) && n.links == s.links
            && (n.clients[c].write.Stamping? ==> n.clients[c].write.epoch == s.epoch)
  {
    hide At, Put, ClaimAlive, SoleWriter;
  }

  lemma WriterActs(s: State, c: Claim)
    requires Good(s) && IsWriting(s, c)
    ensures Acting(s, c)
  {
    hide Rounds, InOrder, Writers, Drains, Reservations, Links, Retires, Owns, Tokens, SlotsOwned, WordHeld, RingShape,
      Election;
    assert ClientOk(c, s.clients[c], s.slots, s.epoch, s.claims);
  }

  /** Coming to rest never touches an entry that is committed. */
  lemma CloseKeepsEntry(s: State, c: Claim, j: nat)
    requires Writers(s) && RingShape(s.ring, s.head, s.tail) && Acting(s, c) && s.clients[c].write != Resting
    requires CanWrite(s, c, Closing(s.clients[c].write)) && InRing(s, j)
    ensures var n := Write(s, c, Closing(s.clients[c].write));
            |n.ring| > 0 && InRing(n, j) && At(n.ring, j) == At(s.ring, j)
  {
    hide At, Put, Write, ClaimAlive, SoleWriter, OneWriter;
    var w := Closing(s.clients[c].write);
    assert WriteOk(c, s.clients[c].write, s.ring, s.head, s.tail, s.epoch);
    WriteRing(s, c, w);
    WriteFrame(s, c, w);
  }

  /** What it does commit is the entry it stamped. */
  lemma CloseAdds(s: State, c: Claim, j: nat)
    requires Writers(s) && RingShape(s.ring, s.head, s.tail) && Acting(s, c) && s.clients[c].write != Resting
    requires CanWrite(s, c, Closing(s.clients[c].write))
    requires |Write(s, c, Closing(s.clients[c].write)).ring| > 0 && InRing(Write(s, c, Closing(s.clients[c].write)), j)
    ensures var n, x := Write(s, c, Closing(s.clients[c].write)), s.clients[c].write;
            || (InRing(s, j) && At(n.ring, j) == At(s.ring, j))
            || (x.Stamping? && At(n.ring, j).epoch == x.epoch)
  {
    hide At, Put, Write, ClaimAlive, SoleWriter, OneWriter;
    var w := Closing(s.clients[c].write);
    assert WriteOk(c, s.clients[c].write, s.ring, s.head, s.tail, s.epoch);
    WriteRing(s, c, w);
    WriteFrame(s, c, w);
  }

  lemma CloseKeepsFree(s: State, c: Claim, w: WriteOp, b: nat)
    requires Inv(s) && CanWrite(s, c, w) && !w.Alloc? && IsFree(s, b)
    ensures IsFree(Write(s, c, w), b)
  {
    hide Registered, Election, Rounds, RingShape, InOrder, Writers, Drains, Reservations, Links, Retires, Owns, Tokens,
      Write, CanWrite;
    WriteStaysFree(s, c, w, b);
  }

  lemma CloseKeepsSpent(s: State, c: Claim, b: nat)
    requires Inv(s) && Acting(s, c) && s.clients[c].write != Resting
    requires CanWrite(s, c, Closing(s.clients[c].write)) && Spent(s, b)
    ensures var n := Write(s, c, Closing(s.clients[c].write)); |n.ring| > 0 && Spent(n, b)
  {
    hide Registered, Election, Rounds, RingShape, InOrder, Writers, Drains, Reservations, Links, Retires, Owns, Tokens,
      Write, CanWrite, At;
    var w := Closing(s.clients[c].write);
    var n := Write(s, c, w);
    WriteFrame(s, c, w);
    if IsFree(s, b) {
      CloseKeepsFree(s, c, w, b);
    } else if exists j :: CommittedAt(s, b, j) {
      var j :| CommittedAt(s, b, j);
      CloseKeepsEntry(s, c, j);
      assert CommittedAt(n, b, j);
    } else {
      var q :| InHand(s, b, q);
      assert InHand(n, b, q);
    }
  }

  lemma CloseKeepsRecent(s: State, c: Claim, r: nat)
    requires Inv(s) && Acting(s, c) && s.clients[c].write != Resting && r < s.epoch + EPOCHS / 2
    requires CanWrite(s, c, Closing(s.clients[c].write)) && Recent(s, r)
    ensures var n := Write(s, c, Closing(s.clients[c].write)); |n.ring| > 0 && Recent(n, r)
  {
    hide Registered, Election, Rounds, RingShape, InOrder, Writers, Drains, Reservations, Links, Retires, Owns, Tokens,
      Write, CanWrite, At;
    var w := Closing(s.clients[c].write);
    var n := Write(s, c, w);
    WriteFrame(s, c, w);
    CanClose(s, c);
    forall j | InRing(n, j) ensures r < At(n.ring, j).epoch + EPOCHS / 2 {
      CloseAdds(s, c, j);
    }
    forall d | IsWriting(n, d) && n.clients[d].write.Stamping? ensures r < n.clients[d].write.epoch + EPOCHS / 2 {
      if d != c {
        assert IsWriting(s, d);
      }
    }
  }

  /** Nothing but writers has moved. */
  ghost predicate Wound(s: State, n: State) {
    n.threads == s.threads && n.epoch == s.epoch && n.barrier == s.barrier
  }

  lemma CloseOnward(s: State, c: Claim, r: nat)
    requires Good(s) && Acting(s, c) && s.clients[c].write != Resting && r < s.epoch + EPOCHS / 2
    requires CanWrite(s, c, Closing(s.clients[c].write))
    ensures var w := Closing(s.clients[c].write);
            Plays(s, [Writes(c, w)], Write(s, c, w)) && Onward(s, Write(s, c, w), r) && Wound(s, Write(s, c, w))
  {
    hide Plays, Registered, Election, Rounds, InOrder, Writers, Drains, Reservations, Links, Retires, Owns, Tokens,
      Write, CanWrite, Spent, Recent, SlotsOwned, WordHeld, RingShape;
    var w := Closing(s.clients[c].write);
    CanClose(s, c);
    WriteFrame(s, c, w);
    PlaysOne(s, Writes(c, w));
    StepKeepsInv(s, Writes(c, w));
    StepKeepsSlotsOwned(s, Writes(c, w));
    StepKeepsWordHeld(s, Writes(c, w));
    forall b | Spent(s, b) ensures Spent(Write(s, c, w), b) {
      CloseKeepsSpent(s, c, b);
    }
    if Recent(s, r) {
      CloseKeepsRecent(s, c, r);
    }
  }

  /** The writer can always come to rest. */
  lemma {:induction false} Rests(s: State, c: Claim, r: nat) returns (steps: seq<Step>, n: State)
    requires Good(s) && IsWriting(s, c) && r < s.epoch + EPOCHS / 2
    ensures Plays(s, steps, n) && Onward(s, n, r) && Wound(s, n) && forall d :: !IsWriting(n, d)
    decreases ToGo(s.clients[c].write)
  {
    hide Plays, Onward, Good, Write, CanWrite, At;
    WriterActs(s, c);
    GoodRing(s);
    CanClose(s, c);
    var w := Closing(s.clients[c].write);
    var m := Write(s, c, w);
    CloseOnward(s, c, r);
    OnwardGood(s, m, r);
    GoodRing(m);
    steps, n := [Writes(c, w)], m;
    WriteFrame(s, c, w);
    if IsWriting(m, c) {
      var b, k := Rests(m, c, r);
      PlaysThen(s, [Writes(c, w)], m, b, k);
      OnwardThen(s, m, k, r);
      steps, n := [Writes(c, w)] + b, k;
    } else {
      OnlyWriter(s, c);
      forall d | d != c ensures IsWriting(m, d) == IsWriting(s, d) {
      }
    }
  }

  lemma OnlyWriter(s: State, c: Claim)
    requires Good(s) && IsWriting(s, c)
    ensures forall d :: IsWriting(s, d) ==> d == c
  {
    hide Registered, Election, Rounds, InOrder, Drains, Reservations, Links, Retires, Owns, Tokens, SlotsOwned,
      WordHeld, RingShape, IsWriting, WriteOk;
  }

  // ---- winning the word ----

  /** A thread that wants the word while its owner is dead gets it. */
  lemma TakesOver(s: State, p: nat) returns (steps: seq<Step>, n: State)
    requires Good(s) && Live(s, p) && s.threads[p].lead == Idle
    requires s.barrier in s.clients && !s.clients[s.barrier].alive
    ensures Plays(s, steps, n) && steps == [Leads(p, See), Leads(p, Judge), Leads(p, Win)]
    ensures LedOn(s, n, p) && n.threads[p].lead == Elected && n.barrier == s.threads[p].claim && n.epoch == s.epoch
  {
    hide Plays, Rounds, InOrder, Writers, Drains, Reservations, Links, Retires, Owns, Tokens, SlotsOwned, WordHeld,
      RingShape, At, Put, Passes, Stops, Due, ClaimAlive, ClientOk;
    LiveActs(s, p);
    assert WasOpen(s, s.barrier);
    OwnerGone(s, s.barrier);
    AliveByRegistry(s, s.barrier);
    var a := Lead(s, p, See);
    SameAlive(s, a, s.barrier);
    var b := Lead(a, p, Judge);
    n := Lead(b, p, Win);
    PlaysOne(s, Leads(p, See));
    PlaysOne(a, Leads(p, Judge));
    PlaysOne(b, Leads(p, Win));
    PlaysThen(s, [Leads(p, See)], a, [Leads(p, Judge)], b);
    PlaysThen(s, [Leads(p, See)] + [Leads(p, Judge)], b, [Leads(p, Win)], n);
    steps := [Leads(p, See)] + [Leads(p, Judge)] + [Leads(p, Win)];
    Restored(s.threads, p, a.threads[p], b.threads[p], n.threads[p]);
  }

  lemma Restored(m: map<nat, Thread>, p: nat, x: Thread, y: Thread, z: Thread)
    ensures m[p := x][p := y][p := z] == m[p := z] && m[p := x][p := y] == m[p := y]
  {
  }

  lemma TakesFree(s: State, p: nat) returns (steps: seq<Step>, n: State)
    requires Good(s) && Live(s, p) && s.threads[p].lead == Idle && s.barrier == 0
    ensures Plays(s, steps, n) && steps == [Leads(p, See), Leads(p, Win)]
    ensures LedOn(s, n, p) && n.threads[p].lead == Elected && n.barrier == s.threads[p].claim && n.epoch == s.epoch
  {
    hide Plays, Rounds, InOrder, Writers, Drains, Reservations, Links, Retires, Owns, Tokens, SlotsOwned, WordHeld,
      RingShape, At, Put, Passes, Stops, Due, ClaimAlive, Registered;
    LiveActs(s, p);
    var a := Lead(s, p, See);
    n := Lead(a, p, Win);
    PlaysOne(s, Leads(p, See));
    PlaysOne(a, Leads(p, Win));
    PlaysThen(s, [Leads(p, See)], a, [Leads(p, Win)], n);
    steps := [Leads(p, See)] + [Leads(p, Win)];
    Restored(s.threads, p, a.threads[p], a.threads[p], n.threads[p]);
  }

  /** When nobody alive is in a round, any live thread that is idle can start one. */
  lemma Starts(s: State, p: nat, r: nat) returns (steps: seq<Step>, n: State)
    requires Good(s) && Live(s, p) && s.threads[p].lead == Idle && forall q :: !InRound(s, q)
    ensures Plays(s, steps, n) && Onward(s, n, r) && LedOn(s, n, p) && n.epoch == s.epoch + 1
    ensures n.threads[p].lead == Waiting(n.epoch, 0, {})
  {
    hide Plays, Good, Onward, At, Put, Passes, Stops, Due, ClaimAlive;
    var m;
    WordFree(s);
    if s.barrier == 0 {
      steps, m := TakesFree(s, p);
    } else {
      steps, m := TakesOver(s, p);
    }
    LeadsOnward(s, p, steps, m, r);
    OnwardGood(s, m, r);
    LiveActs(s, p);
    n := Lead(m, p, Bump);
    LeadOnward(m, p, Bump, r);
    PlaysThen(s, steps, m, [Leads(p, Bump)], n);
    OnwardThen(s, m, n, r);
    LedThen(s, m, n, p);
    steps := steps + [Leads(p, Bump)];
  }

  lemma WordFree(s: State)
    requires Good(s) && forall q :: !InRound(s, q)
    ensures s.barrier == 0 || (s.barrier in s.clients && !s.clients[s.barrier].alive)
  {
    hide Registered, Rounds, InOrder, Writers, Drains, Reservations, Links, Retires, Owns, Tokens, SlotsOwned, InRound,
      RingShape;
  }

  lemma {:induction false} LeadsOnward(s: State, p: nat, steps: seq<Step>, n: State, r: nat)
    requires Good(s) && Plays(s, steps, n) && forall i :: 0 <= i < |steps| ==> steps[i].Leads? && steps[i].p == p
    ensures Onward(s, n, r)
    decreases |steps|
  {
    hide Onward, Good, CanLead, Lead;
    GoodRing(s);
    if steps == [] {
      OnwardSelf(s, r);
    } else {
      LeadOnward(s, p, steps[0].l, r);
      OnwardGood(s, Lead(s, p, steps[0].l), r);
      LeadsOnward(Apply(s, steps[0]), p, steps[1..], n, r);
      OnwardThen(s, Apply(s, steps[0]), n, r);
    }
  }

  // ---- the whole round ----

  /** The ring, the boxes, the writers and what leaders hold are as they were. */
  ghost predicate SameStore(s: State, n: State) {
    && n.ring == s.ring && n.head == s.head && n.tail == s.tail && n.place == s.place && n.links == s.links
    && n.clients.Keys == s.clients.Keys
    && (forall c :: c in s.clients ==>
          && n.clients[c].alive == s.clients[c].alive && n.clients[c].stage == s.clients[c].stage
          && n.clients[c].write == s.clients[c].write)
    && forall b, q :: InHand(s, b, q) ==> InHand(n, b, q)
  }

  lemma StoreOnward(s: State, steps: seq<Step>, n: State, r: nat)
    requires Good(s) && Plays(s, steps, n) && SameStore(s, n)
    ensures Onward(s, n, r)
  {
    hide Plays, Good, InHand;
    PlaysGood(s, steps, n);
    GoodRing(s);
    forall b | Spent(s, b) ensures Spent(n, b) {
      if !IsFree(s, b) {
        if exists j :: CommittedAt(s, b, j) {
          var j :| CommittedAt(s, b, j);
          assert CommittedAt(n, b, j);
        } else {
          var q :| InHand(s, b, q);
          assert InHand(n, b, q);
        }
      }
    }
    if Recent(s, r) {
      forall j | InRing(n, j) ensures r < At(n.ring, j).epoch + EPOCHS / 2 {
        assert InRing(s, j);
      }
      forall c | IsWriting(n, c) && n.clients[c].write.Stamping? ensures r < n.clients[c].write.epoch + EPOCHS / 2 {
        assert IsWriting(s, c);
      }
    }
  }

  lemma SameRing(s: State, n: State)
    requires SameStore(s, n) && |s.ring| > 0
    ensures NoneAdded(s, n)
  {
  }

  lemma ViewedSame(s: State, n: State)
    requires AllViewed(s, n)
    ensures SameStore(s, n)
  {
  }

  lemma PassedSame(s: State, n: State, p: nat)
    requires p in s.threads && s.threads[p].lead.Waiting? && n == Led(s, p, Draining(s.threads[p].lead.r, s.head))
    ensures SameStore(s, n)
  {
  }

  lemma SameWriters(s: State, n: State)
    requires SameStore(s, n) && forall c :: !IsWriting(s, c)
    ensures forall c :: !IsWriting(n, c)
  {
    forall c ensures !IsWriting(n, c) {
      assert !IsWriting(s, c);
    }
  }

  /** From the start of a round to its drain: everybody acks, and every slot passes. */
  lemma ReachesDrain(s: State, p: nat, r: nat) returns (steps: seq<Step>, n: State)
    requires Good(s) && Live(s, p) && s.threads[p].lead == Waiting(s.epoch, 0, {})
    requires forall c :: !IsWriting(s, c)
    ensures Plays(s, steps, n) && Onward(s, n, r) && n.epoch == s.epoch && AtDrain(n, p, n.head)
    ensures n.threads[p].lead.r == s.epoch && |s.ring| > 0 && |n.ring| > 0 && NoneAdded(s, n)
    ensures forall c :: !IsWriting(n, c)
  {
    hide Plays, Good, Onward, At, Put, ClaimAlive, Stops, Due, Passes, SameStore, IsWriting;
    GoodRing(s);
    LiveActs(s, p);
    var todo := set c | c in s.clients && s.clients[c].alive && s.clients[c].stage == Open;
    forall c | c in todo ensures Acting(s, c) {
      GoodSlot(s, c);
    }
    var a, m := CatchUpAll(s, todo);
    ViewedSame(s, m);
    StoreOnward(s, a, m, r);
    SameWriters(s, m);
    OnwardGood(s, m, r);
    GoodPasses(m);
    var b, k := PassAll(m, p);
    PlaysThen(s, a, m, b, k);
    PassedSame(m, k, p);
    StoreOnward(m, b, k, r);
    SameWriters(m, k);
    OnwardThen(s, m, k, r);
    SameRing(s, m);
    SameRing(m, k);
    steps, n := a + b, k;
  }

  lemma GoodSlot(s: State, c: Claim)
    requires Good(s) && c in s.clients
    ensures s.clients[c].slot < |s.slots|
  {
    hide Rounds, InOrder, Writers, Drains, Reservations, Links, Retires, Owns, Tokens, SlotsOwned, WordHeld, RingShape,
      Election;
    assert ClientOk(c, s.clients[c], s.slots, s.epoch, s.claims);
  }

  lemma GoodPasses(s: State)
    requires Good(s)
    requires forall c :: c in s.clients && s.clients[c].alive && s.clients[c].stage == Open ==>
      s.clients[c].slot < |s.slots| && s.slots[s.clients[c].slot].ack == s.epoch
    ensures forall i :: 0 <= i < |s.slots| ==> Passes(s, i, s.epoch, {})
  {
    hide Rounds, InOrder, Writers, Drains, Reservations, Links, Retires, Owns, Tokens, SlotsOwned, WordHeld, RingShape,
      Election, Registered, Passes;
    CaughtUpPasses(s, s.epoch);
  }

  // ---- nothing is stuck ----

  /** Where nobody writes and no entry is too old, a drain only stops at the end of the ring. */
  lemma StopsAtEnd(s: State, r: nat)
    requires Good(s) && |s.ring| > 0 && Stops(s, r, s.head) && Recent(s, r) && Older(s, r)
    requires forall c :: !IsWriting(s, c)
    ensures s.head >= s.tail
  {
    hide Registered, Rounds, InOrder, Writers, Drains, Links, Retires, Owns, Tokens, SlotsOwned, WordHeld, Election, At;
    var e := At(s.ring, s.head);
    assert s.head < s.tail && e.meta.Reserved? ==>
        Reserves(s, e.meta.claim, s.head) && !IsWriting(s, e.meta.claim);
    assert s.head < s.tail && e.meta.Committed? ==> InRing(s, s.head);
  }

  ghost predicate Older(s: State, r: nat)
    requires |s.ring| > 0
  {
    forall j :: InRing(s, j) ==> At(s.ring, j).epoch < r
  }

  lemma GoodOlder(s: State)
    requires Good(s)
    ensures |s.ring| > 0 && Older(s, s.epoch + 1)
  {
    hide Registered, Rounds, Writers, Reservations, Drains, Links, Retires, Owns, Tokens, SlotsOwned, WordHeld,
      Election, At;
  }

  lemma StaysOlder(s: State, n: State, r: nat)
    requires |s.ring| > 0 && |n.ring| > 0 && NoneAdded(s, n) && Older(s, r)
    ensures Older(n, r)
  {
    hide At;
  }

  /** With the ring empty and no leader about, what was spent is free. */
  lemma SpentIsFree(s: State, b: nat)
    requires |s.ring| > 0 && s.head >= s.tail && Spent(s, b) && forall p :: !InRound(s, p)
    ensures IsFree(s, b)
  {
    hide At;
    forall j ensures !CommittedAt(s, b, j) {
    }
    forall p ensures !InHand(s, b, p) {
      assert !InRound(s, p);
    }
  }

  /** First whoever writes comes to rest. */
  lemma Quietens(s: State, r: nat) returns (steps: seq<Step>, n: State)
    requires Good(s) && r < s.epoch + EPOCHS / 2
    ensures Plays(s, steps, n) && Onward(s, n, r) && Wound(s, n) && forall c :: !IsWriting(n, c)
  {
    hide Plays, Onward, Good, IsWriting;
    if exists c :: IsWriting(s, c) {
      var c :| IsWriting(s, c);
      steps, n := Rests(s, c, r);
    } else {
      PlaysNone(s);
      GoodRing(s);
      OnwardSelf(s, r);
      steps, n := [], s;
    }
  }

  /** Then whoever leads a round ends it. */
  lemma Vacates(s: State, r: nat) returns (steps: seq<Step>, n: State)
    requires Good(s) && forall c :: !IsWriting(s, c)
    ensures Plays(s, steps, n) && Onward(s, n, r) && n.epoch == s.epoch && n.clients == s.clients
    ensures n.threads.Keys == s.threads.Keys && forall p :: p in s.threads ==> n.threads[p].claim == s.threads[p].claim
    ensures (forall p :: !InRound(n, p)) && forall c :: !IsWriting(n, c)
  {
    hide Plays, Onward, Good, InRound;
    if exists q :: InRound(s, q) {
      var q :| InRound(s, q);
      steps, n := EndsRound(s, q, r);
      AloneInRound(s, n, q);
      forall c ensures IsWriting(n, c) == IsWriting(s, c) {
      }
    } else {
      PlaysNone(s);
      GoodRing(s);
      OnwardSelf(s, r);
      steps, n := [], s;
    }
  }

  lemma AloneInRound(s: State, n: State, q: nat)
    requires Good(s) && InRound(s, q) && LedOn(s, n, q) && n.threads[q].lead == Idle
    ensures forall p :: !InRound(n, p)
  {
    hide Registered, Rounds, InOrder, Writers, Drains, Reservations, Links, Retires, Owns, Tokens, SlotsOwned, WordHeld,
      RingShape, LeadOk, NoneAdded;
    forall p ensures !InRound(n, p) {
      assert p != q ==> (InRound(n, p) ==> InRound(s, p));
    }
  }

  /** A thread that has seen the word can think better of it. */
  lemma Desists(s: State, p: nat, r: nat) returns (steps: seq<Step>, n: State)
    requires Good(s) && Live(s, p) && forall q :: !InRound(s, q)
    ensures Plays(s, steps, n) && Onward(s, n, r) && LedOn(s, n, p) && n.epoch == s.epoch
    ensures n.threads[p].lead == Idle && forall q :: !InRound(n, q)
  {
    hide Plays, Onward, Good, At, Put, Passes, Stops, Due, ClaimAlive, NoneAdded;
    GoodRing(s);
    assert !InRound(s, p);
    if s.threads[p].lead == Idle {
      PlaysNone(s);
      OnwardSelf(s, r);
      LedSelf(s, p);
      steps, n := [], s;
    } else {
      LiveActs(s, p);
      LeadOnward(s, p, Lose, r);
      steps, n := [Leads(p, Lose)], Lead(s, p, Lose);
    }
    forall q ensures !InRound(n, q) {
      assert !InRound(s, q);
    }
  }

  /** A whole round when nobody is in the way: the ring is emptied. */
  lemma Sweeps(s: State, p: nat) returns (steps: seq<Step>, n: State)
    requires Good(s) && Live(s, p) && s.threads[p].lead == Idle && |s.ring| > 0 && Recent(s, s.epoch + 1)
    requires (forall q :: !InRound(s, q)) && forall c :: !IsWriting(s, c)
    ensures Plays(s, steps, n) && Onward(s, n, s.epoch + 1) && n.head >= n.tail && forall q :: !InRound(n, q)
  {
    hide Plays, Onward, Good, At, Put, Passes, Stops, Due, ClaimAlive, NoneAdded, Recent, Older, IsWriting, InRound;
    var r := s.epoch + 1;
    GoodOlder(s);
    var a, m := Starts(s, p, r);
    OnwardGood(s, m, r);
    StaysOlder(s, m, r);
    SameIdle(s, m, p);
    var b, k := ReachesDrain(m, p, r);
    OnwardGood(m, k, r);
    PlaysThen(s, a, m, b, k);
    OnwardThen(s, m, k, r);
    StaysOlder(m, k, r);
    var c, l := DrainsUp(k, p, r);
    OnwardGood(k, l, r);
    PlaysThen(s, a + b, k, c, l);
    OnwardThen(s, k, l, r);
    StaysOlder(k, l, r);
    OnwardRecent(s, l, r);
    SameIdle(k, l, p);
    StopsAtEnd(l, r);
    n := Lead(l, p, Release);
    LeadOnward(l, p, Release, r);
    LeadEffect(l, p, Release);
    PlaysThen(s, a + b + c, l, [Leads(p, Release)], n);
    OnwardThen(s, l, n, r);
    ReleasedAlone(l, p);
    steps := a + b + c + [Leads(p, Release)];
  }

  lemma OnwardRecent(s: State, n: State, r: nat)
    requires Onward(s, n, r) && |s.ring| > 0 && Recent(s, r)
    ensures |n.ring| > 0 && Recent(n, r)
  {
    OnwardGood(s, n, r);
  }

  /** A leader's steps leave the writers alone. */
  lemma SameIdle(s: State, n: State, p: nat)
    requires LedOn(s, n, p) && forall c :: !IsWriting(s, c)
    ensures (forall c :: !IsWriting(n, c)) && (Live(s, p) ==> Live(n, p))
  {
    hide NoneAdded;
    forall c ensures !IsWriting(n, c) {
      assert !IsWriting(s, c);
    }
  }

  lemma ReleasedAlone(s: State, p: nat)
    requires Good(s) && |s.ring| > 0 && CanLead(s, p, Release)
    ensures forall q :: !InRound(Lead(s, p, Release), q)
  {
    hide Good, At, Put, ClaimAlive, Stops, Passes, Due, NoneAdded;
    LeadOnward(s, p, Release, 0);
    AloneInRound(s, Lead(s, p, Release), p);
  }

  /** From a state of a run: the writer rests, the round under way ends, and a round of thread p empties the ring. */
  lemma CanEmpty(s: State, p: nat) returns (steps: seq<Step>, n: State)
    requires Good(s) && Live(s, p) && |s.ring| > 0 && Recent(s, s.epoch + 1)
    ensures Plays(s, steps, n) && Onward(s, n, s.epoch + 1) && n.head >= n.tail && forall q :: !InRound(n, q)
  {
    hide Plays, Onward, Good, Recent, IsWriting, InRound, NoneAdded;
    var r := s.epoch + 1;
    var a, m := Quietens(s, r);
    OnwardGood(s, m, r);
    OnwardLive(s, m, p, r);
    var b, k := Vacates(m, r);
    OnwardGood(m, k, r);
    PlaysThen(s, a, m, b, k);
    OnwardThen(s, m, k, r);
    var c, l := Desists(k, p, r);
    OnwardGood(k, l, r);
    PlaysThen(s, a + b, k, c, l);
    OnwardThen(s, k, l, r);
    SameIdle(k, l, p);
    OnwardRecent(s, l, r);
    var d, f := Sweeps(l, p);
    PlaysThen(s, a + b + c, l, d, f);
    OnwardThen(s, l, f, r);
    steps, n := a + b + c + d, f;
  }

  lemma OnwardLive(s: State, n: State, p: nat, r: nat)
    requires Onward(s, n, r) && n.threads == s.threads && Live(s, p)
    ensures Live(n, p)
  {
    hide Good, Spent, Recent;
  }

  /** No run can get into a state from which garbage cannot be freed: as long as one process is alive that may lead, and
      no entry is half the range of epochs old, the run can go on, with nobody dying and no key changing, until every
      box is free that was in the ring or in the hands of a live leader. */
  lemma NothingStuck(states: seq<State>, steps: seq<Step>, p: nat) returns (states': seq<State>, steps': seq<Step>)
    requires Run(states, steps) && Live(states[|steps|], p)
    requires |states[|steps|].ring| > 0 && Recent(states[|steps|], states[|steps|].epoch + 1)
    ensures Run(states', steps') && steps <= steps' && states <= states'
    ensures var s, n := states[|steps|], states'[|steps'|];
            && n.head == n.tail && n.links == s.links
            && (forall c :: c in s.clients ==> c in n.clients && n.clients[c].alive == s.clients[c].alive)
            && forall b :: Spent(s, b) ==> IsFree(n, b)
  {
    hide Init, Enabled, Apply, Plays, Good, Spent, Recent, InRound;
    var s := states[|steps|];
    RunGood(states, steps, |steps|);
    var more, n := CanEmpty(s, p);
    OnwardGood(s, n, s.epoch + 1);
    GoodRing(n);
    states', steps' := RunGoesOn(states, steps, more, n);
    forall b | Spent(s, b) ensures IsFree(n, b) {
      SpentIsFree(n, b);
    }
  }
}
