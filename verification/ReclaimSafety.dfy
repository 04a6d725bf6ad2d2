/** What holds in every run of the reclamation protocol, whatever the interleaving and whoever dies. */
module ReclaimSafety {
  import opened Reclaim
  import opened ReclaimInv
  import opened ReclaimSteps

  lemma StepKeepsInv(s: State, step: Step)
    requires Inv(s) && Enabled(s, step)
    ensures Inv(Apply(s, step))
  {
    hide Registered, Election, Rounds, RingShape, InOrder, Writers, Drains, Reservations, Links, Retires, Owns, Tokens;
    match step
    case Registry(r) =>
      RegistryKeepsRegistered(s, r); RegistryKeepsElection(s, r);
      RegistryKeepsRounds(s, r); RegistryKeepsRingShape(s, r);
      RegistryKeepsInOrder(s, r); RegistryKeepsWriters(s, r);
      RegistryKeepsDrains(s, r); RegistryKeepsReservations(s, r);
      RegistryKeepsLinks(s, r); RegistryKeepsRetires(s, r);
      RegistryKeepsOwns(s, r); RegistryKeepsTokens(s, r);
    case View(c, v) =>
      ViewKeepsRegistered(s, c, v); ViewKeepsElection(s, c, v);
      ViewKeepsRounds(s, c, v); ViewKeepsRingShape(s, c, v);
      ViewKeepsInOrder(s, c, v); ViewKeepsWriters(s, c, v);
      ViewKeepsDrains(s, c, v); ViewKeepsReservations(s, c, v);
      ViewKeepsLinks(s, c, v); ViewKeepsRetires(s, c, v);
      ViewKeepsOwns(s, c, v); ViewKeepsTokens(s, c, v);
    case Writes(c, w) =>
      WriteKeepsRegistered(s, c, w); WriteKeepsElection(s, c, w);
      WriteKeepsRounds(s, c, w); WriteKeepsRingShape(s, c, w);
      WriteKeepsInOrder(s, c, w); WriteKeepsWriters(s, c, w);
      WriteKeepsDrains(s, c, w); WriteKeepsReservations(s, c, w);
      WriteKeepsLinks(s, c, w); WriteKeepsRetires(s, c, w);
      WriteKeepsOwns(s, c, w); WriteKeepsTokens(s, c, w);
    case Leads(p, l) =>
      LeadKeepsRegistered(s, p, l); LeadKeepsElection(s, p, l);
      LeadKeepsRounds(s, p, l); LeadKeepsRingShape(s, p, l);
      LeadKeepsInOrder(s, p, l); LeadKeepsWriters(s, p, l);
      LeadKeepsDrains(s, p, l); LeadKeepsReservations(s, p, l);
      LeadKeepsLinks(s, p, l); LeadKeepsRetires(s, p, l);
      LeadKeepsOwns(s, p, l); LeadKeepsTokens(s, p, l);
  }

  // ---- runs ----

  /** A new store: nobody registered, nothing linked, the ring empty, every box free. */
  predicate Init(s: State) {
    && s.claims == 0 && s.barrier == 0 && s.clients == map[] && s.threads == map[] && s.head == s.tail == 0 &&
        s.links == map[] &&
        |s.ring| > 0
    && (forall i :: 0 <= i < |s.slots| ==> s.slots[i].state == Vacant)
    && (forall i :: 0 <= i < |s.ring| ==> s.ring[i].meta == Empty)
    && (forall b :: b in s.place ==> s.place[b] == Free)
  }

  ghost predicate Run(states: seq<State>, steps: seq<Step>) {
    && |states| == |steps| + 1 && Init(states[0])
    && forall i :: 0 <= i < |steps| ==>
        |states[i].ring| > 0 && Enabled(states[i], steps[i]) && states[i + 1] == Apply(states[i], steps[i])
  }

  lemma InitInv(s: State)
    requires Init(s)
    ensures Inv(s)
  {
  }

  lemma {:induction false} RunInv(states: seq<State>, steps: seq<Step>, i: nat)
    requires Run(states, steps) && i < |states|
    ensures Inv(states[i])
  {
    hide Init, Inv, Enabled, Apply;
    if i == 0 {
      InitInv(states[0]);
    } else {
      RunInv(states, steps, i - 1);
      StepKeepsInv(states[i - 1], steps[i - 1]);
    }
  }

  // ---- what runs cannot do ----

  /** The step gives box b back to the allocator. */
  predicate Frees(s: State, step: Step, b: nat)
    requires |s.ring| > 0 && Enabled(s, step)
  {
    match step
    case Leads(p, FreeBox) => s.threads[p].lead.box == b
    case Writes(c, Discard) => s.clients[c].write.box == b
    case _ => false
  }

  predicate Reuses(step: Step, b: nat) {
    step.Writes? && step.w == Alloc(b)
  }

  /** A box that a live process holds a token for is neither freed nor handed out again. */
  lemma HeldBoxesStay(states: seq<State>, steps: seq<Step>, i: nat, c: Claim, k: Token)
    requires Run(states, steps) && i < |steps|
    requires c in states[i].clients && states[i].clients[c].alive && k in states[i].clients[c].tokens
    ensures !Frees(states[i], steps[i], k.box) && !Reuses(steps[i], k.box)
    ensures k.box in states[i].place && Held(states[i].place[k.box], k.born)
  {
    hide Init, Apply, Registered, Election, Rounds, RingShape, InOrder, Drains, Reservations, Links, Retires;
    RunInv(states, steps, i);
    assert TokensHeld(states[i].clients[c].tokens, states[i].place);
  }

  /** Between two times a box is freed it has been allocated again. */
  lemma FreedOnce(states: seq<State>, steps: seq<Step>, i: nat, j: nat, b: nat)
    requires Run(states, steps) && i < j < |steps| && Frees(states[i], steps[i], b) && Frees(states[j], steps[j], b)
    ensures exists m :: i < m < j && Reuses(steps[m], b)
  {
    hide Init, Inv, Enabled, Apply, Frees, Reuses;
    RunInv(states, steps, i);
    FreesIt(states[i], steps[i], b);
    var m := i + 1;
    while m < j && !Reuses(steps[m], b)
      invariant i < m <= j && b in states[m].place && states[m].place[b] == Free
    {
      RunInv(states, steps, m);
      StaysFree(states[m], steps[m], b);
      m := m + 1;
    }
    RunInv(states, steps, m);
    if m == j {
      FreesOnlyTaken(states[j], steps[j], b);
    }
  }

  lemma FreesIt(s: State, step: Step, b: nat)
    requires Inv(s) && Enabled(s, step) && Frees(s, step, b)
    ensures b in Apply(s, step).place && Apply(s, step).place[b] == Free
  {
  }

  lemma FreesOnlyTaken(s: State, step: Step, b: nat)
    requires Inv(s) && Enabled(s, step) && Frees(s, step, b)
    ensures b in s.place && s.place[b] != Free
  {
    hide Registered, Election, Rounds, RingShape, InOrder, Writers, Drains, Reservations, Links, Retires, Tokens;
  }

  lemma StaysFree(s: State, step: Step, b: nat)
    requires Inv(s) && Enabled(s, step) && b in s.place && s.place[b] == Free && !Reuses(step, b)
    ensures b in Apply(s, step).place && Apply(s, step).place[b] == Free
  {
    hide Registered, Election, Rounds, RingShape, InOrder, Writers, Drains, Reservations, Tokens, Links, Retires,
      Owns, At, Put;
    if step.Writes? {
      WriteStaysFree(s, step.c, step.w, b);
    } else if step.Leads? {
      LeadStaysFree(s, step.p, step.l, b);
    }
  }

  lemma WriteStaysFree(s: State, c: Claim, w: WriteOp, b: nat)
    requires |s.ring| > 0 && Owns(s) && Links(s) && CanWrite(s, c, w) && b in s.place && s.place[b] == Free
    requires w != Alloc(b)
    ensures b in Write(s, c, w).place && Write(s, c, w).place[b] == Free
  {
    hide At, Put;
  }

  lemma LeadStaysFree(s: State, p: nat, l: LeadOp, b: nat)
    requires Owns(s) && Retires(s) && Drains(s) && CanLead(s, p, l) && b in s.place && s.place[b] == Free
    ensures b in Lead(s, p, l).place && Lead(s, p, l).place[b] == Free
  {
    hide At, Put, Lead, ClaimAlive, Passes, Stops, Due;
    LeadEffect(s, p, l);
    assert Live(s, p) && DrainOk(s.threads[p].lead, s.ring, s.head, s.tail);
  }

  /** At most one live thread is between winning the election and giving the word back, and the word names its
      process. */
  lemma OneLeader(states: seq<State>, steps: seq<Step>, i: nat, p: nat, q: nat)
    requires Run(states, steps) && i < |states|
    requires InRound(states[i], p) && InRound(states[i], q)
    ensures p == q && states[i].barrier == states[i].threads[p].claim
  {
    hide Init, Apply, Registered, Rounds, RingShape, InOrder, Writers, Drains, Reservations, Links, Retires, Owns,
      Tokens;
    RunInv(states, steps, i);
    assert LeadOk(states[i], states[i].threads[p]);
  }

  /** The window never overflows, what is outside it is empty, and committed epochs rise along it. */
  lemma RingHolds(states: seq<State>, steps: seq<Step>, i: nat)
    requires Run(states, steps) && i < |states|
    ensures RingShape(states[i].ring, states[i].head, states[i].tail)
    ensures InOrder(states[i].ring, states[i].head, states[i].tail, states[i].epoch)
  {
    hide Init, Apply, Registered, Election, Rounds, RingShape, InOrder, Writers, Drains, Reservations, Links,
      Retires, Owns, Tokens;
    RunInv(states, steps, i);
  }

  /** When a drain ends, nothing committed before its round is left, unless a live writer's reservation comes first
      or the entry at head has been waiting for half the range of epochs. */
  lemma DrainComplete(states: seq<State>, steps: seq<Step>, i: nat, p: nat, j: nat)
    requires Run(states, steps) && i < |steps| && steps[i] == Leads(p, Finish) && |states[i].ring| > 0
    requires states[i].head <= j < states[i].tail && At(states[i].ring, j).meta.Committed?
    requires At(states[i].ring, j).epoch < states[i].epoch
    ensures var s, first := states[i], At(states[i].ring, states[i].head);
            || (first.meta.Reserved? && ClaimAlive(s, first.meta.claim))
            || (first.meta.Committed? && first.epoch + EPOCHS / 2 <= s.epoch)
  {
    hide Init, Apply, Registered, Election, RingShape, Writers, Reservations, Links, Retires, Owns, Tokens, At;
    RunInv(states, steps, i);
    var s := states[i];
    assert Live(s, p) && RoundOk(s, s.threads[p].lead) && DrainOk(s.threads[p].lead, s.ring, s.head, s.tail);
    var e := At(s.ring, s.head).epoch;
    assert At(s.ring, s.head).meta.Committed? ==> e <= At(s.ring, j).epoch < s.epoch;
    assert At(s.ring, s.head).meta.Committed? && s.epoch < e + EPOCHS / 2 ==> Due(s.epoch, e);
  }

  /** The bound is real: between half and the whole range behind its round, a committed entry is never taken and the
      drain stops at it. */
  lemma DrainStalls(s: State, p: nat, r: nat, at: nat)
    requires |s.ring| > 0 && p in s.threads && Acting(s, s.threads[p].claim) && s.threads[p].lead == Draining(r, at)
    requires at < s.tail && At(s.ring, at).meta.Committed? && At(s.ring, at).epoch < r < At(s.ring, at).epoch + EPOCHS
    ensures CanLead(s, p, Finish) <==> At(s.ring, at).epoch + EPOCHS / 2 <= r
    ensures CanLead(s, p, Take) <==> r < At(s.ring, at).epoch + EPOCHS / 2
  {
    hide At;
    var d := r - At(s.ring, at).epoch;
    assert d % EPOCHS == d;
  }

  /** A writer at rest has left no reservation in the ring: only a death can. */
  lemma NoReservationLeft(states: seq<State>, steps: seq<Step>, i: nat, c: Claim, j: nat)
    requires Run(states, steps) && i < |states| && |states[i].ring| > 0
    requires c in states[i].clients && states[i].clients[c].alive && states[i].clients[c].write == Resting
    requires states[i].head <= j < states[i].tail
    ensures At(states[i].ring, j).meta != Reserved(c)
  {
    hide Init, Apply, Registered, Election, Rounds, InOrder, Writers, Drains, Links, Retires, Owns, Tokens, At;
    RunInv(states, steps, i);
  }

  /** Linked boxes, committed boxes and free boxes are pairwise different, and no box is linked or committed twice. */
  lemma BoxesApart(states: seq<State>, steps: seq<Step>, i: nat)
    requires Run(states, steps) && i < |states|
    ensures |states[i].ring| > 0
    ensures forall x, y :: x in states[i].links && y in states[i].links && x != y ==>
      states[i].links[x] != states[i].links[y]
    ensures forall x :: x in states[i].links ==> !IsFree(states[i], states[i].links[x])
    ensures forall j :: InRing(states[i], j) ==>
              !IsFree(states[i], At(states[i].ring, j).off)
              && forall x :: x in states[i].links ==> states[i].links[x] != At(states[i].ring, j).off
    ensures forall j, k :: InRing(states[i], j) && InRing(states[i], k) && j != k ==>
              At(states[i].ring, j).off != At(states[i].ring, k).off
  {
    hide Init, Apply, Registered, Election, Rounds, RingShape, InOrder, Writers, Drains, Reservations, Owns, Tokens, At;
    RunInv(states, steps, i);
  }

  predicate IsFree(s: State, b: nat) {
    b in s.place && s.place[b] == Free
  }

  /** Index j of the ring holds a committed entry. */
  predicate InRing(s: State, j: nat)
    requires |s.ring| > 0
  {
    s.head <= j < s.tail && At(s.ring, j).meta.Committed?
  }

  /** The 32-bit test agrees with the true order while epochs are less than half the range apart. */
  lemma DueIsLater(r: nat, e: nat)
    requires r < e + EPOCHS / 2 && e < r + EPOCHS / 2
    ensures Due(r, e) <==> e < r
    ensures Due(r % EPOCHS, e % EPOCHS) <==> e < r
  {
    var a, b := r / EPOCHS, e / EPOCHS;
    assert r % EPOCHS - e % EPOCHS == r - e - EPOCHS * (a - b);
  }
}
