/** What every reachable state of the reclamation protocol satisfies. */
module ReclaimInv {
  import opened Bytes
  import opened Reclaim

  // ---- registry ----

  /** A client's slot is its own, and its tokens are no older than what it has acked. */
  ghost predicate ClientOk(c: Claim, x: Client, slots: seq<Slot>, epoch: nat, claims: nat) {
    && 1 <= c <= claims && x.slot < |slots| && x.seen <= epoch && (x.loaded.Some? ==> x.loaded.value <= epoch)
    && (x.stage != Open ==> x.tokens == {} && x.loaded == None && x.write == Resting)
    && (x.alive ==>
          && slots[x.slot].owner == c && slots[x.slot].state == (if x.stage == Open then Mine else Claiming)
          && (x.stage != Claimed ==> slots[x.slot].ack <= epoch)
          && (x.stage == Open && slots[x.slot].quiet ==> x.tokens == {})
          && (forall k :: k in x.tokens ==> x.seen <= k.born <= epoch && slots[x.slot].ack <= k.born))
  }

  ghost predicate Registered(s: State) {
    |s.ring| > 0 && forall c :: c in s.clients ==> ClientOk(c, s.clients[c], s.slots, s.epoch, s.claims)
  }

  // ---- election ----

  predicate WasOpen(s: State, c: Claim) {
    c == 0 || (c in s.clients && s.clients[c].stage == Open)
  }

  /** The thread belongs to a process that is alive. */
  predicate Live(s: State, p: nat) {
    p in s.threads && s.threads[p].claim in s.clients && s.clients[s.threads[p].claim].alive
  }

  /** Between winning the election and giving the word back. */
  predicate IsLeading(l: Leading) {
    !l.Idle? && !l.Saw? && !l.Judged?
  }

  ghost predicate LeadOk(s: State, x: Thread) {
    && x.claim in s.clients && s.clients[x.claim].stage == Open
    && match x.lead
       case Idle => true
       case Saw(cur) => WasOpen(s, cur)
       case Judged(cur) => WasOpen(s, cur) && (cur != 0 ==> !s.clients[cur].alive)
       case _ => s.clients[x.claim].alive ==> s.barrier == x.claim
  }

  predicate InRound(s: State, p: nat) {
    Live(s, p) && IsLeading(s.threads[p].lead)
  }

  /** The election word names the process of a live thread in its round, and only one live thread is in one. */
  ghost predicate Election(s: State) {
    && WasOpen(s, s.barrier)
    && (forall p :: p in s.threads ==> LeadOk(s, s.threads[p]))
    && (forall p, q :: InRound(s, p) && InRound(s, q) ==> p == q)
  }

  // ---- rounds ----

  predicate Since(tokens: set<Token>, r: nat) {
    forall k :: k in tokens ==> r <= k.born
  }

  function RoundOf(l: Leading): Option<nat> {
    match l
    case Waiting(r, _, _) => Some(r)
    case Draining(r, _) => Some(r)
    case Skipping(r, _) => Some(r)
    case Dropping(r, _, _) => Some(r)
    case Freeing(r, _, _) => Some(r)
    case _ => None
  }

  /** The slots the leader is done with. */
  predicate Cleared(l: Leading, slot: nat) {
    l.Waiting? ==> slot < l.next || slot in l.dead
  }

  /** In round r the epoch is r, and whoever has been cleared holds no token from before r. */
  ghost predicate RoundOk(s: State, l: Leading) {
    RoundOf(l).Some? ==>
      && RoundOf(l).value == s.epoch && (l.Waiting? ==> l.next <= |s.slots|)
      && forall d :: d in s.clients && s.clients[d].alive && Cleared(l, s.clients[d].slot) ==>
          Since(s.clients[d].tokens, s.epoch)
  }

  ghost predicate Rounds(s: State) {
    forall p :: Live(s, p) ==> RoundOk(s, s.threads[p].lead)
  }

  // ---- the ring ----

  ghost predicate RingShape(ring: seq<Entry>, head: nat, tail: nat) {
    && |ring| > 0 && head <= tail <= head + |ring|
    && forall i {:trigger At(ring, i)} :: tail <= i < head + |ring| ==>
        At(ring, i).meta == Empty || (i == tail && At(ring, i).meta.Reserved?)
  }

  /** Committed entries carry epochs that have passed, in order. */
  ghost predicate InOrder(ring: seq<Entry>, head: nat, tail: nat, epoch: nat)
    requires |ring| > 0
  {
    && (forall i :: head <= i < tail && At(ring, i).meta.Committed? ==> At(ring, i).epoch <= epoch)
    && (forall i, j :: head <= i < j < tail && At(ring, i).meta.Committed? && At(ring, j).meta.Committed? ==>
          At(ring, i).epoch <= At(ring, j).epoch)
  }

  ghost predicate WriteOk(c: Claim, w: Writing, ring: seq<Entry>, head: nat, tail: nat, epoch: nat)
    requires |ring| > 0
  {
    && (w.Looked? ==> w.head <= head)
    && (w.Marked? ==> tail < head + |ring| && At(ring, tail).meta == Reserved(c))
    && (Reservation(w).Some? ==>
          head <= Reservation(w).value && Reservation(w).value + 1 == tail &&
              At(ring, Reservation(w).value).meta == Reserved(c))
    && (w.Stamping? ==>
          && At(ring, w.idx).off == w.box && At(ring, w.idx).epoch == w.epoch <= epoch
          && forall i :: head <= i < tail && At(ring, i).meta.Committed? ==> At(ring, i).epoch <= w.epoch)
  }

  predicate IsWriting(s: State, c: Claim) {
    c in s.clients && s.clients[c].alive && s.clients[c].write != Resting
  }

  ghost predicate OneWriter(s: State) {
    forall c, d :: IsWriting(s, c) && IsWriting(s, d) ==> c == d
  }

  ghost predicate Writers(s: State) {
    |s.ring| > 0 && OneWriter(s) &&
    forall c :: c in s.clients && s.clients[c].alive ==> WriteOk(c, s.clients[c].write, s.ring, s.head, s.tail, s.epoch)
  }

  ghost predicate DrainOk(l: Leading, ring: seq<Entry>, head: nat, tail: nat)
    requires |ring| > 0
  {
    match l
    case Draining(_, at) => at == head
    case Skipping(_, at) => at == head < tail && At(ring, at).meta == Empty
    case Dropping(_, at, _) => at == head < tail && At(ring, at).meta == Empty
    case Freeing(_, at, _) => at + 1 == head
    case _ => true
  }

  ghost predicate Drains(s: State) {
    |s.ring| > 0 && forall p :: Live(s, p) ==> DrainOk(s.threads[p].lead, s.ring, s.head, s.tail)
  }

  /** Client d accounts for a reservation at index i: its operation is under way, or it has died. */
  predicate Reserves(s: State, d: Claim, i: nat) {
    d in s.clients && (s.clients[d].alive ==>
        Reservation(s.clients[d].write) == Some(i) || (s.clients[d].write == Marked && i == s.tail))
  }

  /** A reservation in the ring belongs to an operation under way, or its writer has died. */
  ghost predicate Reservations(s: State) {
    |s.ring| > 0 &&
    forall i {:trigger At(s.ring, i)} ::
      s.head <= i <= s.tail && i < s.head + |s.ring| && At(s.ring, i).meta.Reserved? ==>
        Reserves(s, At(s.ring, i).meta.claim, i)
  }

  // ---- boxes ----

  ghost predicate BoxesOf(w: Writing, place: map<nat, Place>) {
    && (w.Ready? ==> w.box in place && place[w.box] == Fresh)
    && (w.Detached? ==> w.box in place && place[w.box] == Unlinked)
    && (w.Stamping? ==> w.box in place && place[w.box] == Stamped(w.epoch))
  }

  /** The box a leader has taken out of the ring. */
  ghost predicate BoxOf(l: Leading, place: map<nat, Place>) {
    l.Dropping? || l.Freeing? ==> l.box in place && place[l.box] == Taken
  }

  /** A linked box is linked by one node. */
  ghost predicate Links(s: State) {
    forall k :: k in s.links ==> s.links[k] in s.place && s.place[s.links[k]] == Linked(k)
  }

  /** A committed entry names a box that it alone retires. */
  ghost predicate Retires(s: State) {
    |s.ring| > 0 &&
    forall i :: s.head <= i < s.tail && At(s.ring, i).meta.Committed? ==>
      At(s.ring, i).off in s.place && s.place[At(s.ring, i).off] == Retired(i, At(s.ring, i).epoch)
  }

  ghost predicate Owns(s: State) {
    && (forall c :: c in s.clients && s.clients[c].alive ==> BoxesOf(s.clients[c].write, s.place))
    && (forall p :: Live(s, p) ==> BoxOf(s.threads[p].lead, s.place))
  }

  /** A box that a token may name: linked, or on its way out with a stamp no older than the token. */
  predicate Held(p: Place, born: nat) {
    match p
    case Linked(_) => true
    case Unlinked => true
    case Stamped(e) => born <= e
    case Retired(_, e) => born <= e
    case _ => false
  }

  ghost predicate TokensHeld(tokens: set<Token>, place: map<nat, Place>) {
    forall k :: k in tokens ==> k.box in place && Held(place[k.box], k.born)
  }

  ghost predicate Tokens(s: State) {
    forall c :: c in s.clients && s.clients[c].alive ==> TokensHeld(s.clients[c].tokens, s.place)
  }

  ghost predicate Inv(s: State) {
    && |s.ring| > 0 && Registered(s) && Election(s) && Rounds(s) && RingShape(s.ring, s.head, s.tail) &&
        InOrder(s.ring, s.head, s.tail, s.epoch)
    && Writers(s) && Drains(s) && Reservations(s) && Links(s) && Retires(s) && Owns(s) && Tokens(s)
  }
}
