/**
 Deferred reclamation as a step system: one writer retires boxes into a ring, an elected leader
 advances the epoch, waits for every view process to ack, be quiet or be dead, and frees from the ring.

 A step makes at most one store that another process acts on; stores to words that nobody reads before a later
 step are merged with it: a slot being taken and its fields being filled, the offset and epoch of an entry still
 reserved. Any process may die before any step, with all its threads. A process is named by its claim id, which is
 never reused, and any number of its threads may try to lead. Memory is sequentially consistent.
 */
module Reclaim {
  import opened Bytes

  type Claim = nat // 0 means nobody

  datatype SlotState = Vacant | Claiming | Mine

  /** A registry slot; `owner` is the claim that took it. */
  datatype Slot = Slot(state: SlotState, owner: Claim, ack: nat, quiet: bool)

  datatype Meta = Empty | Reserved(claim: Claim) | Committed(claim: Claim)

  datatype Entry = Entry(meta: Meta, off: nat, epoch: nat)

  /** A view token: the box it points into, and the epoch when the node's word was read. */
  datatype Token = Token(box: nat, born: nat)

  /** Where a writer stands in its operation. */
  datatype Writing =
    | Resting
    | Looked(head: nat)                             // ring head read
    | Marked                                        // entry at tail reserved, tail not yet moved
    | Holding(idx: nat)                             // reservation published
    | Ready(res: Option<nat>, box: nat)             // new box filled, with or without a reservation
    | Detached(idx: nat, box: nat)                  // old box no longer linked
    | Stamping(idx: nat, box: nat, epoch: nat)      // entry filled, not yet committed

  /** Where a leader stands in its round. */
  datatype Leading =
    | Idle
    | Saw(cur: Claim)                               // election word read
    | Judged(cur: Claim)                            // and its owner found dead
    | Elected
    | Waiting(r: nat, next: nat, dead: set<nat>)    // slots before `next` passed
    | Draining(r: nat, at: nat)
    | Skipping(r: nat, at: nat)                     // entry `at` empty, head not yet moved
    | Dropping(r: nat, at: nat, box: nat)           // entry `at` emptied, head not yet moved
    | Freeing(r: nat, at: nat, box: nat)            // head moved, box not yet freed
    | Leaving                                       // election word still held

  datatype Stage = Claimed | Filled | Open

  /** One handle. `seen` is the caller's epoch variable, `loaded` the epoch an unfinished ack has read. */
  datatype Client = Client(alive: bool, stage: Stage, slot: nat, seen: nat, loaded: Option<nat>, tokens: set<Token>,
                           write: Writing)

  /** A thread that may lead rounds, and the claim of its process. */
  datatype Thread = Thread(claim: Claim, lead: Leading)

  /** What has become of a box; nothing in the store records this. */
  datatype Place = Free | Fresh | Linked(key: nat) | Unlinked | Stamped(e: nat) | Retired(idx: nat, e: nat) | Taken

  datatype State = State(
    epoch: nat, claims: nat, barrier: Claim, slots: seq<Slot>, clients: map<Claim, Client>,
    threads: map<nat, Thread>, ring: seq<Entry>, head: nat, tail: nat, links: map<nat, nat>, place: map<nat, Place>)

  /** Taking and leaving a registry slot, and starting a thread. */
  datatype RegOp =
    | OpenCas(i: nat) | OpenFill(c: Claim, seen: nat) | OpenMine(c: Claim)
    | Crash(c: Claim) | Close(c: Claim) | FreeDead(i: nat) | Spawn(p: nat, c: Claim)

  datatype ViewOp = AckLoad | AckDone | Drop | Quiesce(on: bool) | Resolve(key: nat)

  datatype WriteOp =
    | Look | Refuse | Recover | Mark | Publish | Alloc(box: nat) | Cancel | Discard
    | Link(key: nat) | Replace(key: nat) | Unlink(key: nat) | Stamp | Commit

  datatype LeadOp =
    | See | Judge | Win | Lose | Bump | Pass | Rescan | Proceed | Abandon
    | Skip | SkipDead | Advance | Take | Behead | FreeBox | Finish | Release

  datatype Step =
    | Registry(r: RegOp)
    | View(c: Claim, v: ViewOp)
    | Writes(c: Claim, w: WriteOp)
    | Leads(p: nat, l: LeadOp)

  // ---- the ring ----

  /** The physical entry of ring index i. */
  function At(ring: seq<Entry>, i: nat): Entry
    requires |ring| > 0
  {
    ring[i % |ring|]
  }

  function Put(ring: seq<Entry>, i: nat, e: Entry): (r: seq<Entry>)
    requires |ring| > 0
    ensures |r| == |ring|
  {
    ring[i % |ring| := e]
  }

  const EPOCHS := 0x1_0000_0000

  /** The drain's test on 32-bit epochs: the signed difference r - e is positive. */
  predicate Due(r: nat, e: nat) {
    0 < (r - e) % EPOCHS < EPOCHS / 2
  }

  // ---- steps ----

  predicate Acting(s: State, c: Claim) {
    c in s.clients && s.clients[c].alive && s.clients[c].stage == Open && s.clients[c].slot < |s.slots|
  }

  /** p2_claim_alive: some registered slot carries this claim and its process lives. */
  predicate ClaimAlive(s: State, c: Claim) {
    exists i :: 0 <= i < |s.slots| && s.slots[i].state == Mine && s.slots[i].owner == c && c in s.clients &&
        s.clients[c].alive
  }

  function Set(s: State, c: Claim, x: Client): State {
    s.(clients := s.clients[c := x])
  }

  function Wrote(s: State, c: Claim, w: Writing): State
    requires c in s.clients
  {
    Set(s, c, s.clients[c].(write := w))
  }

  function Led(s: State, p: nat, l: Leading): State
    requires p in s.threads
  {
    s.(threads := s.threads[p := s.threads[p].(lead := l)])
  }

  /** The ring index a writer has published and not yet settled. */
  function Reservation(w: Writing): Option<nat> {
    match w
    case Holding(idx) => Some(idx)
    case Ready(res, _) => res
    case Detached(idx, _) => Some(idx)
    case Stamping(idx, _, _) => Some(idx)
    case _ => None
  }

  /** The single-writer contract: nobody else alive is in the middle of a write. */
  predicate SoleWriter(s: State, c: Claim) {
    forall d :: d in s.clients && d != c && s.clients[d].alive ==> s.clients[d].write == Resting
  }

  /** A slot no longer holds back round r: unregistered, acked, quiet, or its process dead now or earlier in the
      round. */
  predicate Passes(s: State, i: nat, r: nat, dead: set<nat>)
    requires i < |s.slots|
  {
    var x := s.slots[i];
    x.state != Mine || x.ack == r || x.quiet || i in dead || x.owner !in s.clients || !s.clients[x.owner].alive
  }

  /** The drain goes no further: end of the ring, a reservation of a live writer, or an entry not yet due. */
  predicate Stops(s: State, r: nat, at: nat)
    requires |s.ring| > 0
  {
    var e := At(s.ring, at);
    at >= s.tail || (e.meta.Reserved? && ClaimAlive(s, e.meta.claim)) || (e.meta.Committed? && !Due(r, e.epoch))
  }

  function Mod(s: State, c: Claim, x: Client, i: nat, slot: Slot): State
    requires i < |s.slots|
  {
    s.(clients := s.clients[c := x], slots := s.slots[i := slot])
  }

  // ---- the registry ----

  predicate CanRegister(s: State, r: RegOp) {
    match r
    case OpenCas(i) => i < |s.slots| && s.slots[i].state == Vacant
    case FreeDead(i) =>
      i < |s.slots| && s.slots[i].state != Vacant &&
          (s.slots[i].owner !in s.clients || !s.clients[s.slots[i].owner].alive)
    case OpenFill(c, seen) => Opening(s, c, Claimed) && seen <= s.epoch
    case OpenMine(c) => Opening(s, c, Filled)
    case Crash(c) => c in s.clients && s.clients[c].alive
    case Close(c) =>
      Acting(s, c) && s.clients[c].tokens == {} && s.clients[c].write == Resting && s.clients[c].loaded == None &&
          forall p :: p in s.threads && s.threads[p].claim == c ==> s.threads[p].lead == Idle
    case Spawn(p, c) => p !in s.threads && Acting(s, c)
  }

  predicate Opening(s: State, c: Claim, stage: Stage) {
    c in s.clients && s.clients[c].alive && s.clients[c].stage == stage && s.clients[c].slot < |s.slots|
  }

  function Register(s: State, r: RegOp): State
    requires CanRegister(s, r)
  {
    match r
    case OpenCas(i) =>
      var c := s.claims + 1;
      s.(claims := c, slots := s.slots[i := s.slots[i].(state := Claiming, owner := c)],
         clients := s.clients[c := Client(true, Claimed, i, 0, None, {}, Resting)])
    case FreeDead(i) => s.(slots := s.slots[i := s.slots[i].(state := Vacant)])
    case OpenFill(c, seen) =>
      var x := s.clients[c];
      Mod(s, c, x.(seen := seen, stage := Filled), x.slot, s.slots[x.slot].(ack := s.epoch, quiet := true))
    case OpenMine(c) =>
      var x := s.clients[c];
      Mod(s, c, x.(stage := Open), x.slot, s.slots[x.slot].(state := Mine))
    case Crash(c) => Set(s, c, s.clients[c].(alive := false))
    case Close(c) =>
      var x := s.clients[c];
      Mod(s, c, x.(alive := false), x.slot, s.slots[x.slot].(state := Vacant))
    case Spawn(p, c) => s.(threads := s.threads[p := Thread(c, Idle)])
  }

  // ---- a view process ----

  predicate CanView(s: State, c: Claim, v: ViewOp) {
    Acting(s, c) &&
    var x := s.clients[c];
    match v
    case AckLoad => x.loaded == None
    case AckDone => x.loaded.Some?
    case Drop => true
    case Quiesce(on) => x.loaded == None && (on ==> x.tokens == {})
    case Resolve(key) => x.loaded == None && !s.slots[x.slot].quiet && key in s.links
  }

  function Use(s: State, c: Claim, v: ViewOp): State
    requires CanView(s, c, v)
  {
    var x := s.clients[c];
    var slot := s.slots[x.slot];
    match v
    case AckLoad => Set(s, c, x.(loaded := Some(s.epoch)))
    case AckDone =>
      if x.seen != x.loaded.value then Set(s, c, x.(seen := x.loaded.value, tokens := {}, loaded := None))
      else Mod(s, c, x.(loaded := None), x.slot, slot.(ack := x.loaded.value))
    case Drop => Set(s, c, x.(tokens := {}))
    case Quiesce(on) => Mod(s, c, x, x.slot, slot.(quiet := on))
    case Resolve(key) => Set(s, c, x.(tokens := x.tokens + {Token(s.links[key], s.epoch)}))
  }

  // ---- the writer ----

  predicate CanWrite(s: State, c: Claim, w: WriteOp)
    requires |s.ring| > 0
  {
    Acting(s, c) &&
    var now := s.clients[c].write;
    match w
    case Look => now == Resting && SoleWriter(s, c)
    case Refuse => now.Looked?
    case Recover =>
      now.Looked? && s.tail - now.head < |s.ring| && At(s.ring, s.tail).meta.Reserved? &&
          !ClaimAlive(s, At(s.ring, s.tail).meta.claim)
    case Mark => now.Looked? && s.tail - now.head < |s.ring| && At(s.ring, s.tail).meta == Empty
    case Publish => now.Marked?
    case Alloc(box) => box in s.place && s.place[box] == Free && (now.Holding? || (now == Resting && SoleWriter(s, c)))
    case Cancel => now.Holding? || (now.Ready? && now.res.Some?)
    case Discard => now.Ready? && now.res == None
    case Link(key) => now.Ready? && now.res == None && key !in s.links
    case Replace(key) => now.Ready? && now.res.Some? && key in s.links
    case Unlink(key) => now.Holding? && key in s.links
    case Stamp => now.Detached?
    case Commit => now.Stamping?
  }

  function Write(s: State, c: Claim, w: WriteOp): State
    requires |s.ring| > 0 && CanWrite(s, c, w)
  {
    var now := s.clients[c].write;
    match w
    case Look => Wrote(s, c, Looked(s.head))
    case Refuse => Wrote(s, c, Resting)
    case Recover => s.(ring := Put(s.ring, s.tail, At(s.ring, s.tail).(meta := Empty)))
    case Mark => Wrote(s, c, Marked).(ring := Put(s.ring, s.tail, At(s.ring, s.tail).(meta := Reserved(c))))
    case Publish => Wrote(s, c, Holding(s.tail)).(tail := s.tail + 1)
    case Alloc(box) => Wrote(s, c, Ready(Reservation(now), box)).(place := s.place[box := Fresh])
    case Cancel =>
      var idx := Reservation(now).value;
      Wrote(s, c, if now.Ready? then Ready(None, now.box) else Resting)
        .(ring := Put(s.ring, idx, At(s.ring, idx).(meta := Empty)))
    case Discard => Wrote(s, c, Resting).(place := s.place[now.box := Free])
    case Link(key) => Wrote(s, c, Resting).(links := s.links[key := now.box], place := s.place[now.box := Linked(key)])
    case Replace(key) =>
      Wrote(s, c, Detached(now.res.value, s.links[key]))
        .(links := s.links[key := now.box], place := s.place[s.links[key] := Unlinked][now.box := Linked(key)])
    case Unlink(key) =>
      Wrote(s, c, Detached(now.idx, s.links[key])).(links := s.links - {key},
          place := s.place[s.links[key] := Unlinked])
    case Stamp =>
      Wrote(s, c, Stamping(now.idx, now.box, s.epoch))
        .(ring := Put(s.ring, now.idx, At(s.ring, now.idx).(off := now.box, epoch := s.epoch)),
          place := s.place[now.box := Stamped(s.epoch)])
    case Commit =>
      Wrote(s, c, Resting)
        .(ring := Put(s.ring, now.idx, At(s.ring, now.idx).(meta := Committed(c))),
          place := s.place[now.box := Retired(now.idx, now.epoch)])
  }

  // ---- the leader ----

  predicate CanLead(s: State, p: nat, l: LeadOp)
    requires |s.ring| > 0
  {
    p in s.threads && Acting(s, s.threads[p].claim) &&
    var now := s.threads[p].lead;
    match l
    case See => now == Idle
    case Judge => now.Saw? && now.cur != 0 && now.cur != s.threads[p].claim && !ClaimAlive(s, now.cur)
    case Win => ((now.Saw? && now.cur == 0) || now.Judged?) && s.barrier == now.cur
    case Lose => now.Saw? || now.Judged?
    case Bump => now == Elected
    case Pass => now.Waiting? && now.next < |s.slots| && Passes(s, now.next, now.r, now.dead)
    case Rescan => now.Waiting?
    case Proceed => now.Waiting? && now.next == |s.slots|
    case Abandon => now.Waiting? || now == Elected
    case Skip => now.Draining? && now.at < s.tail && At(s.ring, now.at).meta == Empty
    case SkipDead =>
      now.Draining? && now.at < s.tail && At(s.ring, now.at).meta.Reserved? &&
          !ClaimAlive(s, At(s.ring, now.at).meta.claim)
    case Advance => now.Skipping?
    case Take => now.Draining? && now.at < s.tail && At(s.ring, now.at).meta.Committed? &&
        Due(now.r, At(s.ring, now.at).epoch)
    case Behead => now.Dropping?
    case FreeBox => now.Freeing?
    case Finish => now.Draining? && Stops(s, now.r, now.at)
    case Release => now == Leaving
  }

  function Lead(s: State, p: nat, l: LeadOp): State
    requires |s.ring| > 0 && CanLead(s, p, l)
  {
    var now := s.threads[p].lead;
    match l
    case See => Led(s, p, Saw(s.barrier))
    case Judge => Led(s, p, Judged(now.cur))
    case Win => Led(s, p, Elected).(barrier := s.threads[p].claim)
    case Lose => Led(s, p, Idle)
    case Bump => Led(s, p, Waiting(s.epoch + 1, 0, {})).(epoch := s.epoch + 1)
    case Pass =>
      var owner := s.slots[now.next].owner;
      var gone := owner !in s.clients || !s.clients[owner].alive;
      Led(s, p, Waiting(now.r, now.next + 1, if gone then now.dead + {now.next} else now.dead))
    case Rescan => Led(s, p, Waiting(now.r, 0, now.dead))
    case Proceed => Led(s, p, Draining(now.r, s.head))
    case Abandon => Led(s, p, Leaving)
    case Skip => Led(s, p, Skipping(now.r, now.at))
    case SkipDead =>
      Led(s, p, Skipping(now.r, now.at)).(ring := Put(s.ring, now.at, At(s.ring, now.at).(meta := Empty)))
    case Advance => Led(s, p, Draining(now.r, now.at + 1)).(head := now.at + 1)
    case Take =>
      var e := At(s.ring, now.at);
      Led(s, p, Dropping(now.r, now.at, e.off)).(ring := Put(s.ring, now.at, e.(meta := Empty)),
          place := s.place[e.off := Taken])
    case Behead => Led(s, p, Freeing(now.r, now.at, now.box)).(head := now.at + 1)
    case FreeBox => Led(s, p, Draining(now.r, now.at + 1)).(place := s.place[now.box := Free])
    case Finish => Led(s, p, Leaving)
    case Release => if s.barrier == s.threads[p].claim then Led(s, p, Idle).(barrier := 0) else Led(s, p, Idle)
  }

  // ---- runs ----

  predicate Enabled(s: State, step: Step)
    requires |s.ring| > 0
  {
    match step
    case Registry(r) => CanRegister(s, r)
    case View(c, v) => CanView(s, c, v)
    case Writes(c, w) => CanWrite(s, c, w)
    case Leads(p, l) => CanLead(s, p, l)
  }

  function Apply(s: State, step: Step): State
    requires |s.ring| > 0 && Enabled(s, step)
  {
    match step
    case Registry(r) => Register(s, r)
    case View(c, v) => Use(s, c, v)
    case Writes(c, w) => Write(s, c, w)
    case Leads(p, l) => Lead(s, p, l)
  }
}
