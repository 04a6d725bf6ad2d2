/**
 The guards of the protocol let a box all the way through: a run in which one is linked, retired and freed. They also
 let a drain stall: a run in which the same box is due and cannot be taken.
 */
module ReclaimRun {
  import opened Bytes
  import opened Reclaim
  import opened ReclaimSafety

  /** A store with one slot, a ring of one entry and box 7. */
  const NEW := State(0, 0, 0, [Slot(Vacant, 0, 0, false)], map[], map[], [Entry(Empty, 0, 0)], 0, 0, map[],
                     map[7 := Free])

  function Joining(stage: Stage, quiet: bool): State {
    State(0, 1, 0, [Slot(if stage == Open then Mine else Claiming, 1, 0, quiet)],
          map[1 := Client(true, stage, 0, 0, None, {}, Resting)], map[], [Entry(Empty, 0, 0)], 0, 0, map[],
          map[7 := Free])
  }

  /** Process 1 has it open, with a writer at w and one thread, 0, that may lead. */
  function Stored(epoch: nat, barrier: Claim, w: Writing, l: Leading, e: Entry, head: nat, tail: nat,
                  links: map<nat, nat>, p: Place): State {
    State(epoch, 1, barrier, [Slot(Mine, 1, 0, true)], map[1 := Client(true, Open, 0, 0, None, {}, w)],
          map[0 := Thread(1, l)], [e], head, tail, links, map[7 := p])
  }

  /** Before anything is linked. */
  function Unused(w: Writing, p: Place): State {
    Stored(0, 0, w, Idle, Entry(Empty, 0, 0), 0, 0, map[], p)
  }

  /** While key 5 is linked to the box. */
  function Bound(w: Writing, meta: Meta, tail: nat): State {
    Stored(0, 0, w, Idle, Entry(meta, 0, 0), 0, tail, map[5 := 7], Linked(5))
  }

  /** After it has been unlinked, with the entry it will go to still reserved. */
  function Loose(w: Writing, off: nat, p: Place): State {
    Stored(0, 0, w, Idle, Entry(Reserved(1), off, 0), 0, 1, map[], p)
  }

  /** The box is in the ring since epoch 0. */
  function Waste(epoch: nat, barrier: Claim, l: Leading): State {
    Stored(epoch, barrier, Resting, l, Entry(Committed(1), 7, 0), 0, 1, map[], Retired(0, 0))
  }

  /** The leader of round 1 has taken it out again. */
  function Taking(l: Leading, head: nat, p: Place): State {
    Stored(1, 1, Resting, l, Entry(Empty, 7, 0), head, 1, map[], p)
  }

  /** One step of the protocol. */
  predicate Moves(s: State, step: Step, n: State) {
    |s.ring| > 0 && Enabled(s, step) && Apply(s, step) == n
  }

  lemma Go(states: seq<State>, steps: seq<Step>, step: Step, n: State) returns (states': seq<State>, steps': seq<Step>)
    requires Run(states, steps) && Moves(states[|steps|], step, n)
    ensures Run(states', steps') && |steps'| == |steps| + 1 && states'[|steps'|] == n && steps'[|steps|] == step
    ensures states'[|steps|] == states[|steps|]
  {
    hide Enabled, Apply, Init;
    states', steps' := states + [n], steps + [step];
  }

  // ---- the life of a box, step by step ----

  lemma OpensSlot()
    ensures Moves(NEW, Registry(OpenCas(0)), Joining(Claimed, false))
    ensures Moves(Joining(Claimed, false), Registry(OpenFill(1, 0)), Joining(Filled, true))
  {
  }

  lemma OpensStore()
    ensures Moves(Joining(Filled, true), Registry(OpenMine(1)), Joining(Open, true))
    ensures Moves(Joining(Open, true), Registry(Spawn(0, 1)), Unused(Resting, Free))
  {
  }

  lemma AllocatesBox()
    ensures Moves(Unused(Resting, Free), Writes(1, Alloc(7)), Unused(Ready(None, 7), Fresh))
  {
  }

  lemma LinksBox()
    ensures Moves(Unused(Ready(None, 7), Fresh), Writes(1, Link(5)), Bound(Resting, Empty, 0))
  {
  }

  lemma ReservesEntry()
    ensures Moves(Bound(Resting, Empty, 0), Writes(1, Look), Bound(Looked(0), Empty, 0))
    ensures Moves(Bound(Looked(0), Empty, 0), Writes(1, Mark), Bound(Marked, Reserved(1), 0))
  {
  }

  lemma PublishesEntry()
    ensures Moves(Bound(Marked, Reserved(1), 0), Writes(1, Publish), Bound(Holding(0), Reserved(1), 1))
  {
  }

  lemma UnlinksBox()
    ensures Moves(Bound(Holding(0), Reserved(1), 1), Writes(1, Unlink(5)), Loose(Detached(0, 7), 0, Unlinked))
  {
  }

  lemma FillsEntry()
    ensures Moves(Loose(Detached(0, 7), 0, Unlinked), Writes(1, Stamp), Loose(Stamping(0, 7, 0), 7, Stamped(0)))
  {
  }

  lemma CommitsEntry()
    ensures Moves(Loose(Stamping(0, 7, 0), 7, Stamped(0)), Writes(1, Commit), Waste(0, 0, Idle))
  {
  }

  lemma WinsWord(e: nat)
    ensures Moves(Waste(e, 0, Idle), Leads(0, See), Waste(e, 0, Saw(0)))
    ensures Moves(Waste(e, 0, Saw(0)), Leads(0, Win), Waste(e, 1, Elected))
    ensures Moves(Waste(e, 1, Elected), Leads(0, Bump), Waste(e + 1, 1, Waiting(e + 1, 0, {})))
  {
  }

  lemma PassesSlot(r: nat)
    ensures Moves(Waste(r, 1, Waiting(r, 0, {})), Leads(0, Pass), Waste(r, 1, Waiting(r, 1, {})))
    ensures Moves(Waste(r, 1, Waiting(r, 1, {})), Leads(0, Proceed), Waste(r, 1, Draining(r, 0)))
  {
  }

  lemma TakesBox()
    ensures Moves(Waste(1, 1, Draining(1, 0)), Leads(0, Take), Taking(Dropping(1, 0, 7), 0, Taken))
    ensures Moves(Taking(Dropping(1, 0, 7), 0, Taken), Leads(0, Behead), Taking(Freeing(1, 0, 7), 1, Taken))
  {
  }

  lemma FreesBox()
    ensures Moves(Taking(Freeing(1, 0, 7), 1, Taken), Leads(0, FreeBox), Taking(Draining(1, 1), 1, Free))
    ensures Frees(Taking(Freeing(1, 0, 7), 1, Taken), Leads(0, FreeBox), 7)
  {
  }

  lemma LeavesRound(e: nat)
    ensures Moves(Waste(e, 1, Waiting(e, 0, {})), Leads(0, Abandon), Waste(e, 1, Leaving))
    ensures Moves(Waste(e, 1, Leaving), Leads(0, Release), Waste(e, 0, Idle))
  {
  }

  // ---- the run ----

  /** Process 1 opens the store, binds key 5 to the box and deletes the key again. */
  lemma Deletes() returns (states: seq<State>, steps: seq<Step>)
    ensures Run(states, steps) && states[|steps|] == Waste(0, 0, Idle)
  {
    states, steps := Begins();
    hide Run, Moves, Joining, Stored;
    OpensSlot(); OpensStore(); AllocatesBox(); LinksBox(); ReservesEntry(); PublishesEntry(); UnlinksBox();
    FillsEntry(); CommitsEntry();
    states, steps := Go(states, steps, Registry(OpenCas(0)), Joining(Claimed, false));
    states, steps := Go(states, steps, Registry(OpenFill(1, 0)), Joining(Filled, true));
    states, steps := Go(states, steps, Registry(OpenMine(1)), Joining(Open, true));
    states, steps := Go(states, steps, Registry(Spawn(0, 1)), Unused(Resting, Free));
    states, steps := Go(states, steps, Writes(1, Alloc(7)), Unused(Ready(None, 7), Fresh));
    states, steps := Go(states, steps, Writes(1, Link(5)), Bound(Resting, Empty, 0));
    states, steps := Go(states, steps, Writes(1, Look), Bound(Looked(0), Empty, 0));
    states, steps := Go(states, steps, Writes(1, Mark), Bound(Marked, Reserved(1), 0));
    states, steps := Go(states, steps, Writes(1, Publish), Bound(Holding(0), Reserved(1), 1));
    states, steps := Go(states, steps, Writes(1, Unlink(5)), Loose(Detached(0, 7), 0, Unlinked));
    states, steps := Go(states, steps, Writes(1, Stamp), Loose(Stamping(0, 7, 0), 7, Stamped(0)));
    states, steps := Go(states, steps, Writes(1, Commit), Waste(0, 0, Idle));
  }

  lemma Begins() returns (states: seq<State>, steps: seq<Step>)
    ensures Run(states, steps) && |steps| == 0 && states[0] == NEW
  {
    states, steps := [NEW], [];
  }

  /** The thread wins the election and moves the epoch. */
  lemma Elects(states: seq<State>, steps: seq<Step>, e: nat) returns (states': seq<State>, steps': seq<Step>)
    requires Run(states, steps) && states[|steps|] == Waste(e, 0, Idle)
    ensures Run(states', steps') && states'[|steps'|] == Waste(e + 1, 1, Waiting(e + 1, 0, {}))
  {
    hide Run, Moves, Stored;
    WinsWord(e);
    states', steps' := Go(states, steps, Leads(0, See), Waste(e, 0, Saw(0)));
    states', steps' := Go(states', steps', Leads(0, Win), Waste(e, 1, Elected));
    states', steps' := Go(states', steps', Leads(0, Bump), Waste(e + 1, 1, Waiting(e + 1, 0, {})));
  }

  /** It finds nobody in the way. */
  lemma Waits(states: seq<State>, steps: seq<Step>, r: nat) returns (states': seq<State>, steps': seq<Step>)
    requires Run(states, steps) && states[|steps|] == Waste(r, 1, Waiting(r, 0, {}))
    ensures Run(states', steps') && states'[|steps'|] == Waste(r, 1, Draining(r, 0))
  {
    hide Run, Moves, Stored;
    PassesSlot(r);
    states', steps' := Go(states, steps, Leads(0, Pass), Waste(r, 1, Waiting(r, 1, {})));
    states', steps' := Go(states', steps', Leads(0, Proceed), Waste(r, 1, Draining(r, 0)));
  }

  /** Some run from a new store takes a box out of the tree, through the ring, and frees it. */
  lemma SomeBoxIsFreed() returns (states: seq<State>, steps: seq<Step>)
    ensures Run(states, steps) && steps != [] && |states[|steps| - 1].ring| > 0
    ensures Enabled(states[|steps| - 1], steps[|steps| - 1])
    ensures Frees(states[|steps| - 1], steps[|steps| - 1], 7)
  {
    hide Run, Frees, Enabled, Apply, Stored;
    TakesBox(); FreesBox();
    states, steps := Deletes();
    states, steps := Elects(states, steps, 0);
    states, steps := Waits(states, steps, 1);
    states, steps := Go(states, steps, Leads(0, Take), Taking(Dropping(1, 0, 7), 0, Taken));
    states, steps := Go(states, steps, Leads(0, Behead), Taking(Freeing(1, 0, 7), 1, Taken));
    states, steps := Go(states, steps, Leads(0, FreeBox), Taking(Draining(1, 1), 1, Free));
  }

  // ---- a stall ----

  /** A round that is given up while waiting costs an epoch. */
  lemma GivesUp(states: seq<State>, steps: seq<Step>, e: nat) returns (states': seq<State>, steps': seq<Step>)
    requires Run(states, steps) && states[|steps|] == Waste(e, 0, Idle)
    ensures Run(states', steps') && states'[|steps'|] == Waste(e + 1, 0, Idle)
  {
    hide Run, Moves, Stored;
    states', steps' := Elects(states, steps, e);
    LeavesRound(e + 1);
    states', steps' := Go(states', steps', Leads(0, Abandon), Waste(e + 1, 1, Leaving));
    states', steps' := Go(states', steps', Leads(0, Release), Waste(e + 1, 0, Idle));
  }

  /** Any number of rounds can be given up one after the other. */
  lemma {:induction false} GiveUp(e: nat) returns (states: seq<State>, steps: seq<Step>)
    ensures Run(states, steps) && states[|steps|] == Waste(e, 0, Idle)
  {
    hide Run, Stored;
    if e == 0 {
      states, steps := Deletes();
    } else {
      states, steps := GiveUp(e - 1);
      states, steps := GivesUp(states, steps, e - 1);
    }
  }

  /** Its head entry is committed and due, yet the drain cannot take it and ends there. */
  predicate Stalled(s: State, p: nat) {
    && |s.ring| > 0 && s.head < s.tail && At(s.ring, s.head).meta.Committed? && At(s.ring, s.head).epoch < s.epoch
    && p in s.threads && s.threads[p].lead == Draining(s.epoch, s.head)
    && Enabled(s, Leads(p, Finish)) && !Enabled(s, Leads(p, Take))
  }

  lemma HalfTheRange()
    ensures Stalled(Waste(EPOCHS / 2, 1, Draining(EPOCHS / 2, 0)), 0)
  {
    DrainStalls(Waste(EPOCHS / 2, 1, Draining(EPOCHS / 2, 0)), 0, EPOCHS / 2, 0);
  }

  /** Some run from a new store comes to a stalled drain. */
  lemma DrainCanStall() returns (states: seq<State>, steps: seq<Step>)
    ensures Run(states, steps) && Stalled(states[|steps|], 0)
  {
    hide Run, Stored, Stalled;
    HalfTheRange();
    states, steps := GiveUp(EPOCHS / 2 - 1);
    states, steps := Elects(states, steps, EPOCHS / 2 - 1);
    states, steps := Waits(states, steps, EPOCHS / 2);
  }

  // ---- a process that is not quiet ----

  /** As Waste, and the process holds its slot awake: it has seen epoch `seen` and acked epoch `ack`. */
  function Awake(epoch: nat, barrier: Claim, seen: nat, loaded: Option<nat>, ack: nat, l: Leading): State {
    State(epoch, 1, barrier, [Slot(Mine, 1, ack, false)], map[1 := Client(true, Open, 0, seen, loaded, {}, Resting)],
          map[0 := Thread(1, l)], [Entry(Committed(1), 7, 0)], 0, 1, map[], map[7 := Retired(0, 0)])
  }

  /** In round 1, after it has acked; the entry goes. */
  function AwakeTaking(l: Leading, head: nat, p: Place): State {
    State(1, 1, 1, [Slot(Mine, 1, 1, false)], map[1 := Client(true, Open, 0, 1, None, {}, Resting)],
          map[0 := Thread(1, l)], [Entry(Empty, 7, 0)], head, 1, map[], map[7 := p])
  }

  lemma WakesUp()
    ensures Moves(Waste(0, 0, Idle), View(1, Quiesce(false)), Awake(0, 0, 0, None, 0, Idle))
  {
  }

  lemma AwakeElects()
    ensures Moves(Awake(0, 0, 0, None, 0, Idle), Leads(0, See), Awake(0, 0, 0, None, 0, Saw(0)))
    ensures Moves(Awake(0, 0, 0, None, 0, Saw(0)), Leads(0, Win), Awake(0, 1, 0, None, 0, Elected))
    ensures Moves(Awake(0, 1, 0, None, 0, Elected), Leads(0, Bump), Awake(1, 1, 0, None, 0, Waiting(1, 0, {})))
  {
  }

  /** It holds the round back, also after its first ack, which only tells it of the new epoch. */
  lemma AwakeAcksFirst()
    ensures Moves(Awake(1, 1, 0, None, 0, Waiting(1, 0, {})), View(1, AckLoad),
              Awake(1, 1, 0, Some(1), 0, Waiting(1, 0, {})))
    ensures Moves(Awake(1, 1, 0, Some(1), 0, Waiting(1, 0, {})), View(1, AckDone),
              Awake(1, 1, 1, None, 0, Waiting(1, 0, {})))
    ensures !Enabled(Awake(1, 1, 1, None, 0, Waiting(1, 0, {})), Leads(0, Pass))
  {
  }

  lemma AwakeAcks()
    ensures Moves(Awake(1, 1, 1, None, 0, Waiting(1, 0, {})), View(1, AckLoad),
              Awake(1, 1, 1, Some(1), 0, Waiting(1, 0, {})))
    ensures Moves(Awake(1, 1, 1, Some(1), 0, Waiting(1, 0, {})), View(1, AckDone),
              Awake(1, 1, 1, None, 1, Waiting(1, 0, {})))
  {
  }

  lemma AwakePasses()
    ensures Moves(Awake(1, 1, 1, None, 1, Waiting(1, 0, {})), Leads(0, Pass),
              Awake(1, 1, 1, None, 1, Waiting(1, 1, {})))
    ensures Moves(Awake(1, 1, 1, None, 1, Waiting(1, 1, {})), Leads(0, Proceed),
              Awake(1, 1, 1, None, 1, Draining(1, 0)))
  {
  }

  lemma AwakeTakes()
    ensures Moves(Awake(1, 1, 1, None, 1, Draining(1, 0)), Leads(0, Take), AwakeTaking(Dropping(1, 0, 7), 0, Taken))
    ensures Moves(AwakeTaking(Dropping(1, 0, 7), 0, Taken), Leads(0, Behead),
              AwakeTaking(Freeing(1, 0, 7), 1, Taken))
  {
  }

  lemma AwakeFrees()
    ensures Moves(AwakeTaking(Freeing(1, 0, 7), 1, Taken), Leads(0, FreeBox), AwakeTaking(Draining(1, 1), 1, Free))
    ensures Frees(AwakeTaking(Freeing(1, 0, 7), 1, Taken), Leads(0, FreeBox), 7)
  {
  }

  /** A process with its slot awake holds the round back until its second ack; then the drain frees. */
  lemma AckedBoxIsFreed() returns (states: seq<State>, steps: seq<Step>)
    ensures Run(states, steps) && steps != [] && |states[|steps| - 1].ring| > 0
    ensures Enabled(states[|steps| - 1], steps[|steps| - 1])
    ensures Frees(states[|steps| - 1], steps[|steps| - 1], 7)
    ensures states[|steps| - 1].slots == [Slot(Mine, 1, 1, false)]
  {
    hide Run, Frees, Enabled, Apply, Stored, Awake;
    WakesUp(); AwakeElects(); AwakeAcksFirst(); AwakeAcks(); AwakePasses(); AwakeTakes(); AwakeFrees();
    states, steps := Deletes();
    states, steps := Go(states, steps, View(1, Quiesce(false)), Awake(0, 0, 0, None, 0, Idle));
    states, steps := Go(states, steps, Leads(0, See), Awake(0, 0, 0, None, 0, Saw(0)));
    states, steps := Go(states, steps, Leads(0, Win), Awake(0, 1, 0, None, 0, Elected));
    states, steps := Go(states, steps, Leads(0, Bump), Awake(1, 1, 0, None, 0, Waiting(1, 0, {})));
    states, steps := Go(states, steps, View(1, AckLoad), Awake(1, 1, 0, Some(1), 0, Waiting(1, 0, {})));
    states, steps := Go(states, steps, View(1, AckDone), Awake(1, 1, 1, None, 0, Waiting(1, 0, {})));
    states, steps := Go(states, steps, View(1, AckLoad), Awake(1, 1, 1, Some(1), 0, Waiting(1, 0, {})));
    states, steps := Go(states, steps, View(1, AckDone), Awake(1, 1, 1, None, 1, Waiting(1, 0, {})));
    states, steps := Go(states, steps, Leads(0, Pass), Awake(1, 1, 1, None, 1, Waiting(1, 1, {})));
    states, steps := Go(states, steps, Leads(0, Proceed), Awake(1, 1, 1, None, 1, Draining(1, 0)));
    states, steps := Go(states, steps, Leads(0, Take), AwakeTaking(Dropping(1, 0, 7), 0, Taken));
    states, steps := Go(states, steps, Leads(0, Behead), AwakeTaking(Freeing(1, 0, 7), 1, Taken));
    states, steps := Go(states, steps, Leads(0, FreeBox), AwakeTaking(Draining(1, 1), 1, Free));
  }
}
