/** What the protocol can always do: from every state of every run all that has been retired can be freed. */
module ReclaimProgress {
  import opened Bytes
  import opened Reclaim
  import opened ReclaimInv
  import opened ReclaimSteps
  import opened ReclaimSafety

  // ---- playing on ----

  /** These steps, one after the other, lead from s to n. */
  ghost predicate Plays(s: State, steps: seq<Step>, n: State)
    decreases |steps|
  {
    if steps == [] then n == s
    else |s.ring| > 0 && Enabled(s, steps[0]) && Plays(Apply(s, steps[0]), steps[1..], n)
  }

  lemma {:induction false} PlaysThen(s: State, a: seq<Step>, m: State, b: seq<Step>, n: State)
    requires Plays(s, a, m) && Plays(m, b, n)
    ensures Plays(s, a + b, n)
    decreases |a|
  {
    hide Enabled, Apply;
    if a == [] {
      assert a + b == b;
    } else {
      PlaysThen(Apply(s, a[0]), a[1..], m, b, n);
      assert (a + b)[0] == a[0] && (a + b)[1..] == a[1..] + b;
    }
  }

  lemma {:induction false} PlaysInv(s: State, steps: seq<Step>, n: State)
    requires Inv(s) && Plays(s, steps, n)
    ensures Inv(n)
    decreases |steps|
  {
    hide Enabled, Apply, Inv;
    if steps != [] {
      StepKeepsInv(s, steps[0]);
      PlaysInv(Apply(s, steps[0]), steps[1..], n);
    }
  }

  lemma PlaysOne(s: State, step: Step)
    requires |s.ring| > 0 && Enabled(s, step)
    ensures Plays(s, [step], Apply(s, step))
  {
    hide Enabled, Apply;
    assert [step][1..] == [];
    assert Plays(Apply(s, step), [], Apply(s, step));
  }

  /** What is played from the last state of a run prolongs the run. */
  lemma {:induction false} RunGoesOn(states: seq<State>, steps: seq<Step>, more: seq<Step>, n: State)
      returns (states': seq<State>, steps': seq<Step>)
    requires Run(states, steps) && Plays(states[|steps|], more, n)
    ensures Run(states', steps') && steps' == steps + more && states <= states' && states'[|steps'|] == n
    decreases |more|
  {
    hide Enabled, Apply, Init;
    if more == [] {
      states', steps' := states, steps;
      assert steps + more == steps;
    } else {
      var s := Apply(states[|steps|], more[0]);
      states', steps' := RunGoesOn(states + [s], steps + [more[0]], more[1..], n);
      assert steps + [more[0]] + more[1..] == steps + more;
    }
  }

  // ---- acks ----

  /** Only client c has moved, in its own slot. */
  ghost predicate Viewed(s: State, n: State, c: Claim) {
    && n.epoch == s.epoch && n.claims == s.claims && n.barrier == s.barrier && n.threads == s.threads
    && n.ring == s.ring && n.head == s.head && n.tail == s.tail && n.links == s.links && n.place == s.place
    && c in s.clients && c in n.clients && |n.slots| == |s.slots| && s.clients[c].slot < |s.slots|
    && n.clients == s.clients[c := n.clients[c]] && n.slots == s.slots[s.clients[c].slot := n.slots[s.clients[c].slot]]
    && n.clients[c].alive == s.clients[c].alive && n.clients[c].stage == s.clients[c].stage
    && n.clients[c].slot == s.clients[c].slot && n.clients[c].write == s.clients[c].write
    && var a, b := s.slots[s.clients[c].slot], n.slots[s.clients[c].slot];
       b.state == a.state && b.owner == a.owner && b.quiet == a.quiet
  }

  /** An ack that finds a new epoch drops the tokens and stores nothing; one that finds the known epoch stores it. */
  lemma AckStores(s: State, c: Claim)
    requires CanView(s, c, AckLoad)
    ensures var m := Use(s, c, AckLoad);
            && CanView(m, c, AckDone)
            && var n := Use(m, c, AckDone);
               && Viewed(s, n, c) && n.clients[c].loaded == None && n.clients[c].seen == s.epoch
               && (s.clients[c].seen == s.epoch ==>
                     n.slots[n.clients[c].slot].ack == s.epoch && n.clients[c].tokens == s.clients[c].tokens)
               && (s.clients[c].seen != s.epoch ==> n.slots == s.slots && n.clients[c].tokens == {})
  {
  }

  /** An ack of the known epoch lets every round of that epoch pass the slot. */
  lemma AckPasses(s: State, c: Claim, dead: set<nat>)
    requires CanView(s, c, AckLoad) && s.clients[c].seen == s.epoch
    ensures var m := Use(s, c, AckLoad);
            && CanView(m, c, AckDone)
            && var n := Use(m, c, AckDone);
               s.clients[c].slot < |n.slots| && Passes(n, s.clients[c].slot, s.epoch, dead)
  {
    AckStores(s, c);
  }

  /** So do going quiet and dying. */
  lemma QuietPasses(s: State, c: Claim, r: nat, dead: set<nat>)
    requires CanView(s, c, Quiesce(true))
    ensures var n := Use(s, c, Quiesce(true)); Passes(n, n.clients[c].slot, r, dead)
  {
  }

  lemma DeadPasses(s: State, i: nat, r: nat, dead: set<nat>)
    requires i < |s.slots| && CanRegister(s, Crash(s.slots[i].owner))
    ensures var n := Register(s, Crash(s.slots[i].owner)); i < |n.slots| && Passes(n, i, r, dead)
  {
  }

  lemma AckFrame(s: State, c: Claim, v: ViewOp)
    requires CanView(s, c, v) && (v.AckLoad? || v.AckDone?)
    ensures Viewed(s, Use(s, c, v), c)
  {
  }

  /** Whatever it is in the middle of, a view process gets its slot to the current epoch. */
  lemma CatchUp(s: State, c: Claim) returns (steps: seq<Step>, n: State)
    requires |s.ring| > 0 && Acting(s, c)
    ensures Plays(s, steps, n) && Viewed(s, n, c) && n.slots[n.clients[c].slot].ack == s.epoch
  {
    hide Viewed, Plays;
    steps, n := Settle(s, c);
    ViewedSlot(s, n, c);
    var a, m := AckTwice(n, c);
    PlaysThen(s, steps, n, a, m);
    ViewedThen(s, n, m, c);
    ViewedSlot(n, m, c);
    steps, n := steps + a, m;
  }

  lemma ViewedSlot(s: State, n: State, c: Claim)
    requires Viewed(s, n, c)
    ensures n.epoch == s.epoch && |n.ring| == |s.ring|
    ensures c in n.clients && n.clients[c].slot < |n.slots| && (Acting(s, c) ==> Acting(n, c))
  {
  }

  lemma ViewedThen(s: State, m: State, n: State, c: Claim)
    requires Viewed(s, m, c) && Viewed(m, n, c)
    ensures Viewed(s, n, c)
  {
  }

  /** Finish an ack that has begun. */
  lemma Settle(s: State, c: Claim) returns (steps: seq<Step>, n: State)
    requires |s.ring| > 0 && Acting(s, c)
    ensures Plays(s, steps, n) && Viewed(s, n, c) && Acting(n, c) && n.clients[c].loaded == None
  {
    hide Plays;
    if s.clients[c].loaded == None {
      steps, n := [], s;
      PlaysNone(s);
      assert s.clients == s.clients[c := s.clients[c]];
    } else {
      steps, n := [View(c, AckDone)], Use(s, c, AckDone);
      PlaysOne(s, View(c, AckDone));
      AckFrame(s, c, AckDone);
    }
  }

  lemma PlaysNone(s: State)
    ensures Plays(s, [], s)
  {
  }

  lemma AckOnce(s: State, c: Claim) returns (steps: seq<Step>, n: State)
    requires |s.ring| > 0 && Acting(s, c) && s.clients[c].loaded == None
    ensures Plays(s, steps, n) && Viewed(s, n, c) && Acting(n, c) && n.clients[c].loaded == None
    ensures n.clients[c].seen == s.epoch
    ensures s.clients[c].seen == s.epoch ==> n.slots[n.clients[c].slot].ack == s.epoch
  {
    hide Plays, Viewed, Use;
    AckStores(s, c);
    var m := Use(s, c, AckLoad);
    n := Use(m, c, AckDone);
    AckFrame(s, c, AckLoad);
    ViewedSlot(s, m, c);
    ViewedSlot(s, n, c);
    steps := [View(c, AckLoad)] + [View(c, AckDone)];
    PlaysOne(s, View(c, AckLoad));
    PlaysOne(m, View(c, AckDone));
    PlaysThen(s, [View(c, AckLoad)], m, [View(c, AckDone)], n);
  }

  lemma AckTwice(s: State, c: Claim) returns (steps: seq<Step>, n: State)
    requires |s.ring| > 0 && Acting(s, c) && s.clients[c].loaded == None
    ensures Plays(s, steps, n) && Viewed(s, n, c) && n.slots[n.clients[c].slot].ack == s.epoch
  {
    hide Plays, Viewed, Acting;
    var a, m := AckOnce(s, c);
    ViewedSlot(s, m, c);
    var b, k := AckOnce(m, c);
    PlaysThen(s, a, m, b, k);
    ViewedThen(s, m, k, c);
    ViewedSlot(m, k, c);
    steps, n := a + b, k;
  }

  // ---- coming and reading ----

  /** What the store is with process c open in slot i. */
  ghost function Joined(s: State, i: nat, c: Claim, seen: nat): State
    requires i < |s.slots|
  {
    s.(claims := c, clients := s.clients[c := Client(true, Open, i, seen, None, {}, Resting)],
       slots := s.slots[i := Slot(Mine, c, s.epoch, true)])
  }

  lemma JoinsVacant(s: State, i: nat, seen: nat) returns (steps: seq<Step>)
    requires |s.ring| > 0 && i < |s.slots| && seen <= s.epoch && s.slots[i].state == Vacant
    ensures Plays(s, steps, Joined(s, i, s.claims + 1, seen))
  {
    hide Plays;
    var c := s.claims + 1;
    var x := Register(s, OpenCas(i));
    PlaysOne(s, Registry(OpenCas(i)));
    var y := Register(x, OpenFill(c, seen));
    PlaysOne(x, Registry(OpenFill(c, seen)));
    var n := Register(y, OpenMine(c));
    PlaysOne(y, Registry(OpenMine(c)));
    PlaysThen(s, [Registry(OpenCas(i))], x, [Registry(OpenFill(c, seen))], y);
    PlaysThen(s, [Registry(OpenCas(i))] + [Registry(OpenFill(c, seen))], y, [Registry(OpenMine(c))], n);
    assert n == Joined(s, i, c, seen) by {
      assert n.slots == s.slots[i := Slot(Mine, c, s.epoch, true)];
      assert n.clients == s.clients[c := Client(true, Open, i, seen, None, {}, Resting)];
    }
    steps := [Registry(OpenCas(i))] + [Registry(OpenFill(c, seen))] + [Registry(OpenMine(c))];
  }

  /** A process that opens the store takes a vacant slot, or that of a dead process; it holds no round back. */
  lemma Joins(s: State, i: nat, seen: nat) returns (steps: seq<Step>, n: State)
    requires |s.ring| > 0 && Registered(s) && i < |s.slots| && seen <= s.epoch
    requires s.slots[i].state == Vacant || s.slots[i].owner !in s.clients || !s.clients[s.slots[i].owner].alive
    ensures Plays(s, steps, n) && n == Joined(s, i, s.claims + 1, seen)
    ensures s.claims + 1 !in s.clients && Acting(n, s.claims + 1) && forall r, dead :: Passes(n, i, r, dead)
  {
    hide Plays, Registered, ClientOk;
    OwnerGone(s, 0);
    n := Joined(s, i, s.claims + 1, seen);
    if s.slots[i].state == Vacant {
      steps := JoinsVacant(s, i, seen);
    } else {
      var m := Register(s, FreeDead(i));
      PlaysOne(s, Registry(FreeDead(i)));
      var rest := JoinsVacant(m, i, seen);
      PlaysThen(s, [Registry(FreeDead(i))], m, rest, Joined(m, i, s.claims + 1, seen));
      assert Joined(m, i, s.claims + 1, seen).slots == n.slots;
      steps := [Registry(FreeDead(i))] + rest;
    }
  }

  /** Resolving a key gives a token for the box it is linked to; the process keeps the tokens it has. */
  lemma ResolveNames(states: seq<State>, steps: seq<Step>, i: nat, c: Claim, key: nat)
    requires Run(states, steps) && i < |steps| && steps[i] == View(c, Resolve(key))
    ensures var s, n := states[i], states[i + 1];
            && key in s.links && c in s.clients && c in n.clients
            && var k := Token(s.links[key], s.epoch);
               && k in n.clients[c].tokens && s.clients[c].tokens <= n.clients[c].tokens
               && k.box in n.place && n.place[k.box] == Linked(key)
  {
    hide Init, Registered, Election, Rounds, RingShape, InOrder, Writers, Drains, Reservations, Retires, Owns, Tokens;
    RunInv(states, steps, i);
  }

  // ---- every slot passes ----

  /** Only clients have moved, each in its own slot. */
  ghost predicate AllViewed(s: State, n: State) {
    && n.epoch == s.epoch && n.claims == s.claims && n.barrier == s.barrier && n.threads == s.threads
    && n.ring == s.ring && n.head == s.head && n.tail == s.tail && n.links == s.links && n.place == s.place
    && |n.slots| == |s.slots| && n.clients.Keys == s.clients.Keys
    && (forall c :: c in s.clients ==>
          && n.clients[c].alive == s.clients[c].alive && n.clients[c].stage == s.clients[c].stage
          && n.clients[c].slot == s.clients[c].slot && n.clients[c].write == s.clients[c].write)
    && (forall i :: 0 <= i < |s.slots| ==>
          && n.slots[i].state == s.slots[i].state && n.slots[i].owner == s.slots[i].owner
          && (n.slots[i].ack == s.slots[i].ack || n.slots[i].ack == s.epoch))
  }

  lemma AllViewedThen(s: State, m: State, n: State, c: Claim)
    requires Viewed(s, m, c) && m.slots[m.clients[c].slot].ack == s.epoch && AllViewed(m, n)
    ensures AllViewed(s, n) && n.clients[c].slot < |n.slots| && n.slots[n.clients[c].slot].ack == s.epoch
  {
  }

  lemma AllViewedActs(s: State, n: State, c: Claim)
    requires AllViewed(s, n) && Acting(s, c)
    ensures Acting(n, c)
  {
  }

  /** All these view processes get their slots to the current epoch. */
  lemma {:induction false} CatchUpAll(s: State, todo: set<Claim>) returns (steps: seq<Step>, n: State)
    requires |s.ring| > 0 && forall c :: c in todo ==> Acting(s, c)
    ensures Plays(s, steps, n) && AllViewed(s, n)
    ensures forall c :: c in todo ==> Acting(n, c) && n.slots[n.clients[c].slot].ack == s.epoch
    decreases |todo|
  {
    hide Plays, Viewed, AllViewed, Acting;
    if todo == {} {
      PlaysNone(s);
      ViewedSelf(s);
      steps, n := [], s;
    } else {
      var c :| c in todo;
      var a, m := CatchUp(s, c);
      ViewedSlot(s, m, c);
      forall d | d in todo - {c} ensures Acting(m, d) {
        ViewedOthers(s, m, c, d);
      }
      var b, k := CatchUpAll(m, todo - {c});
      PlaysThen(s, a, m, b, k);
      AllViewedThen(s, m, k, c);
      AllViewedActs(s, k, c);
      steps, n := a + b, k;
    }
  }

  lemma ViewedSelf(s: State)
    ensures AllViewed(s, s)
  {
  }

  lemma ViewedOthers(s: State, n: State, c: Claim, d: Claim)
    requires Viewed(s, n, c) && Acting(s, d)
    ensures Acting(n, d)
  {
  }

  /** A slot in use is the slot of its owner. */
  ghost predicate SlotsOwned(s: State) {
    forall i :: 0 <= i < |s.slots| && s.slots[i].state != Vacant ==>
      s.slots[i].owner in s.clients && s.clients[s.slots[i].owner].slot == i
  }

  /** An election word that names a live process is held by one of its threads. */
  ghost predicate WordHeld(s: State) {
    s.barrier in s.clients && s.clients[s.barrier].alive ==> exists p :: InRound(s, p)
  }

  /** When every live view process has caught up, every slot passes. */
  lemma CaughtUpPasses(s: State, r: nat)
    requires Registered(s) && SlotsOwned(s) && r == s.epoch
    requires forall c :: c in s.clients && s.clients[c].alive && s.clients[c].stage == Open ==>
      s.clients[c].slot < |s.slots| && s.slots[s.clients[c].slot].ack == s.epoch
    ensures forall i :: 0 <= i < |s.slots| ==> Passes(s, i, r, {})
  {
    forall i | 0 <= i < |s.slots| ensures Passes(s, i, r, {}) {
      var c := s.slots[i].owner;
      assert c in s.clients ==> ClientOk(c, s.clients[c], s.slots, s.epoch, s.claims);
    }
  }

  // ---- what every run keeps besides the invariant ----

  lemma RegistryKeepsSlotsOwned(s: State, r: RegOp)
    requires Registered(s) && SlotsOwned(s) && CanRegister(s, r)
    ensures SlotsOwned(Register(s, r))
  {
    hide At, Put;
    if r.OpenFill? || r.OpenMine? {
      assert ClientOk(r.c, s.clients[r.c], s.slots, s.epoch, s.claims);
    }
  }

  lemma ViewKeepsSlotsOwned(s: State, c: Claim, v: ViewOp)
    requires SlotsOwned(s) && CanView(s, c, v)
    ensures SlotsOwned(Use(s, c, v))
  {
    hide At, Put;
  }

  lemma StepKeepsSlotsOwned(s: State, step: Step)
    requires |s.ring| > 0 && Registered(s) && SlotsOwned(s) && Enabled(s, step)
    ensures SlotsOwned(Apply(s, step))
  {
    hide At, Put, Registered, CanRegister, Register, CanView, Use, CanLead, Lead, CanWrite, Write;
    match step
    case Registry(r) => RegistryKeepsSlotsOwned(s, r);
    case View(c, v) => ViewKeepsSlotsOwned(s, c, v);
    case Writes(c, w) => WriteFrame(s, c, w);
    case Leads(p, l) => LeadFrame(s, p, l);
  }

  /** A thread in its round stays in it until it gives the word back. */
  lemma LeadStays(s: State, p: nat, l: LeadOp)
    requires |s.ring| > 0 && CanLead(s, p, l) && InRound(s, p) && l != Release
    ensures InRound(Lead(s, p, l), p)
  {
    hide At, Put, ClaimAlive, Passes, Stops, Due;
  }

  lemma WinsRound(s: State, p: nat)
    requires |s.ring| > 0 && CanLead(s, p, Win)
    ensures InRound(Lead(s, p, Win), p)
  {
    hide At, Put, ClaimAlive, Passes, Stops, Due;
  }

  lemma LeadKeepsWordHeld(s: State, p: nat, l: LeadOp)
    requires Registered(s) && Election(s) && WordHeld(s) && CanLead(s, p, l)
    ensures WordHeld(Lead(s, p, l))
  {
    hide At, Put, Lead, CanLead, ClientOk, LeadOk;
    var n := Lead(s, p, l);
    LeadActs(s, p, l);
    LeadFrame(s, p, l);
    OwnerGone(s, 0);
    if l.Win? {
      WinsRound(s, p);
    } else if n.barrier in n.clients && n.clients[n.barrier].alive {
      assert !(l.Release? && s.barrier == s.threads[p].claim);
      var q :| InRound(s, q);
      if q == p {
        ReleaseOwn(s, p, l);
        LeadStays(s, p, l);
      } else {
        assert InRound(n, q);
      }
    }
  }

  lemma LeadActs(s: State, p: nat, l: LeadOp)
    requires |s.ring| > 0 && CanLead(s, p, l)
    ensures Live(s, p)
  {
    hide At, ClaimAlive, Passes, Stops, Due;
  }

  /** A leader that gives the word back is the one it names. */
  lemma ReleaseOwn(s: State, p: nat, l: LeadOp)
    requires |s.ring| > 0 && Election(s) && CanLead(s, p, l) && InRound(s, p)
    ensures s.barrier == s.threads[p].claim
  {
    hide At, Put, CanLead;
    assert LeadOk(s, s.threads[p]);
  }

  lemma RegistryKeepsWordHeld(s: State, r: RegOp)
    requires Registered(s) && Election(s) && WordHeld(s) && CanRegister(s, r)
    ensures WordHeld(Register(s, r))
  {
    hide At, Put, Registered, ClientOk;
    OwnerGone(s, 0);
    var n := Register(s, r);
    if n.barrier in n.clients && n.clients[n.barrier].alive {
      var q :| InRound(s, q);
      assert LeadOk(s, s.threads[q]);
      assert InRound(n, q);
    }
  }

  lemma StepKeepsWordHeld(s: State, step: Step)
    requires |s.ring| > 0 && Registered(s) && Election(s) && WordHeld(s) && Enabled(s, step)
    ensures WordHeld(Apply(s, step))
  {
    hide At, Put, Registered, Election, InRound, CanRegister, Register, CanView, Use, CanLead, Lead, CanWrite, Write;
    match step
    case Registry(r) => RegistryKeepsWordHeld(s, r);
    case View(c, v) => ViewKeepsWordHeld(s, c, v);
    case Writes(c, w) => WriteKeepsWordHeld(s, c, w);
    case Leads(p, l) => LeadKeepsWordHeld(s, p, l);
  }

  lemma ViewKeepsWordHeld(s: State, c: Claim, v: ViewOp)
    requires WordHeld(s) && CanView(s, c, v)
    ensures WordHeld(Use(s, c, v))
  {
    hide CanView, Use;
    ViewFrame(s, c, v);
    forall p | InRound(s, p) ensures InRound(Use(s, c, v), p) {
    }
  }

  lemma WriteKeepsWordHeld(s: State, c: Claim, w: WriteOp)
    requires |s.ring| > 0 && WordHeld(s) && CanWrite(s, c, w)
    ensures WordHeld(Write(s, c, w))
  {
    hide CanWrite, Write;
    WriteFrame(s, c, w);
    forall p | InRound(s, p) ensures InRound(Write(s, c, w), p) {
    }
  }

  ghost predicate Good(s: State) {
    Inv(s) && SlotsOwned(s) && WordHeld(s)
  }

  lemma {:induction false} RunGood(states: seq<State>, steps: seq<Step>, i: nat)
    requires Run(states, steps) && i < |states|
    ensures Good(states[i])
  {
    hide Enabled, Apply, SlotsOwned, WordHeld;
    RunInv(states, steps, i);
    if i == 0 {
      InitGood(states[0]);
    } else {
      RunGood(states, steps, i - 1);
      StepKeepsSlotsOwned(states[i - 1], steps[i - 1]);
      StepKeepsWordHeld(states[i - 1], steps[i - 1]);
    }
  }

  lemma InitGood(s: State)
    requires Init(s)
    ensures SlotsOwned(s) && WordHeld(s)
  {
  }

  lemma {:induction false} PlaysGood(s: State, steps: seq<Step>, n: State)
    requires Good(s) && Plays(s, steps, n)
    ensures Good(n)
    decreases |steps|
  {
    hide Enabled, Apply, SlotsOwned, WordHeld, Registered, Election, Rounds, RingShape, InOrder, Writers, Drains,
      Reservations, Links, Retires, Owns, Tokens;
    if steps != [] {
      StepKeepsInv(s, steps[0]);
      StepKeepsSlotsOwned(s, steps[0]);
      StepKeepsWordHeld(s, steps[0]);
      PlaysGood(Apply(s, steps[0]), steps[1..], n);
    }
  }

  lemma SameAlive(s: State, n: State, c: Claim)
    requires n.slots == s.slots && n.clients.Keys == s.clients.Keys
    requires forall d :: d in s.clients ==> n.clients[d].alive == s.clients[d].alive
    ensures ClaimAlive(n, c) == ClaimAlive(s, c)
  {
  }
}
