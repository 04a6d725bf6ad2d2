/**
 The list cache against concurrent writers, one shared store or load at a time.

 A writer changes the key set and later bumps the shared generation, once for the whole batch; it may die in
 between. A reader samples the generation, then either answers from its cache or scans for a while. Key-set
 changes are numbered; a scan that starts after change number v sees v or something newer.
 */
module ListRace {
  import opened Bytes

  /** Names cached by a handle: the request, the generation sampled for it, and the last change when its scan began. */
  datatype Names = Names(ask: nat, gen: nat, since: nat)

  /** A call under way. `told` are the changes whose writers had returned when it started. */
  datatype Phase =
    | Out
    | Sampled(ask: nat, gen: nat, told: set<nat>)
    | Scanning(ask: nat, gen: nat, told: set<nat>, since: nat)

  datatype Reader = Reader(phase: Phase, cache: Option<Names>)

  /** What a call answered from, and what it had been told before it started. */
  datatype Answer = Answer(since: nat, told: set<nat>)

  datatype State = State(
    changes: nat, gen: nat,
    pending: map<nat, set<nat>>,   // per writer: changes made and not announced
    bumped: map<nat, nat>,         // per announced change: the generation after its bump
    readers: map<nat, Reader>, answers: seq<Answer>)

  datatype Step =
    | Change(w: nat) | Bump(w: nat) | Die(w: nat)
    | Sample(r: nat, ask: nat) | Hit(r: nat) | Miss(r: nat) | Finish(r: nat)

  predicate Enabled(s: State, step: Step) {
    match step
    case Change(w) => true
    case Bump(w) => w in s.pending
    case Die(w) => w in s.pending
    case Sample(r, ask) => r !in s.readers || s.readers[r].phase == Out
    case Hit(r) =>
      && r in s.readers && s.readers[r].phase.Sampled? && s.readers[r].cache.Some?
      && s.readers[r].cache.value.ask == s.readers[r].phase.ask &&
          s.readers[r].cache.value.gen == s.readers[r].phase.gen
    case Miss(r) => r in s.readers && s.readers[r].phase.Sampled?
    case Finish(r) => r in s.readers && s.readers[r].phase.Scanning?
  }

  function Apply(s: State, step: Step): State
    requires Enabled(s, step)
  {
    match step
    case Change(w) =>
      var mine := if w in s.pending then s.pending[w] else {};
      s.(changes := s.changes + 1, pending := s.pending[w := mine + {s.changes + 1}])
    case Bump(w) =>
      s.(gen := s.gen + 1, pending := s.pending - {w},
         bumped := map v | v in s.bumped.Keys + s.pending[w] :: if v in s.pending[w] then s.gen + 1 else s.bumped[v])
    case Die(w) => s.(pending := s.pending - {w})
    case Sample(r, ask) =>
      var cache := if r in s.readers then s.readers[r].cache else None;
      s.(readers := s.readers[r := Reader(Sampled(ask, s.gen, s.bumped.Keys), cache)])
    case Hit(r) =>
      var x := s.readers[r];
      s.(readers := s.readers[r := x.(phase := Out)],
          answers := s.answers + [Answer(x.cache.value.since, x.phase.told)])
    case Miss(r) =>
      var x := s.readers[r];
      s.(readers := s.readers[r := Reader(Scanning(x.phase.ask, x.phase.gen, x.phase.told, s.changes), None)])
    case Finish(r) =>
      var p := s.readers[r].phase;
      s.(readers := s.readers[r := Reader(Out, Some(Names(p.ask, p.gen, p.since)))],
          answers := s.answers + [Answer(p.since, p.told)])
  }

  /** Nothing in the answer is older than what the caller had been told. */
  predicate Current(a: Answer) {
    forall v :: v in a.told ==> v <= a.since
  }

  ghost predicate ReaderOk(x: Reader, gen: nat, bumped: map<nat, nat>, changes: nat) {
    && (match x.phase
        case Out => true
        case Sampled(_, g, told) => g <= gen && forall v :: v in told ==> v in bumped && bumped[v] <= g
        case Scanning(_, g, told, since) =>
          && g <= gen && since <= changes && (forall v :: v in told ==> v <= since)
          && forall v :: v in bumped && v > since ==> bumped[v] > g)
    && (x.cache.Some? ==>
          x.cache.value.gen <= gen && x.cache.value.since <= changes
          && forall v :: v in bumped && v > x.cache.value.since ==> bumped[v] > x.cache.value.gen)
  }

  /** A pending change is known, not announced, and pending for one writer. */
  ghost predicate PendingOk(pending: map<nat, set<nat>>, bumped: map<nat, nat>, changes: nat) {
    forall w, v {:trigger v in pending[w]} :: w in pending && v in pending[w] ==>
      v <= changes && v !in bumped && forall u :: u in pending && v in pending[u] ==> u == w
  }

  ghost predicate Inv(s: State) {
    && (forall v :: v in s.bumped ==> v <= s.changes && s.bumped[v] <= s.gen)
    && PendingOk(s.pending, s.bumped, s.changes)
    && (forall r :: r in s.readers ==> ReaderOk(s.readers[r], s.gen, s.bumped, s.changes))
    && (forall a :: a in s.answers ==> Current(a))
  }

  lemma StepKeeps(s: State, step: Step)
    requires Inv(s) && Enabled(s, step)
    ensures Inv(Apply(s, step))
  {
    hide ReaderOk, Current;
    StepKeepsPending(s, step);
    var n := Apply(s, step);
    forall r | r in n.readers ensures ReaderOk(n.readers[r], n.gen, n.bumped, n.changes) {
      StepKeepsReader(s, step, r);
    }
    if step.Hit? || step.Finish? {
      AnswerCurrent(s, step);
      assert n.answers == s.answers + [n.answers[|s.answers|]];
    }
  }

  lemma StepKeepsPending(s: State, step: Step)
    requires Inv(s) && Enabled(s, step)
    ensures var n := Apply(s, step); PendingOk(n.pending, n.bumped, n.changes)
  {
    hide ReaderOk, Current;
  }

  lemma StepKeepsReader(s: State, step: Step, r: nat)
    requires Inv(s) && Enabled(s, step) && r in Apply(s, step).readers
    ensures var n := Apply(s, step); ReaderOk(n.readers[r], n.gen, n.bumped, n.changes)
  {
    hide Current;
    assert r in s.readers ==> ReaderOk(s.readers[r], s.gen, s.bumped, s.changes);
    if step.Bump? {
      forall v | v in s.pending[step.w] ensures v !in s.bumped {
      }
    }
  }

  lemma AnswerCurrent(s: State, step: Step)
    requires Inv(s) && Enabled(s, step) && (step.Hit? || step.Finish?)
    ensures Current(Apply(s, step).answers[|s.answers|])
  {
    hide PendingOk;
    assert ReaderOk(s.readers[step.r], s.gen, s.bumped, s.changes);
  }

  predicate Init(s: State) {
    s.changes == 0 && s.pending == map[] && s.bumped == map[] && s.readers == map[] && s.answers == []
  }

  ghost predicate Run(states: seq<State>, steps: seq<Step>) {
    && |states| == |steps| + 1 && Init(states[0])
    && forall i :: 0 <= i < |steps| ==> Enabled(states[i], steps[i]) && states[i + 1] == Apply(states[i], steps[i])
  }

  /** No call that starts after a key-set change has returned ever answers from names scanned before it. */
  lemma {:induction false} NeverStale(states: seq<State>, steps: seq<Step>, i: nat)
    requires Run(states, steps) && i < |states|
    ensures Inv(states[i]) && forall a :: a in states[i].answers ==> Current(a)
  {
    hide Inv, Enabled, Apply;
    if i > 0 {
      NeverStale(states, steps, i - 1);
      StepKeeps(states[i - 1], steps[i - 1]);
    }
    AnswersCurrent(states[i]);
  }

  lemma AnswersCurrent(s: State)
    requires Init(s) || Inv(s)
    ensures Inv(s) && forall a :: a in s.answers ==> Current(a)
  {
  }

  // ---- what readers get to know, and when they need not scan ----

  /** A change that its writer has announced is known to every call that starts afterwards, and no cache filled before
      the announcement answers such a call. */
  lemma AnnouncementsReach(s: State, w: nat, r: nat, ask: nat)
    requires Inv(s) && Enabled(s, Change(w)) && Enabled(s, Sample(r, ask))
    ensures var a := Apply(s, Change(w));
            && a.changes == s.changes + 1 && Enabled(a, Bump(w))
            && var b := Apply(a, Bump(w));
               && Enabled(b, Sample(r, ask))
               && var c := Apply(b, Sample(r, ask));
                  a.changes in c.readers[r].phase.told && Enabled(c, Miss(r)) && !Enabled(c, Hit(r))
  {
    hide PendingOk, Current;
    assert r in s.readers ==> ReaderOk(s.readers[r], s.gen, s.bumped, s.changes);
  }

  /** While no announcement has come since the call that scanned, the next call for the same list answers from its
      names. */
  lemma QuietHits(s: State, r: nat)
    requires Enabled(s, Finish(r)) && s.readers[r].phase.gen == s.gen
    ensures var p, n := s.readers[r].phase, Apply(s, Finish(r));
            && n.answers == s.answers + [Answer(p.since, p.told)] && Enabled(n, Sample(r, p.ask))
            && var m := Apply(n, Sample(r, p.ask));
               && Enabled(m, Hit(r))
               && Apply(m, Hit(r)).answers == n.answers + [Answer(p.since, s.bumped.Keys)]
  {
  }

  /** A scan that starts now sees every change made so far. */
  lemma ScansSeeAll(s: State, r: nat)
    requires Enabled(s, Miss(r))
    ensures var n := Apply(s, Miss(r));
            Enabled(n, Finish(r)) && n.readers[r].phase.since == s.changes && n.readers[r].cache == None
  {
  }
}
