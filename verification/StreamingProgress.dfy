/** What an accepted plan leads to: it becomes ready, or the planner gives it up, in a known number of turns. */
module StreamingProgress {
  import opened StreamingControl
  import opened StreamingRuns

  // ---- acceptance ----

  /** Nothing is left of an earlier plan. */
  ghost predicate Cleared(x: Shared) {
    x.buffer == [] && !x.ready && !x.generationFinished && x.start == None && x.final == None
    && x.total == 0 && x.executed == 0 && x.index == 0
  }

  /** The plan was just accepted, and waits for the planner. */
  ghost predicate Fresh(s: State, plan: Plan) {
    && s.plan == plan && s.queue == [plan] && s.planner == Idle && s.pushed == 0 && s.committed == []
    && Cleared(s.shared) && s.shared.motion == Planning && s.shared.busy
    && !s.shared.hold && !s.shared.cancel && !s.shared.underrun
  }

  /**
   * In every run a request to run is accepted exactly while nothing is planned and nothing moves; then only
   * the new plan remains.  Otherwise it changes nothing, so a motion under way cannot be replaced.
   */
  lemma AcceptedInEveryRun(steps: seq<Step>, plan: Plan)
    requires ValidSteps(steps)
    ensures var s := Run(Start, steps); var t := Receive(s, RunCommand(plan));
            if !s.shared.busy && s.shared.motion in {Waiting, Finished, Hold}
            then Fresh(t, plan) && t.epoch == s.epoch + 1 && t.stop == s.stop
            else t == s
  {
    StartInv();
    RunKeeps(Start, steps);
    hide Run;
    AcceptedWhen(Run(Start, steps), plan);
  }

  lemma AcceptedWhen(s: State, plan: Plan)
    requires Inv(s)
    ensures var t := Receive(s, RunCommand(plan));
            if !s.shared.busy && s.shared.motion in {Waiting, Finished, Hold}
            then Fresh(t, plan) && t.epoch == s.epoch + 1 && t.stop == s.stop
            else t == s
  {}

  // ---- the planner alone ----

  ghost predicate Turns(steps: seq<Step>, n: nat) {
    |steps| == n && forall k :: 0 <= k < n ==> steps[k].PlannerTurn?
  }

  lemma OneTurn(s: State, steps: seq<Step>, n: nat)
    requires Turns(steps, n + 1)
    ensures Run(s, steps) == Run(PlannerStep(s, steps[0].choice), steps[1..]) && Turns(steps[1..], n)
  {}

  lemma NoTurn(s: State, steps: seq<Step>)
    requires Turns(steps, 0)
    ensures Run(s, steps) == s
  {}

  /** One planner turn after another. */
  function FourTurns(s: State, steps: seq<Step>): State
    requires Turns(steps, 4)
  {
    PlannerStep(
      PlannerStep(PlannerStep(PlannerStep(s, steps[0].choice), steps[1].choice), steps[2].choice), steps[3].choice)
  }

  lemma FourTurnsRun(s: State, steps: seq<Step>)
    requires Turns(steps, 4)
    ensures Run(s, steps) == FourTurns(s, steps)
  {
    hide Run;
    OneTurn(s, steps, 3);
    var a := PlannerStep(s, steps[0].choice);
    OneTurn(a, steps[1..], 2);
    var b := PlannerStep(a, steps[1].choice);
    OneTurn(b, steps[1..][1..], 1);
    var c := PlannerStep(b, steps[2].choice);
    OneTurn(c, steps[1..][1..][1..], 0);
    NoTurn(PlannerStep(c, steps[3].choice), steps[1..][1..][1..][1..]);
  }

  /** `k` samples of the plan are buffered and none is committed; the planner is about to fetch the next one. */
  ghost predicate Buffered(s: State, k: nat) {
    var x, samples := s.shared, s.plan.samples;
    && s.planner == LoopTop && s.queue == [] && !s.stop && s.pushed == s.generated == k <= |samples|
    && s.committed == [] && x.buffer == samples[..k]
    && x.busy && !x.hold && !x.cancel && !x.underrun
    && x.total == s.plan.total && x.executed == 0 && x.index == 0
    && x.start == (if k == 0 then None else Some(samples[0]))
    && (x.generationFinished <==> k == |samples|)
    && x.final == (if k > 0 && k == |samples| then Some(samples[k - 1]) else None)
    && (x.ready <==> k >= 128 || k == |samples|)
    && x.motion == (if x.ready then Preposition else Planning)
  }

  lemma Opened(s: State, plan: Plan, steps: seq<Step>)
    requires Fresh(s, plan) && !s.stop && plan.Passes() && Turns(steps, 5)
    ensures Buffered(Run(s, steps), 0) && Run(s, steps).plan == plan
  {
    hide Run;
    OneTurn(s, steps, 4);
    var a := PlannerStep(s, steps[0].choice);
    OneTurn(a, steps[1..], 3);
    var b := PlannerStep(a, steps[1].choice);
    OneTurn(b, steps[1..][1..], 2);
    var c := PlannerStep(b, steps[2].choice);
    OneTurn(c, steps[1..][1..][1..], 1);
    var d := PlannerStep(c, steps[3].choice);
    OneTurn(d, steps[1..][1..][1..][1..], 0);
    NoTurn(PlannerStep(d, steps[4].choice), steps[1..][1..][1..][1..][1..]);
  }

  lemma PushOne(s: State, k: nat, steps: seq<Step>)
    requires Buffered(s, k) && s.plan.Passes() && k < |s.plan.samples| && k < 256 && Turns(steps, 4)
    ensures Buffered(Run(s, steps), k + 1) && Run(s, steps).plan == s.plan
  {
    hide Run;
    FourTurnsRun(s, steps);
    assert s.plan.samples[..k] + [s.plan.samples[k]] == s.plan.samples[..k + 1];
  }

  lemma {:induction false} PushMany(s: State, k: nat, n: nat, steps: seq<Step>)
    requires Buffered(s, k) && s.plan.Passes() && k + n <= |s.plan.samples| && k + n <= 256 && Turns(steps, 4 * n)
    ensures Buffered(Run(s, steps), k + n) && Run(s, steps).plan == s.plan
    decreases n
  {
    hide Run, Buffered;
    if n == 0 {
      NoTurn(s, steps);
    } else {
      var first, rest := steps[..4], steps[4..];
      assert steps == first + rest;
      RunsCompose(s, first, rest);
      PushOne(s, k, first);
      PushMany(Run(s, first), k + 1, n - 1, rest);
    }
  }

  /**
   * An accepted plan that passes becomes ready: after five turns of the planner and four for each sample
   * that fits, all these are buffered in order and the arm may be positioned at the first one.
   */
  lemma PassingPlanIsReady(s: State, plan: Plan, steps: seq<Step>)
    requires Fresh(s, plan) && !s.stop && plan.Passes()
    requires var n := if plan.total < 256 then plan.total else 256; Turns(steps, 5 + 4 * n)
    ensures var t := Run(s, steps); var n := if plan.total < 256 then plan.total else 256;
            && t.plan == plan && Buffered(t, n) && t.shared.motion == Preposition && t.shared.ready
  {
    hide Run;
    var n := if plan.total < 256 then plan.total else 256;
    var first, rest := steps[..5], steps[5..];
    assert steps == first + rest;
    RunsCompose(s, first, rest);
    Opened(s, plan, first);
    PushMany(Run(s, first), 0, n, rest);
  }

  /** An accepted plan that does not pass is given up after four turns, without a trace. */
  lemma FailingPlanIsDropped(s: State, plan: Plan, steps: seq<Step>)
    requires Fresh(s, plan) && !s.stop && !plan.Passes() && Turns(steps, 4)
    ensures var t := Run(s, steps);
            && t.planner == Idle && t.queue == [] && !t.shared.busy && t.shared.hold && t.shared.motion == Waiting
            && Cleared(t.shared) && t.pushed == 0 && t.committed == []
  {
    hide Run;
    FourTurnsRun(s, steps);
  }

  // ---- cancellation ----

  /** How many turns at most a cancelled planner still takes. */
  function TurnsLeft(s: State): nat {
    match s.planner
    case Idle => if s.queue == [] then 0 else 4
    case Validating => 3
    case Validated(_) => 2
    case Initializing => 5
    case Beginning => 4
    case LoopTop => 3
    case CheckingRoom => 5
    case Generating => 4
    case Publishing(_) => 3
    case AfterLoop(_) => 2
    case Aborting(_) => 1
    case Finishing => 1
  }

  ghost predicate Stopping(s: State) { (s.shared.cancel && s.shared.hold) || s.stop }

  lemma CancelledTurn(s: State, choice: bool)
    requires Inv(s) && Stopping(s)
    ensures var t := PlannerStep(s, choice);
            Stopping(t) && (TurnsLeft(s) > 0 ==> TurnsLeft(t) < TurnsLeft(s)) && (TurnsLeft(s) == 0 ==> t == s)
  {}

  lemma {:induction false} CancelledTurns(s: State, steps: seq<Step>, n: nat)
    requires Inv(s) && Stopping(s) && n >= TurnsLeft(s) && Turns(steps, n)
    ensures var t := Run(s, steps); t.planner == Idle && t.queue == [] && !t.shared.busy
    decreases n
  {
    hide Run, Inv, PlannerStep;
    if n == 0 {
      NoTurn(s, steps);
      EndedIsFree(s);
    } else {
      OneTurn(s, steps, n - 1);
      PlannerKeeps(s, steps[0].choice);
      CancelledTurn(s, steps[0].choice);
      CancelledTurns(PlannerStep(s, steps[0].choice), steps[1..], n - 1);
    }
  }

  lemma EndedIsFree(s: State)
    requires Inv(s) && TurnsLeft(s) == 0
    ensures s.planner == Idle && s.queue == [] && !s.shared.busy
  {}

  /**
   * In every run: once a STOP, an underrun or an interrupt has cancelled it, the planner is free for a new
   * plan after five more turns, wherever it was.
   */
  lemma CancelledPlannerEnds(steps: seq<Step>, turns: seq<Step>)
    requires ValidSteps(steps) && Stopping(Run(Start, steps)) && Turns(turns, 5)
    ensures var t := Run(Start, steps + turns); t.planner == Idle && t.queue == [] && !t.shared.busy
  {
    StartInv();
    RunKeeps(Start, steps);
    RunsCompose(Start, steps, turns);
    CancelledTurns(Run(Start, steps), turns, 5);
  }

  // ---- the reported index ----

  /** The index in the telemetry is that of the newest committed sample. */
  ghost predicate IndexMeans(s: State) {
    !s.shared.hold ==> s.shared.index == (if s.committed == [] then 0 else |s.committed| - 1)
  }

  lemma {:induction false} IndexReceived(s: State, commands: seq<Command>)
    requires IndexMeans(s)
    ensures IndexMeans(ReceiveAll(s, commands))
    decreases |commands|
  {
    if commands != [] {
      IndexReceived(Receive(s, commands[0]), commands[1..]);
    }
  }

  lemma IndexCycle(s: State, i: CycleInput)
    requires Inv(s) && ValidCommands(i.commands) && IndexMeans(s)
    ensures IndexMeans(Cycle(s, i))
  {
    IndexReceived(s, i.commands);
    ReceiveAllKeeps(s, i.commands);
    hide ReceiveAll, StandsAt;
  }

  lemma IndexPlanner(s: State, choice: bool)
    requires Inv(s) && IndexMeans(s)
    ensures IndexMeans(PlannerStep(s, choice))
  {}

  lemma {:induction false} IndexRun(s: State, steps: seq<Step>)
    requires Inv(s) && IndexMeans(s) && ValidSteps(steps)
    ensures IndexMeans(Run(s, steps))
    decreases |steps|
  {
    hide Inv, IndexMeans, PlannerStep, Cycle;
    if steps != [] {
      var t := Apply(s, steps[0]);
      ApplyKeeps(s, steps[0]);
      match steps[0] {
        case PlannerTurn(choice) => IndexPlanner(s, choice);
        case CycleTurn(i) => IndexCycle(s, i);
        case Interrupt => IndexInterrupt(s);
      }
      IndexRun(t, steps[1..]);
    }
  }

  lemma IndexInterrupt(s: State)
    requires IndexMeans(s)
    ensures IndexMeans(s.(stop := true))
  {}

  lemma IndexInEveryRun(steps: seq<Step>)
    requires ValidSteps(steps)
    ensures IndexMeans(Run(Start, steps))
  {
    StartInv();
    IndexRun(Start, steps);
  }

  // ---- completion ----

  /** Nothing disturbs this cycle. */
  predicate Good(i: CycleInput) { i.commands == [] && i.enabled && !i.blocked && i.wkcOk }

  /** Four turns of the planner, then a cycle that nothing disturbs. */
  ghost predicate IsRound(steps: seq<Step>) {
    |steps| == 5 && Turns(steps[..4], 4) && steps[4].CycleTurn? && Good(steps[4].input)
  }

  ghost predicate AreRounds(steps: seq<Step>, n: nat)
    decreases n
  {
    |steps| == 5 * n && (n > 0 ==> IsRound(steps[..5]) && AreRounds(steps[5..], n - 1))
  }

  /** The motion runs, `c` samples are committed, and the planner is between two samples or through. */
  ghost predicate Underway(s: State, c: nat) {
    var x, samples, k := s.shared, s.plan.samples, s.pushed;
    && !s.stop && !x.hold && !x.cancel && x.ready && x.motion == Running && s.queue == []
    && c < |samples| && c <= k <= |samples| && k - c <= 256
    && s.committed == samples[..c] && x.buffer == samples[c..k]
    && x.executed == c && x.total == s.plan.total && x.start.Some? && (x.generationFinished <==> k == |samples|)
    && (if k < |samples| then s.planner == LoopTop && s.generated == k
        else (s.planner == LoopTop && s.generated == k) || s.planner == Finishing || s.planner == Idle)
  }

  lemma Refilled(s: State, c: nat, steps: seq<Step>)
    requires Underway(s, c) && s.plan.Passes() && Turns(steps, 4)
    ensures var t := Run(s, steps); Underway(t, c) && c < t.pushed && t.plan == s.plan
  {
    hide Run, PlannerStep, Underway;
    FourTurnsRun(s, steps);
    hide FourTurns;
    if s.pushed == |s.plan.samples| {
      AllPushed(s, c, steps);
    } else if |s.shared.buffer| < 256 {
      OnePushed(s, c, steps);
    } else {
      NonePushed(s, c, steps);
    }
  }

  lemma OnePushed(s: State, c: nat, steps: seq<Step>)
    requires Underway(s, c) && s.plan.Passes() && Turns(steps, 4)
    requires s.pushed != |s.plan.samples| && |s.shared.buffer| < 256
    ensures var t := FourTurns(s, steps); Underway(t, c) && c < t.pushed && t.plan == s.plan
  {
    var samples, k := s.plan.samples, s.pushed;
    assert samples[c..k] + [samples[k]] == samples[c..k + 1];
  }

  lemma NonePushed(s: State, c: nat, steps: seq<Step>)
    requires Underway(s, c) && s.plan.Passes() && Turns(steps, 4)
    requires s.pushed != |s.plan.samples| && |s.shared.buffer| >= 256
    ensures var t := FourTurns(s, steps); Underway(t, c) && c < t.pushed && t.plan == s.plan
  {}

  lemma AllPushed(s: State, c: nat, steps: seq<Step>)
    requires Underway(s, c) && s.plan.Passes() && Turns(steps, 4) && s.pushed == |s.plan.samples|
    ensures var t := FourTurns(s, steps); Underway(t, c) && c < t.pushed && t.plan == s.plan
  {}

  lemma Drained(s: State, c: nat, i: CycleInput)
    requires Underway(s, c) && s.plan.Passes() && c < s.pushed && Good(i)
    ensures var t := Cycle(s, i);
            if c + 1 < |s.plan.samples| then Underway(t, c + 1) && t.plan == s.plan
            else t.shared.motion == Finished && t.committed == s.plan.samples && t.plan == s.plan
  {
    hide StandsAt;
    var samples, k := s.plan.samples, s.pushed;
    assert samples[c..k][1..] == samples[c + 1..k];
    assert samples[..c] + [samples[c]] == samples[..c + 1];
  }

  lemma {:induction false} Completes(s: State, c: nat, steps: seq<Step>)
    requires Underway(s, c) && s.plan.Passes() && AreRounds(steps, |s.plan.samples| - c)
    ensures var t := Run(s, steps);
            t.shared.motion == Finished && t.committed == s.plan.samples && t.plan == s.plan
    decreases |s.plan.samples| - c
  {
    hide Run, Underway, Cycle, PlannerStep;
    UnderwayFacts(s, c);
    var turns, cycle, rest := steps[..4], steps[4], steps[5..];
    assert steps == turns + ([cycle] + rest) && steps[..5][..4] == turns && steps[..5][4] == cycle;
    var a := Run(s, turns);
    RunsCompose(s, turns, [cycle] + rest);
    RunsCompose(a, [cycle], rest);
    RunOne(a, cycle);
    Refilled(s, c, turns);
    Drained(a, c, cycle.input);
    if c + 1 < |s.plan.samples| {
      Completes(Cycle(a, cycle.input), c + 1, rest);
    } else {
      assert rest == [];
      RunNothing(Cycle(a, cycle.input));
    }
  }

  lemma UnderwayFacts(s: State, c: nat)
    requires Underway(s, c)
    ensures c < |s.plan.samples|
  {}

  lemma RunNothing(s: State)
    ensures Run(s, []) == s
  {}

  lemma BeginsMotion(s: State, n: nat, i: CycleInput)
    requires 0 < n <= 256 && Buffered(s, n) && s.shared.ready && s.plan.Passes() && Good(i)
    requires StandsAt(i.position, s.plan.samples[0])
    ensures Underway(Cycle(s, i), 0) && Cycle(s, i).plan == s.plan
  {
    hide StandsAt;
  }

  /**
   * Every accepted plan that passes can be carried out, whatever its length: the planner fills the buffer,
   * a cycle with the arm at the first sample begins the motion, and from then on four turns of the planner
   * per cycle are enough - no underrun occurs, every sample is committed, and the motion finishes.
   */
  lemma PassingPlanFinishes(s: State, plan: Plan, opening: seq<Step>, begin: CycleInput, rounds: seq<Step>)
    requires Fresh(s, plan) && !s.stop && plan.Passes()
    requires var n := if plan.total < 256 then plan.total else 256; Turns(opening, 5 + 4 * n)
    requires Good(begin) && StandsAt(begin.position, plan.samples[0]) && AreRounds(rounds, |plan.samples|)
    ensures var t := Run(s, opening + [CycleTurn(begin)] + rounds);
            t.shared.motion == Finished && t.committed == plan.samples && t.plan == plan
  {
    hide Run, Underway, Buffered, Cycle, StandsAt, AreRounds;
    var n := if plan.total < 256 then plan.total else 256;
    PassingPlanIsReady(s, plan, opening);
    var a := Run(s, opening);
    RunsCompose(s, opening + [CycleTurn(begin)], rounds);
    RunsCompose(s, opening, [CycleTurn(begin)]);
    RunOne(a, CycleTurn(begin));
    BeginsMotion(a, n, begin);
    Completes(Cycle(a, begin), 0, rounds);
  }
}
