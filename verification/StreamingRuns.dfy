/** Every interleaving of the planner task, the drive cycle and the interrupt signal. */
module StreamingRuns {
  import opened StreamingControl

  /**
   * What the stream of a request does, which is the same at every replay: whether its initialisation
   * succeeds, the samples it delivers before it ends or fails, how many it announces, and whether
   * these keep the joint limits.
   */
  datatype Plan = Plan(starts: bool, samples: seq<Joints>, total: nat, withinLimits: bool)
  {
    ghost predicate Valid() { |samples| <= total }

    /** The verdict of a validation that is not cut short. */
    predicate Passes() { starts && |samples| == total && total > 0 && withinLimits }
  }

  /** Where the planner task is; `Publishing` holds the sample it is about to push. */
  datatype Planner =
    | Idle | Validating | Validated(ok: bool) | Initializing | Beginning
    | LoopTop | CheckingRoom | Generating | Publishing(q: Joints)
    | AfterLoop(failed: bool) | Aborting(preserveHold: bool) | Finishing

  datatype State = State(
    shared: Shared, queue: seq<Plan>, stop: bool, planner: Planner, generated: nat,
    // history of the newest accepted plan
    plan: Plan, epoch: nat, pushed: nat, committed: seq<Joints>)

  const Start := State(Initially, [], false, Idle, 0, Plan(false, [], 0, false), 0, 0, [])

  // ---- the planner task ----

  predicate Cancelled(s: State) { s.shared.cancel || s.stop }

  /** One planner step; a cancelled validation may still have finished, as `choice` says. */
  function PlannerStep(s: State, choice: bool): State {
    match s.planner
    case Idle => if s.queue == [] then s else s.(planner := Validating, queue := s.queue[1..])
    case Validating => s.(planner := Validated(s.plan.Passes() && (choice || !Cancelled(s))))
    case Validated(ok) =>
      s.(planner := if Cancelled(s) then Aborting(true) else if ok then Initializing else Aborting(false))
    case Initializing => s.(planner := if s.plan.starts then Beginning else Aborting(false))
    case Beginning => s.(shared := Begun(s.shared, s.plan.total), generated := 0, planner := LoopTop)
    case LoopTop => s.(planner := if Cancelled(s) then AfterLoop(false) else CheckingRoom)
    case CheckingRoom => s.(planner := if |s.shared.buffer| >= CAPACITY then LoopTop else Generating)
    case Generating =>
      if s.generated < |s.plan.samples| then
        s.(planner := Publishing(s.plan.samples[s.generated]), generated := s.generated + 1)
      else
        s.(planner := AfterLoop(s.generated < s.plan.total))
    case Publishing(q) =>
      if Cancelled(s) then s.(planner := AfterLoop(false))
      else (match Published(s.shared, q, s.generated >= s.plan.total)
            case None => s.(planner := AfterLoop(true))
            case Some(x) => s.(shared := x, pushed := s.pushed + 1, planner := LoopTop))
    case AfterLoop(failed) =>
      s.(planner := if Cancelled(s) then Aborting(true) else if failed then Aborting(false) else Finishing)
    case Aborting(preserveHold) => s.(shared := Aborted(s.shared, preserveHold), planner := Idle)
    case Finishing => s.(shared := ProducerDone(s.shared), planner := Idle)
  }

  // ---- the drive cycle ----

  datatype Command = StopCommand | RunCommand(plan: Plan)

  /** `position` is what the drives report, in their own units. */
  datatype CycleInput = CycleInput(
    commands: seq<Command>, enabled: bool, position: seq<int>, blocked: bool, wkcOk: bool)

  const AXES := 6
  const UNITS_PER_TURN := 131072.0
  const TWO_PI := 6.28318530717958647692
  const START_TOLERANCE := 5

  /** `llround`: to the nearest integer, halves away from zero. */
  function Rounded(x: real): int {
    if x >= 0.0 then (x + 0.5).Floor else -((0.5 - x).Floor)
  }

  function Units(angle: real): int { Rounded(angle * UNITS_PER_TURN / TWO_PI) }

  predicate NearUnits(position: int, angle: real) {
    -START_TOLERANCE <= position - Units(angle) <= START_TOLERANCE
  }

  /** Every axis stands at its start angle, up to the tolerance. */
  predicate StandsAt(position: seq<int>, q: Joints) {
    |position| == |q| == AXES && forall j :: 0 <= j < AXES ==> NearUnits(position[j], q[j])
  }

  predicate Rejects(x: Shared) {
    x.busy || x.motion == Planning || x.motion == Preposition || x.motion == Running
  }

  /** A new plan: reset, then the one-place request queue. */
  function Accept(s: State, plan: Plan): State {
    var t := s.(shared := ResetForNewPlan(), plan := plan, epoch := s.epoch + 1, pushed := 0, committed := []);
    if s.queue == [] then t.(queue := [plan])
    else t.(shared := t.shared.(motion := Waiting, hold := true, busy := false))
  }

  function Receive(s: State, c: Command): State {
    match c
    case StopCommand => s.(shared := Stopped(s.shared))
    case RunCommand(plan) => if Rejects(s.shared) then s else Accept(s, plan)
  }

  function ReceiveAll(s: State, commands: seq<Command>): State
    decreases |commands|
  {
    if commands == [] then s else ReceiveAll(Receive(s, commands[0]), commands[1..])
  }

  predicate MayPeek(s: State, enabled: bool) {
    !s.stop && !s.shared.hold && enabled && s.shared.motion == Running && s.shared.ready
  }

  function PeekPhase(s: State, enabled: bool): State {
    if MayPeek(s, enabled) && s.shared.buffer == []
        && !s.shared.generationFinished then s.(shared := Underrun(s.shared)) else s
  }

  /** The sample whose position the drives receive in this cycle, if any. */
  function Sent(s: State, enabled: bool): Option<Joints> {
    if MayPeek(s, enabled) && s.shared.buffer != [] then Some(s.shared.buffer[0]) else None
  }

  /** Consumption and state changes after the exchange. */
  function Exchanged(s: State, has: bool, atStart: bool, enabled: bool, wkcOk: bool): State {
    var x := s.shared;
    if !wkcOk || s.stop || x.hold || !x.ready then s
    else if x.motion == Running && has && x.buffer != [] then
      var y := Consumed(x);
      s.(shared := if LastConsumed(y) then y.(motion := Finished) else y, committed := s.committed + [x.buffer[0]])
    else if x.motion == Preposition && enabled && atStart && x.start.Some? then
      s.(shared := Started(x))
    else s
  }

  predicate AtStart(x: Shared, position: seq<int>) {
    x.ready && x.start.Some? && StandsAt(position, x.start.value)
  }

  function Cycle(s: State, i: CycleInput): State {
    var received := ReceiveAll(s, i.commands);
    var peeked := PeekPhase(received, i.enabled);
    var driven := peeked.(stop := peeked.stop || i.blocked);
    var wasAtStart := s.shared.ready && s.shared.start.Some? && AtStart(driven.shared, i.position);
    Exchanged(driven, Sent(received, i.enabled).Some?, wasAtStart, i.enabled, i.wkcOk)
  }

  // ---- runs ----

  datatype Step = PlannerTurn(choice: bool) | CycleTurn(input: CycleInput) | Interrupt

  function Apply(s: State, a: Step): State {
    match a
    case PlannerTurn(choice) => PlannerStep(s, choice)
    case CycleTurn(i) => Cycle(s, i)
    case Interrupt => s.(stop := true)
  }

  function Run(s: State, steps: seq<Step>): State
    decreases |steps|
  {
    if steps == [] then s else Run(Apply(s, steps[0]), steps[1..])
  }

  ghost predicate ValidCommands(commands: seq<Command>) {
    forall k :: 0 <= k < |commands| && commands[k].RunCommand? ==> commands[k].plan.Valid()
  }

  ghost predicate ValidStep(a: Step) { a.CycleTurn? ==> ValidCommands(a.input.commands) }

  ghost predicate ValidSteps(steps: seq<Step>) {
    forall k :: 0 <= k < |steps| ==> ValidStep(steps[k])
  }

  // ---- the invariant ----

  /** At most one plan is under way, queued or with the planner. */
  ghost predicate OnePlan(s: State) {
    && s.plan.Valid()
    && (s.planner != Idle ==> s.shared.busy && s.queue == [])
    && (s.queue != [] ==> s.shared.busy && s.planner == Idle && s.queue == [s.plan])
    && (s.shared.busy ==> s.planner != Idle || s.queue != [])
  }

  /** Holding means nothing is ready and nothing is buffered. */
  ghost predicate HoldIsEmpty(x: Shared) {
    && (x.hold <==> x.motion == Waiting || x.motion == Hold)
    && (x.hold ==> !x.ready && !x.generationFinished && x.buffer == [])
    && (x.cancel ==> x.hold)
    && (x.busy && x.hold ==> x.cancel)
  }

  /** Committed, then buffered, then not yet pushed: the samples of the plan in order. */
  ghost predicate InOrder(x: Shared, samples: seq<Joints>, pushed: nat, committed: seq<Joints>) {
    && |committed| <= |samples| && committed == samples[..|committed|]
    && (!x.hold ==>
          && |committed| <= pushed <= |samples|
          && x.buffer == samples[|committed|..pushed]
          && x.executed == |committed|)
    && |x.buffer| <= CAPACITY
  }

  ghost predicate Phases(x: Shared, plan: Plan, pushed: nat, committed: seq<Joints>) {
    && (x.generationFinished ==> x.ready && x.total == plan.total && pushed == |plan.samples| == plan.total)
    && (!x.hold ==>
          && (x.motion == Planning <==> !x.ready)
          && (x.motion == Planning || x.motion == Preposition ==> committed == [])
          && (x.motion == Finished ==> x.generationFinished && x.buffer == [])
          && (x.motion == Running && x.generationFinished ==> x.buffer != [])
          && (x.motion == Preposition ==> x.buffer != [])
          && (!x.busy ==> x.generationFinished)
          && (x.start.Some? <==> pushed > 0)
          && (x.start.Some? ==> |plan.samples| > 0 && x.start.value == plan.samples[0])
          && (x.generationFinished ==> |plan.samples| > 0 && x.final == Some(plan.samples[|plan.samples| - 1])))
  }

  /** What the planner knows at each of its program points while nothing was cancelled. */
  ghost predicate PlannerKnows(s: State) {
    var x := s.shared;
    && (s.planner == Generating || s.planner.Publishing? ==> |x.buffer| < CAPACITY)
    && (!x.hold && x.busy ==>
          match s.planner
          case Idle => Untouched(s)
          case Validating => Untouched(s)
          case Validated(_) => Untouched(s)
          case Initializing => Untouched(s)
          case Beginning => Untouched(s)
          case LoopTop => Looping(s, s.generated)
          case CheckingRoom => Looping(s, s.generated)
          case Generating => Looping(s, s.generated)
          case Publishing(q) => s.generated > 0 && Looping(s, s.generated - 1) && s.pushed < |s.plan.samples|
              && q == s.plan.samples[s.pushed]
          case AfterLoop(failed) => failed || s.stop || x.generationFinished
          case Aborting(_) => true
          case Finishing => x.generationFinished)
  }

  ghost predicate Untouched(s: State) {
    s.pushed == 0 && !s.shared.generationFinished && !s.shared.ready
  }

  ghost predicate Looping(s: State, delivered: nat) {
    s.pushed == delivered && s.shared.total == s.plan.total && (s.shared.generationFinished <==>
                                                                  s.pushed == s.plan.total)
  }

  /** The planner acts on a plan whose validation succeeded. */
  predicate Trusts(p: Planner) { p != Idle && p != Validating && p != Validated(false) && !p.Aborting? }

  /** Only a plan that passes gets as far as that, and then neither its initialisation nor its stream fails. */
  ghost predicate Vetted(s: State) {
    && (Trusts(s.planner) || s.pushed > 0 || s.committed != [] ==> s.plan.Passes())
    && s.planner != AfterLoop(true)
  }

  ghost predicate Inv(s: State) {
    OnePlan(s) && Vetted(s) && HoldIsEmpty(s.shared) && InOrder(s.shared, s.plan.samples, s.pushed, s.committed)
    && Phases(s.shared, s.plan, s.pushed, s.committed) && PlannerKnows(s)
  }

  lemma StartInv()
    ensures Inv(Start)
  {}

  // ---- every step keeps it ----

  lemma PublishKeeps(s: State, q: Joints)
    requires Inv(s) && s.planner == Publishing(q)
    ensures Inv(PlannerStep(s, true))
  {
    if !Cancelled(s) {
      var c, k := |s.committed|, s.pushed;
      assert s.plan.samples[c..k] + [s.plan.samples[k]] == s.plan.samples[c..k + 1];
    }
  }

  lemma BeginKeeps(s: State)
    requires Inv(s) && s.planner == Beginning
    ensures Inv(PlannerStep(s, true))
  {}

  lemma AbortKeeps(s: State)
    requires Inv(s) && s.planner.Aborting?
    ensures Inv(PlannerStep(s, true))
  {}

  lemma FinishKeeps(s: State)
    requires Inv(s) && s.planner == Finishing
    ensures Inv(PlannerStep(s, true))
  {}

  lemma ChoiceUnused(s: State)
    ensures !s.planner.Validating? ==> PlannerStep(s, true) == PlannerStep(s, false)
  {}

  lemma PlannerKeeps(s: State, choice: bool)
    requires Inv(s)
    ensures Inv(PlannerStep(s, choice))
  {
    hide Inv;
    ChoiceUnused(s);
    match s.planner
    case Publishing(q) => PublishKeeps(s, q);
    case Beginning => BeginKeeps(s);
    case Aborting(_) => AbortKeeps(s);
    case Finishing => FinishKeeps(s);
    case _ => LocalKeeps(s, choice);
  }

  /** Steps that touch no shared variable. */
  lemma LocalKeeps(s: State, choice: bool)
    requires Inv(s) && !s.planner.Beginning? && !s.planner.Publishing? && !s.planner.Aborting? && !s.planner.Finishing?
    ensures Inv(PlannerStep(s, choice))
  {
    hide HoldIsEmpty, InOrder, Phases;
    CancelHolds(s);
    if s.planner == Generating && !s.shared.hold {
      SamplesPushed(s);
    }
  }

  lemma CancelHolds(s: State)
    requires Inv(s)
    ensures s.shared.cancel ==> s.shared.hold
  {}

  lemma SamplesPushed(s: State)
    requires Inv(s) && s.planner == Generating && !s.shared.hold
    ensures s.pushed <= |s.plan.samples| && (s.pushed == s.plan.total ==> s.shared.generationFinished)
  {
  }

  lemma ReceiveKeeps(s: State, c: Command)
    requires Inv(s) && (c.RunCommand? ==> c.plan.Valid())
    ensures Inv(Receive(s, c))
  {}

  lemma ReceiveAllKeeps(s: State, commands: seq<Command>)
    requires Inv(s) && ValidCommands(commands)
    ensures Inv(ReceiveAll(s, commands))
    decreases |commands|
  {
    hide Inv, Receive;
    if commands != [] {
      ReceiveKeeps(s, commands[0]);
      ReceiveAllKeeps(Receive(s, commands[0]), commands[1..]);
    }
  }

  lemma PeekKeeps(s: State, enabled: bool)
    requires Inv(s)
    ensures Inv(PeekPhase(s, enabled)) && Sent(PeekPhase(s, enabled), enabled) == Sent(s, enabled)
    ensures Sent(s, enabled).Some? ==> PeekPhase(s, enabled) == s
  {
    hide Inv;
    if PeekPhase(s, enabled) != s {
      UnderrunKeeps(s);
    }
  }

  lemma UnderrunKeeps(s: State)
    requires Inv(s) && s.shared.motion == Running && !s.shared.generationFinished && s.shared.buffer == []
    ensures Inv(s.(shared := Underrun(s.shared)))
  {}

  lemma StopKeeps(s: State)
    requires Inv(s)
    ensures Inv(s.(stop := true))
  {}

  lemma ConsumeKeeps(s: State)
    requires Inv(s) && !s.shared.hold && s.shared.motion == Running && s.shared.buffer != []
    ensures Inv(Exchanged(s, true, true, true, true))
  {
    var c, k := |s.committed|, s.pushed;
    assert s.plan.samples[c..k][1..] == s.plan.samples[c + 1..k];
    assert s.plan.samples[..c] + [s.plan.samples[c]] == s.plan.samples[..c + 1];
  }

  lemma ExchangeKeeps(s: State, has: bool, atStart: bool, enabled: bool, wkcOk: bool)
    requires Inv(s)
    ensures Inv(Exchanged(s, has, atStart, enabled, wkcOk))
  {
    var x := s.shared;
    if wkcOk && !s.stop && !x.hold && x.ready && x.motion == Running && has && x.buffer != [] {
      ConsumeKeeps(s);
    }
  }

  lemma CycleKeeps(s: State, i: CycleInput)
    requires Inv(s) && ValidCommands(i.commands)
    ensures Inv(Cycle(s, i))
  {
    hide Inv, Exchanged, PeekPhase, ReceiveAll, Sent;
    ReceiveAllKeeps(s, i.commands);
    var received := ReceiveAll(s, i.commands);
    PeekKeeps(received, i.enabled);
    var peeked := PeekPhase(received, i.enabled);
    StopKeeps(peeked);
    var driven := peeked.(stop := peeked.stop || i.blocked);
    assert driven == peeked || driven == peeked.(stop := true);
    ExchangeKeeps(driven, Sent(received, i.enabled).Some?, s.shared.ready && s.shared.start.Some?
        && AtStart(driven.shared, i.position), i.enabled, i.wkcOk);
  }

  lemma ApplyKeeps(s: State, a: Step)
    requires Inv(s) && ValidStep(a)
    ensures Inv(Apply(s, a))
  {
    hide Inv, Cycle, PlannerStep;
    match a
    case PlannerTurn(choice) => PlannerKeeps(s, choice);
    case CycleTurn(i) => CycleKeeps(s, i);
    case Interrupt => StopKeeps(s);
  }

  lemma {:induction false} RunKeeps(s: State, steps: seq<Step>)
    requires Inv(s) && ValidSteps(steps)
    ensures Inv(Run(s, steps))
    decreases |steps|
  {
    hide Inv, Apply;
    if steps != [] {
      ApplyKeeps(s, steps[0]);
      RunKeeps(Apply(s, steps[0]), steps[1..]);
    }
  }

  // ---- what holds in every reachable state ----

  /**
   * In every run: the committed samples are a gap-free, duplicate-free prefix of the plan's
   * stream; a finished motion has committed all of it; during a motion every pushed sample is
   * either committed or buffered.
   */
  lemma CommittedInEveryRun(steps: seq<Step>)
    requires ValidSteps(steps)
    ensures var s := Run(Start, steps);
            && s.committed <= s.plan.samples
            && (s.shared.motion == Finished ==> s.committed == s.plan.samples && |s.committed| == s.plan.total)
            && (!s.shared.hold ==> s.pushed == |s.committed| + |s.shared.buffer|)
            && (s.shared.motion == Running && s.shared.generationFinished ==> s.shared.buffer != [])
  {
    StartInv();
    RunKeeps(Start, steps);
    var s := Run(Start, steps);
    hide Run;
    assert s.plan.samples[..|s.plan.samples|] == s.plan.samples;
  }

  /** The queue has room whenever a plan is accepted, and the ring has room whenever a sample is pushed. */
  lemma NothingOverflows(steps: seq<Step>)
    requires ValidSteps(steps)
    ensures var s := Run(Start, steps);
            && (!Rejects(s.shared) ==> s.queue == [])
            && (s.planner.Publishing? ==> |s.shared.buffer| < CAPACITY)
            && |s.shared.buffer| <= CAPACITY
  {
    StartInv();
    RunKeeps(Start, steps);
    hide Run;
  }

  /**
   * A cycle that sends a sample sends exactly the first uncommitted one, whatever commands it
   * received before, and commits it exactly when the exchange succeeds; otherwise the same sample is
   * first again.
   */
  lemma CycleCommitsWhatItSends(s: State, i: CycleInput)
    requires Inv(s) && ValidCommands(i.commands)
    ensures var r, t := ReceiveAll(s, i.commands), Cycle(s, i); var sent := Sent(r, i.enabled); var n := |r.committed|;
            && t.plan == r.plan && t.epoch == r.epoch
            && (sent.Some? ==> n < |r.plan.samples| && sent.value == r.plan.samples[n])
            && t.committed == (if sent.Some? && i.wkcOk && !i.blocked then r.committed + [sent.value] else r.committed)
            && (sent.Some? && !(i.wkcOk && !i.blocked) ==> t.shared == r.shared)
  {
    ReceiveAllKeeps(s, i.commands);
    hide ReceiveAll;
  }

  /** Receiving commands commits nothing; unless a new plan is accepted the plan under way stays the same. */
  lemma {:induction false} ReceivedKeepsCommitted(s: State, commands: seq<Command>)
    requires Inv(s) && ValidCommands(commands)
    ensures var r := ReceiveAll(s, commands);
            if r.epoch == s.epoch then r.plan == s.plan && r.committed == s.committed else r.committed == []
    decreases |commands|
  {
    hide Inv;
    if commands != [] {
      var t := Receive(s, commands[0]);
      ReceiveKeeps(s, commands[0]);
      EpochGrows(t, commands[1..]);
      ReceivedKeepsCommitted(t, commands[1..]);
    }
  }

  /** No accepted plan fails to initialise or to stream once its validation succeeded. */
  lemma ProducerNeverFails(steps: seq<Step>)
    requires ValidSteps(steps)
    ensures var s := Run(Start, steps);
            && (s.planner == Initializing ==> s.plan.starts)
            && (s.planner == Generating && s.generated >= |s.plan.samples| ==> s.generated >= s.plan.total)
            && s.planner != AfterLoop(true)
            && (s.committed != [] ==> s.plan.Passes())
  {
    StartInv();
    RunKeeps(Start, steps);
    hide Run;
  }

  // ---- holding ----

  lemma HoldReceive(s: State, c: Command)
    requires Inv(s) && s.shared.hold && (c.RunCommand? ==> c.plan.Valid())
    ensures Receive(s, c).epoch == s.epoch ==>
            Receive(s, c).shared.hold && Receive(s, c).committed == s.committed && Receive(s, c).plan == s.plan
    ensures Receive(s, c).epoch >= s.epoch
  {}

  lemma EpochGrows(s: State, commands: seq<Command>)
    ensures ReceiveAll(s, commands).epoch >= s.epoch
    decreases |commands|
  {
    if commands != [] {
      EpochGrows(Receive(s, commands[0]), commands[1..]);
    }
  }

  lemma {:induction false} HoldReceiveAll(s: State, commands: seq<Command>)
    requires Inv(s) && s.shared.hold && ValidCommands(commands)
    ensures var t := ReceiveAll(s, commands);
            t.epoch == s.epoch ==> t.shared.hold && t.committed == s.committed && t.plan == s.plan
    decreases |commands|
  {
    hide Inv, Receive;
    if commands != [] {
      HoldReceive(s, commands[0]);
      ReceiveKeeps(s, commands[0]);
      var t := Receive(s, commands[0]);
      EpochGrows(t, commands[1..]);
      if t.epoch == s.epoch {
        HoldReceiveAll(t, commands[1..]);
      }
    }
  }

  lemma HoldApply(s: State, a: Step)
    requires Inv(s) && s.shared.hold && ValidStep(a)
    ensures var t := Apply(s, a);
            t.epoch == s.epoch ==> t.shared.hold && t.committed == s.committed && t.plan == s.plan
    ensures Apply(s, a).epoch >= s.epoch
  {
    hide ReceiveAll;
    match a
    case CycleTurn(i) =>
      HoldReceiveAll(s, i.commands);
      EpochGrows(s, i.commands);
    case _ =>
  }

  lemma {:induction false} EpochNeverFalls(s: State, steps: seq<Step>)
    ensures Run(s, steps).epoch >= s.epoch
    decreases |steps|
  {
    if steps != [] {
      match steps[0] {
        case CycleTurn(i) => EpochGrows(s, i.commands);
        case _ =>
      }
      EpochNeverFalls(Apply(s, steps[0]), steps[1..]);
    }
  }

  /** Once held, nothing more of a plan is committed in any continuation before a new plan is accepted. */
  lemma {:induction false} NoCommitAfterHold(s: State, steps: seq<Step>)
    requires Inv(s) && s.shared.hold && ValidSteps(steps) && Run(s, steps).epoch == s.epoch
    ensures Run(s, steps).committed == s.committed && Run(s, steps).shared.hold
    decreases |steps|
  {
    hide Inv, Apply;
    if steps != [] {
      var t := Apply(s, steps[0]);
      ApplyKeeps(s, steps[0]);
      HoldApply(s, steps[0]);
      EpochNeverFalls(t, steps[1..]);
      NoCommitAfterHold(t, steps[1..]);
    }
  }

  // ---- the state shown after a STOP ----

  /** Validation failed, the planner has passed its cancellation check, and it has yet to abort into WAITING. */
  ghost predicate MayLoseHold(s: State) { s.planner == Aborting(false) }

  ghost predicate StoppedInHold(s: State) { s.shared.motion == Hold && s.shared.cancel }

  lemma {:induction false} HoldStaysReceiving(s: State, commands: seq<Command>)
    requires Inv(s) && ValidCommands(commands) && StoppedInHold(s)
    ensures var t := ReceiveAll(s, commands);
            t.epoch == s.epoch ==> StoppedInHold(t) && t.planner == s.planner
    decreases |commands|
  {
    hide Inv;
    if commands != [] {
      var t := Receive(s, commands[0]);
      ReceiveKeeps(s, commands[0]);
      EpochGrows(t, commands[1..]);
      if t.epoch == s.epoch {
        HoldStaysReceiving(t, commands[1..]);
      }
    }
  }

  lemma {:induction false} StopReceived(s: State, commands: seq<Command>)
    requires Inv(s) && ValidCommands(commands) && StopCommand in commands
    ensures var t := ReceiveAll(s, commands);
            t.epoch > s.epoch || (StoppedInHold(t) && t.committed == s.committed)
    decreases |commands|
  {
    hide Inv;
    var t := Receive(s, commands[0]);
    ReceiveKeeps(s, commands[0]);
    EpochGrows(t, commands[1..]);
    if commands[0].StopCommand? {
      HeldInHold(t);
      HoldStaysReceiving(t, commands[1..]);
      HoldReceiveAll(t, commands[1..]);
    } else if t.epoch == s.epoch {
      StopReceived(t, commands[1..]);
    }
  }

  lemma {:induction false} LastReceived(s: State, commands: seq<Command>)
    requires commands != [] && commands[|commands| - 1].StopCommand?
    ensures exists t: State :: ReceiveAll(s, commands) == t.(shared := Stopped(t.shared))
    decreases |commands|
  {
    if |commands| == 1 {
      assert commands[1..] == [];
      assert ReceiveAll(s, commands) == s.(shared := Stopped(s.shared));
    } else {
      LastReceived(Receive(s, commands[0]), commands[1..]);
    }
  }

  /** A cycle that starts its exchange held commits nothing and stays held. */
  lemma HeldCycle(s: State, i: CycleInput)
    requires Inv(s) && ValidCommands(i.commands) && ReceiveAll(s, i.commands).shared.hold
    ensures var received, t := ReceiveAll(s, i.commands), Cycle(s, i);
            t.shared == received.shared && t.committed == received.committed && t.epoch == received.epoch
  {
    hide ReceiveAll;
  }

  /**
   * Wherever a STOP stands among the commands of a cycle, that cycle itself commits nothing more and
   * leaves the motion in HOLD with the planner cancelled, unless a newer plan is accepted after it;
   * as the last command it always does.  An underrun holds too, whatever was received before it.
   */
  lemma StopAndUnderrunHold(s: State, i: CycleInput)
    requires Inv(s) && ValidCommands(i.commands)
    ensures var t := Cycle(s, i);
            && (StopCommand in i.commands ==> t.epoch > s.epoch || (StoppedInHold(t) && t.committed == s.committed))
            && (i.commands != [] && i.commands[|i.commands| - 1].StopCommand? ==> StoppedInHold(t))
            && (var r := ReceiveAll(s, i.commands);
                MayPeek(r, i.enabled) && r.shared.buffer == [] ==> StoppedInHold(t) && t.committed == r.committed)
  {
    UnderrunHolds(s, i);
    if StopCommand in i.commands {
      hide Inv, Exchanged, Sent, PeekPhase;
      ReceiveAllKeeps(s, i.commands);
      StopReceived(s, i.commands);
      var received := ReceiveAll(s, i.commands);
      if received.shared.hold {
        HeldCycle(s, i);
      }
      CycleEpoch(s, i);
      if StoppedInHold(received) {
        HeldInHold(received);
      }
      if i.commands[|i.commands| - 1].StopCommand? {
        LastReceived(s, i.commands);
      }
    }
  }

  lemma UnderrunHolds(s: State, i: CycleInput)
    requires Inv(s) && ValidCommands(i.commands)
    ensures var r, t := ReceiveAll(s, i.commands), Cycle(s, i);
            MayPeek(r, i.enabled) && r.shared.buffer == [] ==> StoppedInHold(t) && t.committed == r.committed
  {
    ReceiveAllKeeps(s, i.commands);
    hide ReceiveAll;
  }

  lemma CycleEpoch(s: State, i: CycleInput)
    ensures Cycle(s, i).epoch == ReceiveAll(s, i.commands).epoch
  {
    hide ReceiveAll;
  }

  lemma HeldInHold(s: State)
    requires Inv(s) && s.shared.motion == Hold
    ensures s.shared.hold
  {}

  lemma HoldStays(s: State, a: Step)
    requires Inv(s) && ValidStep(a) && StoppedInHold(s) && !MayLoseHold(s)
    ensures var t := Apply(s, a); t.epoch == s.epoch ==> StoppedInHold(t) && !MayLoseHold(t)
  {
    hide ReceiveAll;
    match a
    case CycleTurn(i) => HoldStaysReceiving(s, i.commands);
    case _ =>
  }

  lemma {:induction false} HoldStaysRun(s: State, steps: seq<Step>)
    requires Inv(s) && ValidSteps(steps) && StoppedInHold(s) && !MayLoseHold(s) && Run(s, steps).epoch == s.epoch
    ensures Run(s, steps).shared.motion == Hold
    decreases |steps|
  {
    hide Inv, Apply, MayLoseHold;
    if steps != [] {
      var t := Apply(s, steps[0]);
      ApplyKeeps(s, steps[0]);
      HeldInHold(s);
      HoldStays(s, steps[0]);
      HoldApply(s, steps[0]);
      EpochNeverFalls(t, steps[1..]);
      HoldStaysRun(t, steps[1..]);
    }
  }

  /**
   * A stopped motion is reported as HOLD until the next accepted plan, in every continuation,
   * exactly when the planner was not already past its check with a failed validation.
   */
  lemma HoldKeptExactly(s: State)
    requires Inv(s) && StoppedInHold(s)
    ensures (forall steps ::
               ValidSteps(steps) && Run(s, steps).epoch == s.epoch ==>
               Run(s, steps).shared.motion == Hold) <==> !MayLoseHold(s)
  {
    if MayLoseHold(s) {
      HoldLost(s);
    } else {
      forall steps | ValidSteps(steps) && Run(s, steps).epoch == s.epoch
        ensures Run(s, steps).shared.motion == Hold
      {
        HoldStaysRun(s, steps);
      }
    }
  }

  /** The interleaving that turns HOLD into WAITING without a new plan. */
  lemma HoldLost(s: State)
    requires MayLoseHold(s)
    ensures exists steps ::
            ValidSteps(steps) && Run(s, steps).epoch == s.epoch && Run(s, steps).shared.motion == Waiting
  {
    var turn := PlannerTurn(false);
    RunOne(s, turn);
    assert ValidSteps([turn]) && Run(s, [turn]).epoch == s.epoch && Run(s, [turn]).shared.motion == Waiting;
  }

  lemma {:induction false} RunsCompose(s: State, first: seq<Step>, second: seq<Step>)
    ensures Run(s, first + second) == Run(Run(s, first), second)
    decreases |first|
  {
    if first == [] {
      assert first + second == second;
    } else {
      assert (first + second)[1..] == first[1..] + second;
      RunsCompose(Apply(s, first[0]), first[1..], second);
    }
  }

  lemma RunOne(s: State, a: Step)
    ensures Run(s, [a]) == Apply(s, a)
  {
    assert [a][1..] == [];
  }

  /** A stream of one sample outside the joint limits. */
  const OutsideLimits := Plan(true, [[]], 1, false)
  const RunTurn := CycleTurn(CycleInput([RunCommand(OutsideLimits)], false, [], false, false))
  const StopTurn := CycleTurn(CycleInput([StopCommand], false, [], false, false))

  /** A plan is accepted, fails validation, and is stopped after the planner's check for a cancellation. */
  lemma StoppedAfterCheck() returns (steps: seq<Step>)
    ensures ValidSteps(steps) && steps != [] && steps[|steps| - 1] == StopTurn
    ensures var s := Run(Start, steps); StoppedInHold(s) && MayLoseHold(s)
  {
    var turn := PlannerTurn(true);
    steps := [RunTurn] + [turn] + [turn] + [turn] + [StopTurn];
    var s1 := Apply(Start, RunTurn);
    Accepted();
    var s2 := Apply(s1, turn);
    var s3 := Apply(s2, turn);
    var s4 := Apply(s3, turn);
    assert s3.planner == Validated(false) && s4.planner == Aborting(false);
    RunOne(Start, RunTurn);
    RunOne(s1, turn);
    RunOne(s2, turn);
    RunOne(s3, turn);
    RunOne(s4, StopTurn);
    RunsCompose(Start, [RunTurn], [turn]);
    RunsCompose(Start, [RunTurn] + [turn], [turn]);
    RunsCompose(Start, [RunTurn] + [turn] + [turn], [turn]);
    RunsCompose(Start, [RunTurn] + [turn] + [turn] + [turn], [StopTurn]);
    StopTaken(s4);
  }

  lemma Accepted()
    ensures var s := Apply(Start, RunTurn);
            && s.planner == Idle && s.queue == [OutsideLimits] && s.plan == OutsideLimits
            && !s.stop && !s.shared.cancel
  {
    var commands := [RunCommand(OutsideLimits)];
    assert commands[1..] == [];
    assert ReceiveAll(Start, commands) == Receive(Start, commands[0]);
  }

  lemma StopTaken(s: State)
    ensures var t := Apply(s, StopTurn); StoppedInHold(t) && t.planner == s.planner && t.epoch == s.epoch
  {
    var commands := [StopCommand];
    assert commands[1..] == [];
    assert ReceiveAll(s, commands) == Receive(s, StopCommand);
  }

  /** A run in which a STOP is followed by WAITING although no newer plan was accepted. */
  lemma HoldLostInSomeRun()
    ensures exists early, late :: ValidSteps(early + late) && early != [] && early[|early| - 1] == StopTurn
              && StoppedInHold(Run(Start, early)) && Run(Start, early + late).epoch == Run(Start, early).epoch
              && Run(Start, early + late).shared.motion == Waiting
  {
    var early := StoppedAfterCheck();
    var s := Run(Start, early);
    HoldLost(s);
    var late :| ValidSteps(late) && Run(s, late).epoch == s.epoch && Run(s, late).shared.motion == Waiting;
    RunsCompose(Start, early, late);
    assert ValidSteps(early + late);
  }

  // ---- what is committed comes from an accepted plan that passes ----

  /** Every plan that is ever sent has the property `good`. */
  ghost predicate SentPlans(good: Plan -> bool, steps: seq<Step>) {
    forall k :: 0 <= k < |steps| && steps[k].CycleTurn? ==> PlansIn(good, steps[k].input.commands)
  }

  ghost predicate PlansIn(good: Plan -> bool, commands: seq<Command>) {
    forall k :: 0 <= k < |commands| && commands[k].RunCommand? ==> good(commands[k].plan)
  }

  lemma {:induction false} ReceivedPlan(good: Plan -> bool, s: State, commands: seq<Command>)
    requires PlansIn(good, commands) && (s.plan == Start.plan || good(s.plan))
    ensures var t := ReceiveAll(s, commands); t.plan == Start.plan || good(t.plan)
    decreases |commands|
  {
    if commands != [] {
      ReceivedPlan(good, Receive(s, commands[0]), commands[1..]);
    }
  }

  lemma AppliedPlan(good: Plan -> bool, s: State, a: Step)
    requires (a.CycleTurn? ==> PlansIn(good, a.input.commands)) && (s.plan == Start.plan || good(s.plan))
    ensures var t := Apply(s, a); t.plan == Start.plan || good(t.plan)
  {
    match a
    case CycleTurn(i) =>
      ReceivedPlan(good, s, i.commands);
      hide ReceiveAll;
    case _ =>
  }

  lemma {:induction false} RunPlan(good: Plan -> bool, s: State, steps: seq<Step>)
    requires SentPlans(good, steps) && (s.plan == Start.plan || good(s.plan))
    ensures var t := Run(s, steps); t.plan == Start.plan || good(t.plan)
    decreases |steps|
  {
    hide Apply;
    if steps != [] {
      AppliedPlan(good, s, steps[0]);
      RunPlan(good, Apply(s, steps[0]), steps[1..]);
    }
  }

  /** In every run, whatever is committed belongs to a plan that was sent and that passes validation. */
  lemma CommittedWasSent(good: Plan -> bool, steps: seq<Step>)
    requires ValidSteps(steps) && SentPlans(good, steps)
    ensures var s := Run(Start, steps); s.committed != [] ==> good(s.plan) && s.plan.Passes()
  {
    RunPlan(good, Start, steps);
    StartInv();
    RunKeeps(Start, steps);
    hide Run;
  }
}
