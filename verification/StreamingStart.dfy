/** When a motion begins, and where the drives are told to go. */
module StreamingStart {
  import opened StreamingControl
  import opened StreamingRuns

  // ---- standing at the start ----

  /** The whole number nearest to `x`; half-way, the one further from zero. */
  ghost predicate Nearest(n: int, x: real) {
    if x >= 0.0 then -0.5 < n as real - x <= 0.5 else -0.5 <= n as real - x < 0.5
  }

  lemma RoundedNear(x: real, n: int)
    ensures Rounded(x) == n <==> Nearest(n, x)
  {}

  function InUnits(angle: real): real { angle * 131072.0 / 6.28318530717958647692 }

  /** Within five units of the angle, itself taken in whole units. */
  ghost predicate NearAngle(position: int, angle: real) {
    exists n :: Nearest(n, InUnits(angle)) && n - 5 <= position <= n + 5
  }

  lemma NearMeans(position: int, angle: real)
    ensures NearUnits(position, angle) <==> NearAngle(position, angle)
  {
    RoundedNear(InUnits(angle), Units(angle));
    forall n | Nearest(n, InUnits(angle))
      ensures n == Units(angle)
    {
      RoundedNear(InUnits(angle), n);
    }
  }

  lemma StandsNear(position: seq<int>, q: Joints)
    ensures StandsAt(position, q) <==>
              |position| == |q| == 6 && forall j :: 0 <= j < 6 ==> NearAngle(position[j], q[j])
  {
    hide NearUnits, NearAngle;
    forall j | 0 <= j < |position| && j < |q|
      ensures NearUnits(position[j], q[j]) <==> NearAngle(position[j], q[j])
    {
      NearMeans(position[j], q[j]);
    }
  }

  // ---- one cycle ----

  /**
   * What it takes to begin: the arm is being positioned, stands at the first sample of the accepted plan
   * with every drive enabled, nothing stops it in this cycle, and the exchange succeeds.
   */
  ghost predicate Begins(s: State, i: CycleInput) {
    && s.shared.motion == Preposition && StopCommand !in i.commands && !s.stop && !i.blocked
    && i.enabled && i.wkcOk && s.plan.samples != [] && StandsAt(i.position, s.plan.samples[0])
  }

  predicate Idling(x: Shared) { x.motion == Planning || x.motion == Waiting || x.motion == Hold }

  /** Commands leave everything alone or end any motion. */
  lemma {:induction false} ReceivedMotion(s: State, commands: seq<Command>)
    ensures var r := ReceiveAll(s, commands);
            && (r == s || Idling(r.shared))
            && (StopCommand in commands || Idling(s.shared) ==> Idling(r.shared))
            && (StopCommand !in commands && s.shared.motion == Preposition ==> r == s)
    decreases |commands|
  {
    if commands != [] {
      ReceivedMotion(Receive(s, commands[0]), commands[1..]);
    }
  }

  lemma CycleBegins(s: State, i: CycleInput)
    requires Inv(s) && ValidCommands(i.commands) && s.shared.motion != Running
    ensures Cycle(s, i).shared.motion == Running <==> Begins(s, i)
    ensures Begins(s, i) ==> var t := Cycle(s, i); t.committed == [] && t.plan == s.plan && t.epoch == s.epoch
  {
    ReceivedMotion(s, i.commands);
    ReceiveAllKeeps(s, i.commands);
    hide ReceiveAll, StandsAt;
  }

  lemma PublishedMotion(x: Shared, q: Joints, isFinal: bool)
    ensures var y := Published(x, q, isFinal); y.Some? ==> y.value.motion == x.motion || y.value.motion == Preposition
  {}

  lemma PlannerHistory(s: State, choice: bool)
    ensures var t := PlannerStep(s, choice); t.committed == s.committed && t.epoch == s.epoch && t.plan == s.plan
  {
    hide Published, Begun, Aborted, ProducerDone, Plan.Passes;
  }

  lemma SectionMotion(x: Shared, total: nat, preserveHold: bool)
    ensures Begun(x, total).motion == x.motion && Aborted(x, preserveHold).motion in {Hold, Waiting}
    ensures ProducerDone(x).motion == x.motion || ProducerDone(x).motion == Preposition
  {}

  lemma PlannerMotion(s: State, choice: bool)
    ensures var t := PlannerStep(s, choice);
            t.shared.motion == s.shared.motion || t.shared.motion !in {Running, Finished}
  {
    hide Published, Begun, Aborted, ProducerDone, Plan.Passes;
    SectionMotion(s.shared, s.plan.total, s.planner.Aborting? && s.planner.preserveHold);
    if s.planner.Publishing? {
      PublishedMotion(s.shared, s.planner.q, s.generated >= s.plan.total);
    }
  }

  lemma PlannerBegins(s: State, choice: bool)
    ensures var t := PlannerStep(s, choice);
            && (t.shared.motion == Running ==> s.shared.motion == Running)
            && (t.shared.motion == Finished ==> s.shared.motion == Finished)
            && t.committed == s.committed && t.epoch == s.epoch && t.plan == s.plan
  {
    hide PlannerStep;
    PlannerHistory(s, choice);
    PlannerMotion(s, choice);
  }

  // ---- every run ----

  lemma RunNext(steps: seq<Step>, k: nat)
    requires k < |steps|
    ensures Run(Start, steps[..k + 1]) == Apply(Run(Start, steps[..k]), steps[k])
  {
    assert steps[..k + 1] == steps[..k] + [steps[k]];
    RunsCompose(Start, steps[..k], [steps[k]]);
    RunOne(Run(Start, steps[..k]), steps[k]);
  }

  /** Step `k` of the run begins the motion of the plan accepted last. */
  ghost predicate BeginsAt(steps: seq<Step>, k: nat) {
    && k < |steps| && steps[k].CycleTurn? && Begins(Run(Start, steps[..k]), steps[k].input)
    && var t := Run(Start, steps[..k + 1]); t.shared.motion == Running && t.committed == []
  }

  lemma PrefixInv(steps: seq<Step>, k: nat)
    requires ValidSteps(steps) && k <= |steps|
    ensures Inv(Run(Start, steps[..k]))
  {
    hide Inv, Run;
    StartInv();
    RunKeeps(Start, steps[..k]);
  }

  /** In every run a motion begins in no other way: each step after which it runs, but not before, is such a cycle. */
  lemma MotionBegins(steps: seq<Step>, k: nat)
    requires ValidSteps(steps) && k < |steps| && Run(Start, steps[..k]).shared.motion != Running
    ensures Run(Start, steps[..k + 1]).shared.motion == Running <==> BeginsAt(steps, k)
  {
    hide Run, Inv, Begins, Cycle, PlannerStep;
    PrefixInv(steps, k);
    RunNext(steps, k);
    var s := Run(Start, steps[..k]);
    assert ValidStep(steps[k]);
    match steps[k]
    case PlannerTurn(choice) => PlannerBegins(s, choice);
    case CycleTurn(i) => CycleBegins(s, i);
    case Interrupt =>
  }

  /** The motion of the current plan has begun. */
  ghost predicate UnderWay(s: State) {
    s.committed != [] || s.shared.motion == Running || s.shared.motion == Finished
  }

  /** Nothing is committed, running or finished that was not before, unless the motion begins. */
  lemma StaysUnderWay(s: State, a: Step)
    requires Inv(s) && ValidStep(a) && UnderWay(Apply(s, a)) && !(a.CycleTurn? && Begins(s, a.input))
    ensures UnderWay(s) && Apply(s, a).epoch == s.epoch && Apply(s, a).plan == s.plan
  {
    match a
    case PlannerTurn(choice) => PlannerBegins(s, choice);
    case CycleTurn(i) => CycleUnderWay(s, i);
    case Interrupt =>
  }

  lemma CycleUnderWay(s: State, i: CycleInput)
    requires Inv(s) && ValidCommands(i.commands) && UnderWay(Cycle(s, i)) && !Begins(s, i)
    ensures UnderWay(s) && Cycle(s, i).epoch == s.epoch && Cycle(s, i).plan == s.plan
  {
    ReceivedMotion(s, i.commands);
    ReceiveAllKeeps(s, i.commands);
    ReceivedKeepsCommitted(s, i.commands);
    if s.shared.motion != Running {
      CycleBegins(s, i);
    }
    hide ReceiveAll, StandsAt, Begins;
  }

  /**
   * In every run: whatever is committed, and any motion that runs or has finished, was begun by a cycle in
   * which the arm stood at the first sample of that same plan.
   */
  lemma {:induction false} CommittedAfterStart(steps: seq<Step>) returns (k: nat)
    requires ValidSteps(steps) && UnderWay(Run(Start, steps))
    ensures BeginsAt(steps, k) && k < |steps|
    ensures var x, s := Run(Start, steps[..k]), Run(Start, steps); x.epoch == s.epoch && x.plan == s.plan
    decreases |steps|
  {
    hide Inv, Begins, Apply;
    assert steps != [];
    var last := |steps| - 1;
    var early := steps[..last];
    assert steps[..last + 1] == steps;
    RunNext(steps, last);
    PrefixInv(steps, last);
    var s := Run(Start, early);
    if steps[last].CycleTurn? && Begins(s, steps[last].input) {
      k := last;
      BegunNow(s, steps[last].input);
    } else {
      StaysUnderWay(s, steps[last]);
      k := CommittedAfterStart(early);
      assert early[..k] == steps[..k] && early[..k + 1] == steps[..k + 1];
    }
  }

  lemma BegunNow(s: State, i: CycleInput)
    requires Inv(s) && ValidCommands(i.commands) && Begins(s, i)
    ensures var t := Apply(s, CycleTurn(i));
            t.shared.motion == Running && t.committed == [] && t.epoch == s.epoch && t.plan == s.plan
  {
    hide Inv, Cycle;
    CycleBegins(s, i);
  }

  // ---- enough samples before the start ----

  /** The arm is positioned once 128 samples are buffered or the stream is complete, and not before. */
  ghost predicate Prefilled(x: Shared) {
    !x.hold ==>
      && (x.motion == Preposition ==> |x.buffer| >= 128 || x.generationFinished)
      && (x.motion == Planning ==> |x.buffer| < 128 && !x.generationFinished)
  }

  lemma {:induction false} ReceivedEmpty(s: State, commands: seq<Command>)
    ensures var r := ReceiveAll(s, commands); r == s || (r.shared.buffer == [] && !r.shared.generationFinished
                                                         && r.shared.motion != Preposition)
    decreases |commands|
  {
    if commands != [] {
      ReceivedEmpty(Receive(s, commands[0]), commands[1..]);
    }
  }

  lemma PublishPrefills(x: Shared, q: Joints, isFinal: bool)
    requires Prefilled(x) && (x.motion == Planning <==> !x.hold && !x.ready)
    ensures var y := Published(x, q, isFinal); y.Some? ==> Prefilled(y.value)
  {}

  lemma PlannerPrefills(s: State, choice: bool)
    requires Inv(s) && Prefilled(s.shared)
    ensures Prefilled(PlannerStep(s, choice).shared)
  {
    hide Published, Plan.Passes, Vetted, InOrder;
    if s.planner.Publishing? {
      PublishPrefills(s.shared, s.planner.q, s.generated >= s.plan.total);
    }
  }

  lemma CyclePrefills(s: State, i: CycleInput)
    requires Inv(s) && ValidCommands(i.commands) && Prefilled(s.shared)
    ensures Prefilled(Cycle(s, i).shared)
  {
    ReceivedEmpty(s, i.commands);
    ReceiveAllKeeps(s, i.commands);
    hide ReceiveAll, StandsAt;
  }

  lemma {:induction false} PrefilledRun(s: State, steps: seq<Step>)
    requires Inv(s) && Prefilled(s.shared) && ValidSteps(steps)
    ensures Prefilled(Run(s, steps).shared)
    decreases |steps|
  {
    hide Inv, Prefilled, Cycle, PlannerStep;
    if steps != [] {
      var a := steps[0];
      ApplyKeeps(s, a);
      match a {
        case PlannerTurn(choice) => PlannerPrefills(s, choice);
        case CycleTurn(i) => CyclePrefills(s, i);
        case Interrupt =>
      }
      PrefilledRun(Apply(s, a), steps[1..]);
    }
  }

  /** In every run; and never more than 256 samples are buffered. */
  lemma PrefilledInEveryRun(steps: seq<Step>)
    requires ValidSteps(steps)
    ensures Prefilled(Run(Start, steps).shared) && |Run(Start, steps).shared.buffer| <= 256
  {
    StartInv();
    PrefilledRun(Start, steps);
    RunKeeps(Start, steps);
    hide Run;
  }

  // ---- where the drives are told to go ----

  datatype Target = Stay | MoveTo(q: Joints)

  /** The position sent to the drives, in a state after the peek. */
  function Commanded(s: State, sent: Option<Joints>, enabled: bool): Target {
    var x := s.shared;
    if s.stop || !enabled || x.hold then Stay
    else if x.motion == Preposition && x.start.Some? then MoveTo(x.start.value)
    else if x.motion == Running && sent.Some? then MoveTo(sent.value)
    else if x.motion == Finished && x.final.Some? then MoveTo(x.final.value)
    else Stay
  }

  /** The first sample that is not committed, or the last one. */
  function Next(samples: seq<Joints>, committed: nat): Joints
    requires samples != []
  {
    if committed < |samples| then samples[committed] else samples[|samples| - 1]
  }

  /**
   * In every cycle of every run the drives are told to stay where they are, or to go to the first
   * uncommitted sample of a plan that passed validation - the last one once all are committed.  They are
   * told to stay exactly when stopping, not enabled, held, or while a plan is still being prepared.
   */
  lemma CommandedInEveryRun(steps: seq<Step>, i: CycleInput)
    requires ValidSteps(steps) && ValidCommands(i.commands)
    ensures var r := ReceiveAll(Run(Start, steps), i.commands); var p := PeekPhase(r, i.enabled);
            var target := Commanded(p, Sent(r, i.enabled), i.enabled);
            && (target.Stay? <==> r.stop || !i.enabled || p.shared.hold || r.shared.motion == Planning)
            && (target.MoveTo? ==> r.plan.Passes() && target.q == Next(r.plan.samples, |r.committed|))
  {
    hide Run, Inv;
    StartInv();
    RunKeeps(Start, steps);
    ReceiveAllKeeps(Run(Start, steps), i.commands);
    CommandedIn(ReceiveAll(Run(Start, steps), i.commands), i.enabled);
  }

  lemma CommandedIn(r: State, enabled: bool)
    requires Inv(r)
    ensures var p := PeekPhase(r, enabled); var target := Commanded(p, Sent(r, enabled), enabled);
            && (target.Stay? <==> r.stop || !enabled || p.shared.hold || r.shared.motion == Planning)
            && (target.MoveTo? ==> r.plan.Passes() && target.q == Next(r.plan.samples, |r.committed|))
  {}
}
