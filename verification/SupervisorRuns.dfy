/** What holds in every run of the HMI task and the supervisor task. */
module SupervisorRuns {
  import opened StateMachine
  import opened SupervisorTask
  import Runs = StateMachineRuns

  type Action = Runs.Action

  // ---- what the messages and steps demand, by the state machine alone ----

  /** What the supervisor did: a message it dequeued, or a step of the active module with its outcome. */
  datatype Occurrence = Took(message: Message) | Ran(outcome: Outcome)

  function Presented(m: Machine, e: Option<Event>): seq<Action> {
    if e.None? || Diverted(m.active, e.value.kind) then [] else [Runs.Deliver(e.value)]
  }

  /** The machine when a command's policy event is raised: a geometry command may have started teaching. */
  function Selected(m: Machine, c: Command): Machine {
    if TeachEvent(c, m.active).Some? then Handle(m, TeachEvent(c, m.active).value).0 else m
  }

  function ActionsFor(m: Machine, o: Occurrence): seq<Action> {
    match o
    case Ran(outcome) => Presented(m, ReportOf(m.active, outcome))
    case Took(EventMessage(event)) => Presented(m, Some(event))
    case Took(SafetyMessage(safety)) => [Runs.Snapshot(safety)]
    case Took(HmiMessage(c)) =>
      Presented(m, TeachEvent(c, m.active)) + Presented(Selected(m, c), PolicyEvent(c, m.active, Selected(m, c).active))
    case Took(_) => []
  }

  /** The run of the state machine that a history amounts to. */
  function ActionsOf(past: seq<Occurrence>): seq<Action> {
    if past == [] then [Runs.Unify]
    else
      var before := ActionsOf(past[..|past| - 1]);
      before + ActionsFor(Runs.Run(before), past[|past| - 1])
  }

  function MachineAt(past: seq<Occurrence>): Machine { Runs.Run(ActionsOf(past)) }

  /** The teaching event of an occurrence in TEACHING: that of a command, or one posted directly. */
  function TeachingFor(m: Machine, o: Occurrence): Option<TeachingEvent> {
    match o
    case Took(HmiMessage(c)) => if Selected(m, c).active == Teaching then TeachingOf(c, m.active) else None
    case Took(RawTeachingMessage(t)) => if m.active == Teaching then t else None
    case _ => None
  }

  /** All teaching events dequeued in TEACHING, in order. */
  function TeachingDue(past: seq<Occurrence>): seq<TeachingEvent> {
    if past == [] then []
    else
      var before := past[..|past| - 1];
      TeachingDue(before) + Slot(TeachingFor(MachineAt(before), past[|past| - 1]))
  }

  function Slot<T>(x: Option<T>): seq<T> { if x.Some? then [x.value] else [] }

  /** The teaching events among the inputs of the teaching steps. */
  function Consumed(steps: seq<Option<TeachingEvent>>): seq<TeachingEvent> {
    if steps == [] then [] else Consumed(steps[..|steps| - 1]) + Slot(steps[|steps| - 1])
  }

  function Commands(messages: seq<Message>): seq<Command> {
    if messages == [] then [] else Commands(messages[..|messages| - 1]) + CommandOf(messages[|messages| - 1])
  }

  function CommandOf(message: Message): seq<Command> {
    if message.HmiMessage? then [message.command] else []
  }

  function MessagesOf(past: seq<Occurrence>): seq<Message> {
    if past == [] then []
    else MessagesOf(past[..|past| - 1]) + (if past[|past| - 1].Took? then [past[|past| - 1].message] else [])
  }

  function Translated(events: seq<HmiEvent>): seq<Command> {
    if events == [] then [] else Translated(events[..|events| - 1]) + Slot(Translate(events[|events| - 1]))
  }

  /** How often a run moves the machine from one state directly to another. */
  function Moves(actions: seq<Action>, from: StateId, to: StateId): nat {
    if actions == [] then 0
    else
      var before := actions[..|actions| - 1];
      Moves(before, from, to) + (if Runs.Run(before).active == from && Runs.Run(actions).active == to then 1 else 0)
  }

  function FreshEntries(entries: seq<Entry>, s: StateId): nat {
    if entries == [] then 0
    else FreshEntries(entries[..|entries| - 1], s) + (if entries[|entries| - 1] == Entry(s, true) then 1 else 0)
  }

  // ---- the system ----

  datatype Phase = Draining(count: nat) | Stepping

  datatype System = System(
    hmi: Hmi, queue: seq<Message>, context: Context, phase: Phase,
    // history: events the HMI task took, and what the supervisor did
    taken: seq<HmiEvent>, past: seq<Occurrence>)

  const Start := System(Hmi([], NoHmiEvent), [], Initial, Draining(0), [], [])

  datatype Step =
    | SubmitStep(event: HmiEvent) | FetchStep(received: HmiEvent) | ForwardStep
    | PostStep(message: Message) | SupervisorStep(outcome: Outcome)

  /** One turn of the supervisor's loop: a message, the end of the message loop, or a step of the active module. */
  function SupervisorTurn(s: System, o: Outcome): System {
    match s.phase
    case Stepping => s.(context := AfterStep(s.context, o), phase := Draining(0), past := s.past + [Ran(o)])
    case Draining(count) =>
      if count >= MAX_MESSAGES || s.queue == [] then s.(phase := Stepping)
      else
        var x := AfterMessage(s.context, s.queue[0]);
        s.(context := x, queue := s.queue[1..], past := s.past + [Took(s.queue[0])],
           phase := if x.pendingTeaching.Some? then Stepping else Draining(count + 1))
  }

  function Apply(s: System, step: Step): System {
    match step
    case SubmitStep(event) => s.(hmi := Submitted(s.hmi, event))
    case FetchStep(received) =>
      s.(hmi := Fetched(s.hmi, received),
         taken := if s.hmi.retained == NoHmiEvent then s.taken + [Next(s.hmi, received)] else s.taken)
    case ForwardStep => s.(hmi := Forwarded(s.hmi, s.queue).0, queue := Forwarded(s.hmi, s.queue).1)
    case PostStep(message) => if |s.queue| < QUEUE_LENGTH then s.(queue := s.queue + [message]) else s
    case SupervisorStep(outcome) => SupervisorTurn(s, outcome)
  }

  function RunFrom(s: System, steps: seq<Step>): System {
    if steps == [] then s else Apply(RunFrom(s, steps[..|steps| - 1]), steps[|steps| - 1])
  }

  /** No HMI command is posted past the HMI task; anything else may be posted by anyone at any time. */
  ghost predicate ValidStep(step: Step) { step.PostStep? ==> !step.message.HmiMessage? }

  ghost predicate ValidSteps(steps: seq<Step>) { forall k :: 0 <= k < |steps| ==> ValidStep(steps[k]) }

  // ---- the invariants ----

  /** Modules whose motion may be under way have been entered before. */
  ghost predicate Initialized(x: Context) {
    var m := x.machine;
    && (m.active == Approach || (m.active == Paused && m.resume == Approach) ==> x.approachInitialized)
    && (m.active == PathExecution || (m.active == Paused && m.resume == PathExecution) ==> x.executionInitialized)
  }

  /** Approach is entered afresh exactly from IDLE, path execution exactly from Approach, anything else always. */
  predicate FreshMove(from: StateId, to: StateId) {
    (to == Approach ==> from == Idle) && (to == PathExecution ==> from == Approach)
  }

  function EntryFor(from: StateId, to: StateId): seq<Entry> {
    if from == to then [] else [Entry(to, FreshMove(from, to))]
  }

  /** The entries that a run of the machine calls for: one for each change of the active state. */
  function EntriesOf(actions: seq<Action>): seq<Entry> {
    if actions == [] then [Entry(Boot, true)]
    else
      var before := actions[..|actions| - 1];
      EntriesOf(before) + EntryFor(Runs.Run(before).active, Runs.Run(actions).active)
  }

  /** The context follows the run of its machine, and the entered module is the active state. */
  ghost predicate Follows(x: Context, actions: seq<Action>) {
    && x.machine == Runs.Run(actions) && x.entered == Some(x.machine.active)
    && Initialized(x) && x.entries == EntriesOf(actions)
  }

  lemma EntriesNext(actions: seq<Action>, a: Action)
    ensures Runs.Run(actions + [a]) == Runs.Apply(Runs.Run(actions), a)
    ensures EntriesOf(actions + [a])
         == EntriesOf(actions) + EntryFor(Runs.Run(actions).active, Runs.Run(actions + [a]).active)
  {
    Runs.RunStep(Initially, actions, a);
    assert (actions + [a])[..|actions|] == actions;
  }

  lemma Entering(m: Machine, e: Event)
    ensures Runs.EntersWell(m, Handle(m, e).0)
  {
    hide Handle;
    Runs.EveryStep(m, e);
  }

  /**
   * Entering the new active state follows the machine and leaves teaching inputs alone, except on entering
   * TEACHING.
   */
  lemma EnterKeeps(x: Context, m: Machine, actions: seq<Action>)
    requires x.entered == Some(m.active) && Initialized(x.(machine := m)) && Runs.EntersWell(m, x.machine)
    requires x.machine.active != m.active
    ensures var y := Enter(x);
            && y.machine == x.machine && y.entered == Some(y.machine.active) && Initialized(y)
            && y.entries == x.entries + EntryFor(m.active, x.machine.active)
            && y.teachingSteps == x.teachingSteps
            && y.pendingTeaching == if y.machine.active == Teaching then None else x.pendingTeaching
  {}

  lemma EventKeeps(x: Context, e: Event, actions: seq<Action>)
    requires Follows(x, actions)
    ensures var y := AfterEvent(x, e);
            && Follows(y, actions + Presented(x.machine, Some(e))) && y.teachingSteps == x.teachingSteps
            && y.pendingTeaching == if y.machine.active == Teaching
            && x.machine.active != Teaching then None else x.pendingTeaching
  {
    hide Handle, EntriesOf, Runs.Run, Runs.EntersWell, Enter;
    if Diverted(x.machine.active, e.kind) {
      assert actions + [] == actions;
    } else {
      EntriesNext(actions, Runs.Deliver(e));
      Entering(x.machine, e);
      var y := x.(machine := Handle(x.machine, e).0);
      if y.machine.active != x.machine.active {
        EnterKeeps(y, x.machine, actions);
      } else {
        assert EntryFor(x.machine.active, y.machine.active) == [];
        StaysInitialized(x, y.machine);
      }
    }
  }

  lemma StaysInitialized(x: Context, n: Machine)
    requires Initialized(x) && Runs.EntersWell(x.machine, n) && n.active == x.machine.active
    ensures Initialized(x.(machine := n))
  {}

  lemma OptionalKeeps(x: Context, e: Option<Event>, actions: seq<Action>)
    requires Follows(x, actions)
    ensures var y := AfterOptional(x, e);
            && Follows(y, actions + Presented(x.machine, e)) && y.teachingSteps == x.teachingSteps
            && y.pendingTeaching == if y.machine.active == Teaching
            && x.machine.active != Teaching then None else x.pendingTeaching
  {
    hide Follows, AfterEvent;
    if e.Some? {
      EventKeeps(x, e.value, actions);
    } else {
      assert actions + [] == actions;
    }
  }

  /** The teaching event that waits for the next teaching step. */
  function Waiting(x: Context): seq<TeachingEvent> {
    if x.machine.active == Teaching then Slot(x.pendingTeaching) else []
  }

  lemma SelectedIs(x: Context, c: Command)
    ensures AfterOptional(x, TeachEvent(c, x.machine.active)).machine == Selected(x.machine, c)
  {
    hide Handle;
  }

  lemma CommandKeeps(x: Context, c: Command, actions: seq<Action>)
    requires Follows(x, actions) && (x.machine.active == Teaching ==> x.pendingTeaching == None)
    ensures var y := AfterCommand(x, c);
            && Follows(y, actions + ActionsFor(x.machine, Took(HmiMessage(c)))) && y.teachingSteps == x.teachingSteps
            && Waiting(y) == Slot(TeachingFor(x.machine, Took(HmiMessage(c))))
  {
    hide Handle, AfterOptional, TeachingOf, TeachEvent, PolicyEvent, EntriesOf, Runs.Run, Presented, Selected;
    var active := x.machine.active;
    var first := Presented(x.machine, TeachEvent(c, active));
    OptionalKeeps(x, TeachEvent(c, active), actions);
    SelectedIs(x, c);
    var y := AfterOptional(x, TeachEvent(c, active));
    var z := AfterTeaching(y, TeachingOf(c, active));
    assert Follows(z, actions + first);
    OptionalKeeps(z, PolicyEvent(c, active, z.machine.active), actions + first);
    assert (actions + first) + Presented(z.machine, PolicyEvent(c, active, z.machine.active))
        == actions + (first + Presented(z.machine, PolicyEvent(c, active, z.machine.active)));
    EitherTeachingOrPolicy(c, active);
    if TeachingOf(c, active).Some? {
      assert AfterCommand(x, c) == z by { NoEvent(z); }
    }
  }

  lemma NoEvent(x: Context)
    ensures AfterOptional(x, None) == x
  {}

  lemma MessageKeeps(x: Context, message: Message, actions: seq<Action>)
    requires Follows(x, actions) && (x.machine.active == Teaching ==> x.pendingTeaching == None)
    ensures var y := AfterMessage(x, message);
            && Follows(y, actions + ActionsFor(x.machine, Took(message))) && y.teachingSteps == x.teachingSteps
            && Waiting(y) == Slot(TeachingFor(x.machine, Took(message)))
  {
    hide AfterEvent, AfterCommand, EntriesOf, Runs.Run, Presented, Selected, TeachingOf, TeachEvent, PolicyEvent;
    match message
    case HmiMessage(c) => CommandKeeps(x, c, actions);
    case EventMessage(e) => EventKeeps(x, e, actions);
    case SafetyMessage(safety) =>
      EntriesNext(actions, Runs.Snapshot(safety));
    case _ =>
      assert actions + [] == actions;
  }

  lemma ConsumedNext(steps: seq<Option<TeachingEvent>>, x: Option<TeachingEvent>)
    ensures Consumed(steps + [x]) == Consumed(steps) + Slot(x)
  {
    assert (steps + [x])[..|steps|] == steps;
  }

  lemma StepKeeps(x: Context, o: Outcome, actions: seq<Action>)
    requires Follows(x, actions)
    ensures var y := AfterStep(x, o);
            && Follows(y, actions + ActionsFor(x.machine, Ran(o)))
            && Consumed(y.teachingSteps) == Consumed(x.teachingSteps) + Waiting(x)
            && (y.machine.active == Teaching ==> y.pendingTeaching == None)
  {
    hide AfterOptional, EntriesOf, Runs.Run, Presented, ReportOf, Consumed;
    ConsumedNext(x.teachingSteps, x.pendingTeaching);
    var p := Polled(x);
    assert Follows(p, actions);
    OptionalKeeps(p, ReportOf(x.machine.active, o), actions);
  }

  // ---- every run ----

  ghost predicate TeachingKept(x: Context, draining: bool, past: seq<Occurrence>) {
    && (draining && x.machine.active == Teaching ==> x.pendingTeaching == None)
    && Consumed(x.teachingSteps) + Waiting(x) == TeachingDue(past)
  }

  ghost predicate Inv(s: System) {
    && Follows(s.context, ActionsOf(s.past)) && TeachingKept(s.context, s.phase.Draining?, s.past)
    && |s.queue| <= 32 && |s.hmi.queue| <= 32
    && (s.phase.Draining? ==> s.phase.count <= 16)
  }

  lemma PastNext(past: seq<Occurrence>, o: Occurrence)
    ensures ActionsOf(past + [o]) == ActionsOf(past) + ActionsFor(MachineAt(past), o)
    ensures TeachingDue(past + [o]) == TeachingDue(past) + Slot(TeachingFor(MachineAt(past), o))
    ensures MessagesOf(past + [o]) == MessagesOf(past) + (if o.Took? then [o.message] else [])
  {
    assert (past + [o])[..|past|] == past;
  }

  lemma StepTurnKeeps(s: System, o: Outcome)
    requires Inv(s) && s.phase.Stepping?
    ensures Inv(SupervisorTurn(s, o))
  {
    hide AfterStep, ActionsOf, TeachingDue, Consumed, ActionsFor, TeachingFor, Follows;
    PastNext(s.past, Ran(o));
    FollowsMachine(s.context, ActionsOf(s.past));
    StepKeeps(s.context, o, ActionsOf(s.past));
    NothingDue(s.context.machine, o);
    NothingWaits(AfterStep(s.context, o));
    assert TeachingDue(s.past + [Ran(o)]) == TeachingDue(s.past);
  }

  lemma NothingWaits(x: Context)
    requires x.machine.active == Teaching ==> x.pendingTeaching == None
    ensures Waiting(x) == [] && Consumed(x.teachingSteps) + Waiting(x) == Consumed(x.teachingSteps)
  {}

  lemma MessageTurnKeeps(s: System, o: Outcome)
    requires Inv(s) && s.phase.Draining? && s.phase.count < MAX_MESSAGES && s.queue != []
    ensures Inv(SupervisorTurn(s, o))
  {
    hide AfterMessage, ActionsOf, TeachingDue, Consumed, ActionsFor, TeachingFor, Follows;
    PastNext(s.past, Took(s.queue[0]));
    FollowsMachine(s.context, ActionsOf(s.past));
    MessageKeeps(s.context, s.queue[0], ActionsOf(s.past));
    NothingWaits(s.context);
    assert TeachingKept(AfterMessage(s.context, s.queue[0]), false, s.past + [Took(s.queue[0])]);
  }

  lemma TurnKeeps(s: System, o: Outcome)
    requires Inv(s)
    ensures Inv(SupervisorTurn(s, o))
  {
    hide Follows, TeachingKept, AfterMessage, AfterStep;
    if s.phase.Stepping? {
      StepTurnKeeps(s, o);
    } else if s.phase.count < MAX_MESSAGES && s.queue != [] {
      MessageTurnKeeps(s, o);
    } else {
      LoopEnds(s.context, s.past);
    }
  }

  lemma LoopEnds(x: Context, past: seq<Occurrence>)
    requires TeachingKept(x, true, past)
    ensures TeachingKept(x, false, past)
  {}

  lemma FollowsMachine(x: Context, actions: seq<Action>)
    requires Follows(x, actions)
    ensures x.machine == Runs.Run(actions)
  {}

  lemma NothingDue(m: Machine, o: Outcome)
    ensures Slot(TeachingFor(m, Ran(o))) == []
  {}

  /** Steps that leave the supervisor's context alone. */
  lemma OtherKeeps(s: System, step: Step)
    requires Inv(s) && !step.SupervisorStep?
    ensures Inv(Apply(s, step))
  {
    hide Follows, TeachingKept, Translate;
  }

  lemma StartFollows()
    ensures Follows(Initial, [Runs.Unify])
  {
    EntriesNext([], Runs.Unify);
    assert [] + [Runs.Unify] == [Runs.Unify];
  }

  lemma StartInv()
    ensures Inv(Start)
  {
    hide Follows, Handle, Enter;
    StartFollows();
    StartTeaching();
  }

  lemma StartTeaching()
    ensures Initial.teachingSteps == [] && Initial.pendingTeaching == None && Initial.machine.active == Boot
  {}

  /** The context follows the machine and keeps the teaching events in every run, whoever posts what. */
  lemma {:induction false} InvInEveryRun(steps: seq<Step>)
    ensures Inv(RunFrom(Start, steps))
  {
    hide Inv, Apply;
    if steps == [] {
      StartInv();
    } else {
      var before, last := RunFrom(Start, steps[..|steps| - 1]), steps[|steps| - 1];
      InvInEveryRun(steps[..|steps| - 1]);
      if last.SupervisorStep? {
        TurnKeeps(before, last.outcome);
        TurnIs(before, last.outcome);
      } else {
        OtherKeeps(before, last);
      }
    }
  }

  lemma TurnIs(s: System, o: Outcome)
    ensures Apply(s, SupervisorStep(o)) == SupervisorTurn(s, o)
  {}

  /**
   * In every run the inputs of the teaching steps are exactly the teaching events dequeued in
   * TEACHING, in order, once each; only the one of the message just handled may still be waiting,
   * and then the very next thing the supervisor does is the step that takes it.
   */
  lemma TeachingInEveryRun(steps: seq<Step>)
    ensures var s := RunFrom(Start, steps);
            && Consumed(s.context.teachingSteps) + Waiting(s.context) == TeachingDue(s.past)
            && (Waiting(s.context) != [] ==> s.phase == Stepping)
  {
    hide Consumed, TeachingDue, Follows, RunFrom;
    InvInEveryRun(steps);
  }

  lemma {:induction false} FreshAreMoves(actions: seq<Action>)
    ensures FreshEntries(EntriesOf(actions), Approach) == Moves(actions, Idle, Approach)
    ensures FreshEntries(EntriesOf(actions), PathExecution) == Moves(actions, Approach, PathExecution)
    decreases |actions|
  {
    hide Runs.Run;
    if actions == [] {
      assert [Entry(Boot, true)][..0] == [];
    } else {
      var before := actions[..|actions| - 1];
      FreshAreMoves(before);
      var from, to := Runs.Run(before).active, Runs.Run(actions).active;
      FreshNext(EntriesOf(before), from, to);
    }
  }

  lemma FreshNext(entries: seq<Entry>, from: StateId, to: StateId)
    ensures FreshEntries(entries + EntryFor(from, to), Approach)
         == FreshEntries(entries, Approach) + (if from == Idle && to == Approach then 1 else 0)
    ensures FreshEntries(entries + EntryFor(from, to), PathExecution)
         == FreshEntries(entries, PathExecution) + (if from == Approach && to == PathExecution then 1 else 0)
  {
    if from == to {
      assert entries + [] == entries;
    } else {
      assert (entries + EntryFor(from, to))[..|entries|] == entries;
    }
  }

  /**
   * In every run the entered module is the active state, and however often a job is paused and
   * resumed, the two moving modules are entered afresh once per move of the machine that starts them.
   */
  lemma FreshInEveryRun(steps: seq<Step>)
    ensures var s := RunFrom(Start, steps); var actions := ActionsOf(s.past);
            && s.context.entered == Some(s.context.machine.active) && s.context.entries == EntriesOf(actions)
            && FreshEntries(s.context.entries, Approach) == Moves(actions, Idle, Approach)
            && FreshEntries(s.context.entries, PathExecution) == Moves(actions, Approach, PathExecution)
  {
    hide TeachingKept, RunFrom, Runs.Run, EntriesOf, FreshEntries, Moves;
    InvInEveryRun(steps);
    FreshAreMoves(ActionsOf(RunFrom(Start, steps).past));
  }

  /** In every run the machine inside the task is in a state of one of its own runs, so production was earned. */
  lemma ProductionInEveryRun(steps: seq<Step>)
    ensures var s := RunFrom(Start, steps); var actions := ActionsOf(s.past);
            && s.context.machine == Runs.Run(actions) && Runs.Inv(s.context.machine)
            && (s.context.machine.mode == Production ==> exists i, j, k :: Runs.PreviewedSince(actions, i, j, k))
  {
    hide TeachingKept, RunFrom, Runs.Run, Runs.Inv, Runs.PreviewedSince, EntriesOf;
    InvInEveryRun(steps);
    var s := RunFrom(Start, steps);
    Runs.InvInEveryRun(ActionsOf(s.past));
    if s.context.machine.mode == Production {
      Runs.ProductionIsEarned(ActionsOf(s.past));
    }
  }

  // ---- the order of the commands ----

  /** Events, messages and commands: each in its place, in order, once. */
  ghost predicate InOrder(taken: seq<HmiEvent>, past: seq<Occurrence>, queue: seq<Message>, retained: HmiEvent) {
    Translated(taken) == Commands(MessagesOf(past)) + Commands(queue) + Slot(Translate(retained))
  }

  lemma {:induction false} CommandsAppend(a: seq<Message>, b: seq<Message>)
    ensures Commands(a + b) == Commands(a) + Commands(b)
    decreases |b|
  {
    hide CommandOf;
    if b == [] {
      assert a + b == a;
    } else {
      var rest := b[..|b| - 1];
      CommandsAppend(a, rest);
      assert (a + b)[..|a + b| - 1] == a + rest;
      assert Commands(a) + (Commands(rest) + CommandOf(b[|b| - 1])) == (Commands(a) + Commands(rest))
          + CommandOf(b[|b| - 1]);
    }
  }

  lemma CommandsOne(message: Message)
    ensures Commands([message]) == CommandOf(message)
  {
    assert [message][..0] == [];
  }

  lemma Regroup(a: seq<Command>, b: seq<Command>, c: seq<Command>, d: seq<Command>)
    ensures (a + b) + c + d == a + (b + c) + d
  {}

  lemma Empty(a: seq<Command>)
    ensures a + [] == a
  {}

  lemma TakenInOrder(s: System)
    requires InOrder(s.taken, s.past, s.queue, s.hmi.retained) && s.queue != []
    ensures InOrder(s.taken, s.past + [Took(s.queue[0])], s.queue[1..], s.hmi.retained)
  {
    hide CommandOf, ActionsOf, TeachingDue, Commands, MessagesOf, Translated;
    var first, rest := s.queue[0], s.queue[1..];
    PastNext(s.past, Took(first));
    assert s.queue == [first] + rest;
    CommandsAppend([first], rest);
    CommandsAppend(MessagesOf(s.past), [first]);
    Regroup(Commands(MessagesOf(s.past)), Commands([first]), Commands(rest), Slot(Translate(s.hmi.retained)));
  }

  ghost predicate Ordered(s: System) { InOrder(s.taken, s.past, s.queue, s.hmi.retained) }

  lemma TurnOrdered(s: System, o: Outcome)
    requires Ordered(s)
    ensures Ordered(SupervisorTurn(s, o))
  {
    hide InOrder, AfterMessage, AfterStep;
    match s.phase
    case Stepping => StepOrdered(s, o);
    case Draining(count) =>
      if count < MAX_MESSAGES && s.queue != [] {
        TakenInOrder(s);
      }
  }

  lemma StepOrdered(s: System, o: Outcome)
    requires Ordered(s)
    ensures InOrder(s.taken, s.past + [Ran(o)], s.queue, s.hmi.retained)
  {
    hide Commands, ActionsOf, TeachingDue, Translated;
    PastNext(s.past, Ran(o));
    assert MessagesOf(s.past) + [] == MessagesOf(s.past);
  }

  lemma TranslatedNext(events: seq<HmiEvent>, e: HmiEvent)
    ensures Translated(events + [e]) == Translated(events) + Slot(Translate(e))
  {
    assert (events + [e])[..|events|] == events;
  }

  lemma NothingRetained()
    ensures Translate(NoHmiEvent) == None
  {}

  lemma FetchOrdered(s: System, received: HmiEvent)
    requires Ordered(s)
    ensures Ordered(Apply(s, FetchStep(received)))
  {
    hide Commands, MessagesOf, Translated, Translate;
    if s.hmi.retained == NoHmiEvent {
      NothingRetained();
      TranslatedNext(s.taken, Next(s.hmi, received));
      Empty(Commands(MessagesOf(s.past)) + Commands(s.queue));
    }
  }

  lemma ForwardOrdered(s: System)
    requires Ordered(s)
    ensures Ordered(Apply(s, ForwardStep))
  {
    hide Commands, MessagesOf, Translated, Translate;
    NothingRetained();
    var command := Translate(s.hmi.retained);
    if command.Some? {
      CommandsAppend(s.queue, [HmiMessage(command.value)]);
      CommandsOne(HmiMessage(command.value));
      Regroup(Commands(MessagesOf(s.past)), Commands(s.queue), [command.value], []);
    }
  }

  lemma PostOrdered(s: System, message: Message)
    requires Ordered(s) && !message.HmiMessage?
    ensures Ordered(Apply(s, PostStep(message)))
  {
    hide Commands, MessagesOf, Translated;
    CommandsAppend(s.queue, [message]);
    CommandsOne(message);
    Empty(Commands(s.queue));
  }

  lemma SubmitOrdered(s: System, e: HmiEvent)
    requires Ordered(s)
    ensures Ordered(Apply(s, SubmitStep(e)))
  {
    hide InOrder;
  }

  /**
   * In every run in which HMI commands come from the HMI task alone, the commands handled, queued
   * and retained are exactly the valid events it took, in order.
   */
  lemma {:induction false} CommandsInEveryRun(steps: seq<Step>)
    requires ValidSteps(steps)
    ensures var s := RunFrom(Start, steps);
            Translated(s.taken) == Commands(MessagesOf(s.past)) + Commands(s.queue) + Slot(Translate(s.hmi.retained))
  {
    hide Apply, Translated, Commands, MessagesOf, Translate;
    if steps == [] {
      StartOrdered();
    } else {
      var before, last := RunFrom(Start, steps[..|steps| - 1]), steps[|steps| - 1];
      CommandsInEveryRun(steps[..|steps| - 1]);
      assert ValidStep(last);
      match last
      case SupervisorStep(o) =>
        TurnOrdered(before, o);
        TurnIs(before, o);
      case PostStep(message) => PostOrdered(before, message);
      case SubmitStep(e) => SubmitOrdered(before, e);
      case FetchStep(received) => FetchOrdered(before, received);
      case ForwardStep => ForwardOrdered(before);
    }
  }

  lemma StartOrdered()
    ensures Ordered(Start)
  {}

  // ---- one uninterrupted cycle ----

  function Turns(s: System, o: Outcome, n: nat): System {
    if n == 0 then s else SupervisorTurn(Turns(s, o, n - 1), o)
  }

  lemma {:induction false} TurnsFirst(s: System, o: Outcome, n: nat)
    ensures Turns(s, o, n + 1) == Turns(SupervisorTurn(s, o), o, n)
  {
    hide SupervisorTurn;
    if n > 0 {
      TurnsFirst(s, o, n - 1);
    }
  }

  /** The message loop followed by a step, without interruption, is so many turns of the supervisor. */
  lemma {:induction false} CycleIsTurns(s: System, o: Outcome) returns (n: nat)
    requires s.phase.Draining? && s.phase.count <= MAX_MESSAGES
    ensures var drained, t := Drained(s.context, s.queue, s.phase.count), Turns(s, o, n);
            && t.context == AfterStep(drained.0, o) && t.queue == drained.1 && t.phase == Draining(0)
            && t.hmi == s.hmi && t.taken == s.taken
    decreases MAX_MESSAGES - s.phase.count
  {
    hide AfterStep, AfterMessage;
    var t := SupervisorTurn(s, o);
    if t.phase.Stepping? {
      n := 2;
      TurnsFirst(s, o, 1);
      TurnsFirst(t, o, 0);
    } else {
      var rest := CycleIsTurns(t, o);
      n := rest + 1;
      TurnsFirst(s, o, rest);
    }
  }

  // ---- a request that is lost ----

  /** The requests of the moving module after a message that was dequeued while it is active. */
  function RequestsIn(message: Message, owner: StateId, r: Requests): Requests {
    match message
    case ApproachMessage(control) => if owner == Approach then control else r
    case ExecutionMessage(inputs) => if owner == PathExecution then inputs else r
    case EventMessage(e) => if e.kind == Home || e.kind == Reset then Requests(e.kind == Home, e.kind == Reset) else r
    case HmiMessage(c) => if c == HomeCommand
        || c == ResetCommand then Requests(c == HomeCommand, c == ResetCommand) else r
    case _ => r
  }

  /** A pending request is kept by every message but a newer request and one that replaces the whole record. */
  lemma RequestAfter(x: Context, message: Message)
    ensures x.machine.active == Approach ==>
              AfterMessage(x, message).approachControl == RequestsIn(message, Approach, x.approachControl)
    ensures x.machine.active == PathExecution ==>
              AfterMessage(x, message).executionInputs == RequestsIn(message, PathExecution, x.executionInputs)
  {
    hide Handle;
  }

  lemma Extend(steps: seq<Step>, step: Step) returns (longer: seq<Step>)
    requires ValidSteps(steps) && ValidStep(step)
    ensures longer == steps + [step] && ValidSteps(longer)
    ensures RunFrom(Start, longer) == Apply(RunFrom(Start, steps), step)
  {
    longer := steps + [step];
    assert longer[..|steps|] == steps;
  }

  /** Nothing is queued and the supervisor is about to look for messages. */
  ghost predicate Quiet(s: System) {
    s.hmi == Hmi([], NoHmiEvent) && s.queue == [] && s.phase == Draining(0)
  }

  /** A cycle without messages, whose step succeeds. */
  lemma QuietStep(steps: seq<Step>) returns (longer: seq<Step>)
    requires ValidSteps(steps) && Quiet(RunFrom(Start, steps))
    ensures ValidSteps(longer) && Quiet(RunFrom(Start, longer))
    ensures RunFrom(Start, longer).context == AfterStep(RunFrom(Start, steps).context, Done)
  {
    hide RunFrom, AfterStep;
    longer := Extend(steps, SupervisorStep(Done));
    longer := Extend(longer, SupervisorStep(Done));
  }

  /** An HMI event that arrives over the transport and is handled in a cycle whose step has outcome `o`. */
  lemma QuietEvent(steps: seq<Step>, e: HmiEvent, o: Outcome) returns (longer: seq<Step>)
    requires ValidSteps(steps) && Quiet(RunFrom(Start, steps)) && Translate(e).Some?
    ensures ValidSteps(longer) && Quiet(RunFrom(Start, longer))
    ensures var x := RunFrom(Start, steps).context;
            RunFrom(Start, longer).context == AfterStep(AfterMessage(x, HmiMessage(Translate(e).value)), o)
  {
    hide RunFrom, AfterStep, AfterMessage, Translate;
    NothingRetained();
    longer := Extend(steps, FetchStep(e));
    longer := Extend(longer, ForwardStep);
    longer := Extend(longer, SupervisorStep(o));
    if RunFrom(Start, longer).phase.Draining? {
      longer := Extend(longer, SupervisorStep(o));
    }
    longer := Extend(longer, SupervisorStep(o));
  }

  /** A safety snapshot handled in a cycle whose step goes on. */
  lemma QuietSnapshot(steps: seq<Step>) returns (longer: seq<Step>)
    requires ValidSteps(steps) && Quiet(RunFrom(Start, steps)) && RunFrom(Start, steps).context.pendingTeaching == None
    ensures ValidSteps(longer) && Quiet(RunFrom(Start, longer))
    ensures RunFrom(Start, longer).context
         == AfterStep(AfterMessage(RunFrom(Start, steps).context, SafetyMessage(Healthy)), StillRunning)
  {
    hide RunFrom, AfterStep;
    longer := Extend(steps, PostStep(SafetyMessage(Healthy)));
    longer := Extend(longer, SupervisorStep(StillRunning));
    longer := Extend(longer, SupervisorStep(StillRunning));
    longer := Extend(longer, SupervisorStep(StillRunning));
  }

  lemma BootDone()
    ensures var x := AfterStep(Initial, Done); x.machine.active == Homing && x.pendingTeaching == None
  {}

  lemma HomingHandled(m: Machine)
    requires m.active == Homing
    ensures Handle(m, Report(StateComplete, Homing)).0.active == Idle
  {
    hide Noticed, Moved;
  }

  lemma HomingDone(x: Context)
    requires x.machine.active == Homing
    ensures var y := AfterStep(x, Done); y.machine.active == Idle && y.pendingTeaching == x.pendingTeaching
  {
    hide Handle;
    HomingHandled(x.machine);
    assert AfterStep(x, Done) == AfterEvent(x, Report(StateComplete, Homing));
  }

  lemma SnapshotTaken(x: Context)
    requires x.machine.active == Idle
    ensures var y := AfterStep(AfterMessage(x, SafetyMessage(Healthy)), StillRunning);
            y.machine.active == Idle && Ready(y.machine.safety) && y.pendingTeaching == x.pendingTeaching
  {}

  lemma TeachHandled(m: Machine)
    requires m.active == Idle
    ensures var n := Handle(m, Report(Teach, Idle)).0; n.active == Teaching && n.safety == m.safety
  {
    hide Noticed, Moved;
  }

  lemma LineSelected(x: Context)
    requires x.machine.active == Idle && Ready(x.machine.safety)
    ensures var y := AfterMessage(x, HmiMessage(LineCommand)); y.machine.active == Teaching && Ready(y.machine.safety)
  {
    hide Ready, Handle;
    TeachHandled(x.machine);
    var y := AfterOptional(x, TeachEvent(LineCommand, Idle));
    assert y.machine == Handle(x.machine, Report(Teach, Idle)).0;
    assert AfterMessage(x, HmiMessage(LineCommand)) == AfterTeaching(y, Some(SelectLine));
  }

  lemma TeachingDone(x: Context)
    requires x.machine.active == Teaching && Ready(x.machine.safety)
    ensures var y := AfterStep(x, Done);
            y.machine.active == PathValidation && Ready(y.machine.safety) && y.pendingTeaching == None
  {
    hide Ready;
  }

  lemma ValidationDone(x: Context)
    requires x.machine.active == PathValidation && Ready(x.machine.safety)
    ensures var y := AfterStep(x, Done); var m := y.machine;
            m.active == Idle && m.recorded && m.validated && Ready(m.safety) && y.pendingTeaching == x.pendingTeaching
  {
    hide Ready;
  }

  lemma PreviewHandled(m: Machine)
    requires m.active == Idle && m.recorded && m.validated && Ready(m.safety)
    ensures Handle(m, Report(ValidatePreview, Idle)).0.active == Approach
  {
    hide Noticed, Moved, Ready;
    assert CanMove(Noted(m, Report(ValidatePreview, Idle)));
  }

  lemma PreviewStarted(x: Context)
    requires var m := x.machine; m.active == Idle && m.recorded && m.validated && Ready(m.safety)
    ensures var y := AfterStep(AfterMessage(x, HmiMessage(ValidateCommand)), StillRunning);
            y.machine.active == Approach && y.pendingTeaching == x.pendingTeaching
  {
    hide Ready, Handle;
    PreviewHandled(x.machine);
    var y := AfterMessage(x, HmiMessage(ValidateCommand));
    assert y == AfterEvent(x, Report(ValidatePreview, Idle));
    assert y.machine == Handle(x.machine, Report(ValidatePreview, Idle)).0;
  }

  /** Start-up up to the first healthy safety snapshot. */
  lemma ReachIdle() returns (steps: seq<Step>)
    ensures ValidSteps(steps) && Quiet(RunFrom(Start, steps))
    ensures var m := RunFrom(Start, steps).context.machine; m.active == Idle && Ready(m.safety)
  {
    hide RunFrom, Quiet, AfterStep, AfterMessage, Ready, Follows;
    steps := [];
    StartIs();
    BootDone();
    steps := QuietStep(steps);
    HomingDone(RunFrom(Start, steps).context);
    steps := QuietStep(steps);
    SnapshotTaken(RunFrom(Start, steps).context);
    steps := QuietSnapshot(steps);
  }

  /** Teaching, validation and a preview request: the machine can reach APPROACH. */
  lemma ReachApproach() returns (steps: seq<Step>)
    ensures ValidSteps(steps) && Quiet(RunFrom(Start, steps))
    ensures var x := RunFrom(Start, steps).context; x.machine.active == Approach && x.pendingTeaching == None
  {
    hide RunFrom, Quiet, AfterStep, AfterMessage, Ready, Follows;
    steps := ReachIdle();
    LineSelected(RunFrom(Start, steps).context);
    TeachingDone(AfterMessage(RunFrom(Start, steps).context, HmiMessage(LineCommand)));
    steps := QuietEvent(steps, SelectLineEvent, Done);
    ValidationDone(RunFrom(Start, steps).context);
    steps := QuietStep(steps);
    PreviewStarted(RunFrom(Start, steps).context);
    steps := QuietEvent(steps, ValidateEvent, StillRunning);
  }

  lemma StartIs()
    ensures RunFrom(Start, []) == Start && Quiet(Start)
  {}

  /** A HOME command and a control message reach the queue while APPROACH runs. */
  lemma BothQueued() returns (steps: seq<Step>)
    ensures ValidSteps(steps)
    ensures var s := RunFrom(Start, steps);
            && s.context.machine.active == Approach && s.context.pendingTeaching == None && s.phase == Draining(0)
            && s.queue == [HmiMessage(HomeCommand), ApproachMessage(NoRequests)]
  {
    hide RunFrom, AfterMessage, AfterStep, Handle;
    steps := ReachApproach();
    NothingRetained();
    steps := Extend(steps, FetchStep(HomeEvent));
    steps := Extend(steps, ForwardStep);
    steps := Extend(steps, PostStep(ApproachMessage(NoRequests)));
  }

  /** A run in which the step of APPROACH after a HOME command sees no request. */
  lemma RequestLost()
    ensures exists steps :: ValidSteps(steps) && LosesHome(RunFrom(Start, steps))
  {
    hide RunFrom, AfterMessage, AfterStep, Handle;
    var steps := BothQueued();
    HomeThenControl(RunFrom(Start, steps).context);
    steps := Extend(steps, SupervisorStep(StillRunning));
    steps := Extend(steps, SupervisorStep(StillRunning));
    steps := Extend(steps, SupervisorStep(StillRunning));
    assert LosesHome(RunFrom(Start, steps));
  }

  /** About to step APPROACH, with a HOME command and a control message just handled, and no request. */
  ghost predicate LosesHome(s: System) {
    && s.context.machine.active == Approach && s.phase == Stepping && s.context.approachControl == NoRequests
    && |s.past| >= 2 && s.past[|s.past| - 2] == Took(HmiMessage(HomeCommand))
  }

  lemma HomeThenControl(x: Context)
    requires x.machine.active == Approach
    ensures var y := AfterMessage(x, HmiMessage(HomeCommand));
            && y == x.(approachControl := Requests(true, false))
            && AfterMessage(y, ApproachMessage(NoRequests)) == x.(approachControl := NoRequests)
  {
    hide Handle;
  }
}
