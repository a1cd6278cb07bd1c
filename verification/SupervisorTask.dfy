/** The supervisor task around the state machine, and the HMI task in front of it. */
module SupervisorTask {
  import opened StateMachine

  const QUEUE_LENGTH := 32
  const MAX_MESSAGES := 16

  datatype Command =
    | LineCommand | ArcCommand | CircleCommand | RecordCommand | ValidateCommand | StartCommand
    | ToggleCommand | ResetCommand | HomeCommand | SpeedUp | SpeedDown | SpeedDefault | PauseCommand | ResumeCommand

  datatype TeachingEvent =
    | SelectLine | SelectArc | SelectCircle | RecordPoint | IncreaseSpeed | DecreaseSpeed | DefaultSpeed
    | ValidatePath | ResetDraft

  /** The one-shot HOME and RESET requests a moving module polls. */
  datatype Requests = Requests(home: bool, reset: bool)

  const NoRequests := Requests(false, false)

  datatype Message =
    | EventMessage(event: Event)
    | SafetyMessage(safety: Safety)
    | RawTeachingMessage(teaching: Option<TeachingEvent>)
    | RuntimeMessage
    | ApproachMessage(control: Requests)
    | ExecutionMessage(inputs: Requests)
    | HmiMessage(command: Command)

  /** What the step of the active module reports. */
  datatype Outcome = StillRunning | Done | DoneHome | DoneReset | DoneInvalid | StepFailed(detail: nat)

  /** One entry of a state module; a resumed module is not entered afresh. */
  datatype Entry = Entry(state: StateId, anew: bool)

  /** The task's context; `entries` and `teachingSteps` are the history of what it did to its modules. */
  datatype Context = Context(
    machine: Machine, entered: Option<StateId>, approachInitialized: bool, executionInitialized: bool,
    pendingTeaching: Option<TeachingEvent>, approachControl: Requests, executionInputs: Requests,
    entries: seq<Entry>, teachingSteps: seq<Option<TeachingEvent>>)

  // ---- pure policy ----

  /** HOME and RESET are first requests to a moving module. */
  predicate Diverted(active: StateId, k: EventType) {
    (k == Reset || k == Home) && (active == Approach || active == PathExecution)
  }

  /** The teaching event of a command, given the active state. */
  function TeachingOf(c: Command, active: StateId): Option<TeachingEvent> {
    match c
    case LineCommand => Some(SelectLine)
    case ArcCommand => Some(SelectArc)
    case CircleCommand => Some(SelectCircle)
    case RecordCommand => Some(RecordPoint)
    case SpeedUp => Some(IncreaseSpeed)
    case SpeedDown => Some(DecreaseSpeed)
    case SpeedDefault => Some(DefaultSpeed)
    case ValidateCommand => if active == Teaching then Some(ValidatePath) else None
    case ResetCommand => if active == Teaching then Some(ResetDraft) else None
    case _ => None
  }

  function PolicyOf(c: Command, active: StateId): Option<EventType> {
    match c
    case ValidateCommand => if active == Teaching then None else Some(ValidatePreview)
    case StartCommand => Some(StartReplay)
    case PauseCommand => if active != Paused then Some(PauseResume) else None
    case ResumeCommand => if active == Paused then Some(PauseResume) else None
    case ToggleCommand => Some(PauseResume)
    case HomeCommand => Some(Home)
    case ResetCommand => if active == Teaching then None else Some(Reset)
    case _ => None
  }

  predicate SelectsGeometry(c: Command) { c == LineCommand || c == ArcCommand || c == CircleCommand }

  function Report(k: EventType, source: StateId): Event { Event(k, source, NoSeverity, NO_CODE) }

  /** A geometry command starts teaching when idle. */
  function TeachEvent(c: Command, active: StateId): Option<Event> {
    if SelectsGeometry(c) && active == Idle then Some(Report(Teach, Idle)) else None
  }

  /** The policy event of a command received in `active`, raised from the state reached by then. */
  function PolicyEvent(c: Command, active: StateId, current: StateId): Option<Event> {
    var policy := PolicyOf(c, active);
    if policy.Some? then Some(Report(policy.value, current)) else None
  }

  /** A command leads to a teaching event or to a policy event, never to both. */
  lemma EitherTeachingOrPolicy(c: Command, active: StateId)
    ensures TeachingOf(c, active).None? || forall current :: PolicyEvent(c, active, current) == None
  {}

  function StateNumber(s: StateId): nat {
    match s
    case Boot => 0 case Homing => 1 case Idle => 2 case Teaching => 3 case PathValidation => 4 case Approach => 5
    case PathExecution => 6 case ArcStabilizing => 7 case Welding => 8 case Paused => 9 case Retracting => 10
    case Fault => 11 case EmergencyStop => 12
  }

  /** The state in the upper half of the code, the lower 16 bits of the detail below it. */
  function StateErrorCode(s: StateId, detail: nat): nat {
    StateNumber(s) * 0x1_0000 + detail % 0x1_0000
  }

  /** The event a module step leads to. */
  function ReportOf(active: StateId, o: Outcome): Option<Event> {
    match o
    case StillRunning => None
    case StepFailed(detail) =>
      if active == ArcStabilizing || active == Welding || active == Retracting || Stopped(active) then None
      else Some(Event(StateFailed, active, Recoverable, StateErrorCode(active, detail)))
    case Done =>
      if active == Boot || active == Homing || active == Teaching || active == PathValidation
         || active == Approach || active == PathExecution
      then Some(Report(StateComplete, active)) else None
    case DoneInvalid => if active == PathValidation then Some(Report(ValidationRejected, active)) else None
    case DoneHome => if active == Approach || active == PathExecution then Some(Report(AbortedHome, active)) else None
    case DoneReset => if active == Approach || active == PathExecution then Some(Report(AbortedReset, active)) else None
  }

  // ---- the context after each operation ----

  function Enter(x: Context): Context {
    var active := x.machine.active;
    if x.entered == Some(active) then x
    else
      var initialized := (active == Approach && x.approachInitialized)
          || (active == PathExecution && x.executionInitialized);
      var resumed := x.machine.record.previous == Paused && initialized;
      x.(entered := Some(active),
         entries := x.entries + [Entry(active, !resumed)],
         pendingTeaching := if active == Teaching then None else x.pendingTeaching,
         approachInitialized := x.approachInitialized || active == Approach,
         executionInitialized := x.executionInitialized || active == PathExecution,
         approachControl := if active == Approach && !resumed then NoRequests else x.approachControl,
         executionInputs := if active == PathExecution && !resumed then NoRequests else x.executionInputs)
  }

  const Initial := Enter(Context(Initially.(unified := true), None, false, false, None, NoRequests, NoRequests, [], []))

  function AfterEvent(x: Context, e: Event): Context {
    var active := x.machine.active;
    if Diverted(active, e.kind) then
      var requests := Requests(e.kind == Home, e.kind == Reset);
      if active == Approach then x.(approachControl := requests) else x.(executionInputs := requests)
    else
      var y := x.(machine := Handle(x.machine, e).0);
      if y.machine.active != active then Enter(y) else y
  }

  function AfterOptional(x: Context, e: Option<Event>): Context {
    if e.Some? then AfterEvent(x, e.value) else x
  }

  function AfterTeaching(x: Context, t: Option<TeachingEvent>): Context {
    if t.Some? && x.machine.active == Teaching then x.(pendingTeaching := t) else x
  }

  function AfterCommand(x: Context, c: Command): Context {
    var active := x.machine.active;
    var y := AfterTeaching(AfterOptional(x, TeachEvent(c, active)), TeachingOf(c, active));
    AfterOptional(y, PolicyEvent(c, active, y.machine.active))
  }

  function AfterMessage(x: Context, message: Message): Context {
    match message
    case HmiMessage(command) => AfterCommand(x, command)
    case EventMessage(event) => AfterEvent(x, event)
    case SafetyMessage(safety) => x.(machine := x.machine.(safety := safety))
    case RawTeachingMessage(teaching) => x.(pendingTeaching := teaching)
    case RuntimeMessage => x
    case ApproachMessage(control) => x.(approachControl := control)
    case ExecutionMessage(inputs) => x.(executionInputs := inputs)
  }

  /** The active module takes its inputs; they are one-shot. */
  function Polled(x: Context): Context {
    match x.machine.active
    case Teaching => x.(teachingSteps := x.teachingSteps + [x.pendingTeaching], pendingTeaching := None)
    case Approach => x.(approachControl := NoRequests)
    case PathExecution => x.(executionInputs := NoRequests)
    case _ => x
  }

  function AfterStep(x: Context, o: Outcome): Context {
    AfterOptional(Polled(x), ReportOf(x.machine.active, o))
  }

  /** The message loop of one cycle, after `count` messages. */
  function Drained(x: Context, queue: seq<Message>, count: nat): (Context, seq<Message>)
    requires count <= MAX_MESSAGES
    decreases MAX_MESSAGES - count
  {
    if count == MAX_MESSAGES || queue == [] then (x, queue)
    else
      var y := AfterMessage(x, queue[0]);
      if y.pendingTeaching.Some? then (y, queue[1..]) else Drained(y, queue[1..], count + 1)
  }

  function AfterMessages(x: Context, messages: seq<Message>): Context {
    if messages == [] then x else AfterMessage(AfterMessages(x, messages[..|messages| - 1]), messages[|messages| - 1])
  }

  /**
   * The loop takes messages from the front of the queue, in order: at least one if there is any, at
   * most sixteen in all, and fewer only if the queue ran empty or a teaching event is pending.
   */
  lemma {:induction false} DrainedTakes(x: Context, queue: seq<Message>, count: nat) returns (n: nat)
    requires count <= MAX_MESSAGES
    ensures var out := Drained(x, queue, count);
            && n <= |queue| && n <= MAX_MESSAGES - count <= 16 && (queue != [] && count < MAX_MESSAGES ==> n > 0)
            && out == (AfterMessages(x, queue[..n]), queue[n..])
            && (n == MAX_MESSAGES - count || n == |queue| || out.0.pendingTeaching.Some?)
    decreases MAX_MESSAGES - count
  {
    hide AfterMessage;
    n := 0;
    assert AfterMessages(x, queue[..0]) == x;
    if count < MAX_MESSAGES && queue != [] {
      var y := AfterMessage(x, queue[0]);
      n := 1;
      if y.pendingTeaching.None? {
        var rest := DrainedTakes(y, queue[1..], count + 1);
        n := rest + 1;
        assert queue[1..][rest..] == queue[n..];
        AfterFirst(x, queue[..n]);
        assert queue[..n][1..] == queue[1..][..rest];
      } else {
        AfterFirst(x, queue[..1]);
      }
    }
  }

  lemma {:induction false} AfterFirst(x: Context, messages: seq<Message>)
    requires messages != []
    ensures AfterMessages(x, messages) == AfterMessages(AfterMessage(x, messages[0]), messages[1..])
    decreases |messages|
  {
    hide AfterMessage;
    var last := |messages| - 1;
    if last == 0 {
      assert messages[..0] == [] && messages[1..] == [];
    } else {
      AfterFirst(x, messages[..last]);
      assert messages[..last][1..] == messages[1..][..last - 1];
    }
  }

  // ---- the task ----

  class SupervisorTask {
    var machine: Machine
    var entered: Option<StateId>
    var approachInitialized: bool
    var executionInitialized: bool
    var pendingTeaching: Option<TeachingEvent>
    var approachControl: Requests
    var executionInputs: Requests
    var queue: seq<Message>
    ghost var entries: seq<Entry>
    ghost var teachingSteps: seq<Option<TeachingEvent>>

    ghost function View(): Context
      reads this
    {
      Context(machine, entered, approachInitialized, executionInitialized,
              pendingTeaching, approachControl, executionInputs, entries, teachingSteps)
    }

    ghost predicate Valid()
      reads this
    {
      |queue| <= QUEUE_LENGTH
    }

    constructor ()
      ensures Valid() && View() == Initial && queue == []
    {
      machine := Initially.(unified := true);
      entered, approachInitialized, executionInitialized := None, false, false;
      pendingTeaching, approachControl, executionInputs, queue := None, NoRequests, NoRequests, [];
      entries, teachingSteps := [], [];
      new;
      EnterActiveState();
    }

    method Post(message: Message) returns (ok: bool)
      requires Valid()
      modifies this`queue
      ensures Valid() && ok == (|old(queue)| < QUEUE_LENGTH)
      ensures queue == if ok then old(queue) + [message] else old(queue)
    {
      ok := |queue| < QUEUE_LENGTH;
      if ok {
        queue := queue + [message];
      }
    }

    method EnterActiveState()
      modifies this
      ensures View() == Enter(old(View())) && queue == old(queue)
    {
      if entered == Some(machine.active) {
        return;
      }
      entered := Some(machine.active);
      var anew := true;
      match machine.active {
        case Teaching =>
          pendingTeaching := None;
        case Approach =>
          if machine.record.previous == Paused && approachInitialized {
            anew := false;
          } else {
            approachControl, approachInitialized := NoRequests, true;
          }
        case PathExecution =>
          if machine.record.previous == Paused && executionInitialized {
            anew := false;
          } else {
            executionInputs, executionInitialized := NoRequests, true;
          }
        case _ =>
      }
      entries := entries + [Entry(machine.active, anew)];
    }

    method HandlePolicyEvent(e: Event)
      modifies this
      ensures View() == AfterEvent(old(View()), e) && queue == old(queue)
    {
      hide Handle, Enter;
      if e.kind == Reset || e.kind == Home {
        if machine.active == Approach {
          approachControl := Requests(e.kind == Home, e.kind == Reset);
          return;
        }
        if machine.active == PathExecution {
          executionInputs := Requests(e.kind == Home, e.kind == Reset);
          return;
        }
      }
      var before := machine.active;
      machine := Handle(machine, e).0;
      if machine.active != before {
        EnterActiveState();
      }
    }

    /** Handles an event, if there is one. */
    method Raise(e: Option<Event>)
      modifies this
      ensures View() == AfterOptional(old(View()), e) && queue == old(queue)
    {
      hide AfterEvent;
      if e.Some? {
        HandlePolicyEvent(e.value);
      }
    }

    method HandleHmiCommand(c: Command)
      modifies this
      ensures View() == AfterCommand(old(View()), c) && queue == old(queue)
    {
      hide AfterOptional, TeachingOf, TeachEvent, PolicyEvent;
      var before := machine.active;
      var teaching := TeachingOf(c, before);
      Raise(TeachEvent(c, before));
      if teaching.Some? && machine.active == Teaching {
        pendingTeaching := teaching;
      }
      Raise(PolicyEvent(c, before, machine.active));
    }

    method HandleMessage(message: Message)
      modifies this
      ensures View() == AfterMessage(old(View()), message) && queue == old(queue)
    {
      hide AfterEvent, AfterCommand;
      match message
      case HmiMessage(command) => HandleHmiCommand(command);
      case EventMessage(event) => HandlePolicyEvent(event);
      case SafetyMessage(safety) => machine := machine.(safety := safety);
      case RawTeachingMessage(teaching) => pendingTeaching := teaching;
      case RuntimeMessage =>
      case ApproachMessage(control) => approachControl := control;
      case ExecutionMessage(inputs) => executionInputs := inputs;
    }

    /** One step of the active module with the given outcome. */
    method RunActiveState(o: Outcome)
      modifies this
      ensures View() == AfterStep(old(View()), o) && queue == old(queue)
    {
      hide AfterOptional, ReportOf;
      var report := ReportOf(machine.active, o);
      match machine.active {
        case Teaching =>
          teachingSteps := teachingSteps + [pendingTeaching];
          pendingTeaching := None;
        case Approach => approachControl := NoRequests;
        case PathExecution => executionInputs := NoRequests;
        case _ =>
      }
      Raise(report);
    }

    /** Up to sixteen messages, but none after one that left a teaching event pending. */
    method Drain()
      requires Valid()
      modifies this
      ensures Valid() && (View(), queue) == Drained(old(View()), old(queue), 0)
    {
      hide AfterMessage;
      var count := 0;
      while count < MAX_MESSAGES
        invariant Valid() && 0 <= count <= MAX_MESSAGES
        invariant Drained(View(), queue, count) == Drained(old(View()), old(queue), 0)
      {
        if queue == [] {
          return;
        }
        var message := queue[0];
        queue := queue[1..];
        HandleMessage(message);
        if pendingTeaching.Some? {
          return;
        }
        count := count + 1;
      }
    }

    /** The messages of one cycle, then one step of the active module. */
    method Cycle(o: Outcome)
      requires Valid()
      modifies this
      ensures Valid()
      ensures var drained := Drained(old(View()), old(queue), 0);
              View() == AfterStep(drained.0, o) && queue == drained.1
    {
      hide Drained, AfterStep;
      Drain();
      RunActiveState(o);
    }
  }

  // ---- the HMI task ----

  datatype HmiEvent =
    | NoHmiEvent | SelectLineEvent | SelectArcEvent | SelectCircleEvent | RecordEvent | ValidateEvent
    | SpeedUpEvent | SpeedDownEvent | SpeedDefaultEvent | StartEvent | PauseEvent | ResumeEvent
    | ResetEvent | HomeEvent | UnknownEvent

  function Translate(e: HmiEvent): Option<Command> {
    match e
    case SelectLineEvent => Some(LineCommand)
    case SelectArcEvent => Some(ArcCommand)
    case SelectCircleEvent => Some(CircleCommand)
    case RecordEvent => Some(RecordCommand)
    case ValidateEvent => Some(ValidateCommand)
    case SpeedUpEvent => Some(SpeedUp)
    case SpeedDownEvent => Some(SpeedDown)
    case SpeedDefaultEvent => Some(SpeedDefault)
    case StartEvent => Some(StartCommand)
    case PauseEvent => Some(PauseCommand)
    case ResumeEvent => Some(ResumeCommand)
    case ResetEvent => Some(ResetCommand)
    case HomeEvent => Some(HomeCommand)
    case _ => None
  }

  datatype Hmi = Hmi(queue: seq<HmiEvent>, retained: HmiEvent)

  predicate Accepts(h: Hmi, e: HmiEvent) { e != NoHmiEvent && e != UnknownEvent && |h.queue| < QUEUE_LENGTH }

  function Submitted(h: Hmi, e: HmiEvent): Hmi {
    if Accepts(h, e) then h.(queue := h.queue + [e]) else h
  }

  /** What an empty slot takes: the oldest queued event, or what the transport delivers. */
  function Next(h: Hmi, received: HmiEvent): HmiEvent {
    if h.queue != [] then h.queue[0] else received
  }

  function Fetched(h: Hmi, received: HmiEvent): Hmi {
    if h.retained != NoHmiEvent then h
    else Hmi(if h.queue != [] then h.queue[1..] else [], Next(h, received))
  }

  /** The retained event goes to the supervisor's queue, or stays retained while that is full. */
  function Forwarded(h: Hmi, queue: seq<Message>): (Hmi, seq<Message>) {
    var command := Translate(h.retained);
    if command.None? then (h.(retained := NoHmiEvent), queue)
    else if |queue| < QUEUE_LENGTH then (h.(retained := NoHmiEvent), queue + [HmiMessage(command.value)])
    else (h, queue)
  }

  class HmiTask {
    var queue: seq<HmiEvent>
    var pending: HmiEvent

    ghost function View(): Hmi
      reads this
    {
      Hmi(queue, pending)
    }

    constructor ()
      ensures View() == Hmi([], NoHmiEvent)
    {
      queue, pending := [], NoHmiEvent;
    }

    method Submit(e: HmiEvent) returns (ok: bool)
      modifies this`queue
      ensures ok == Accepts(old(View()), e) && View() == Submitted(old(View()), e)
    {
      ok := e != NoHmiEvent && e != UnknownEvent && |queue| < QUEUE_LENGTH;
      if ok {
        queue := queue + [e];
      }
    }

    /** Takes an event unless one is retained; `received` is what the transport delivers when the queue is empty. */
    method Fetch(received: HmiEvent)
      modifies this
      ensures View() == Fetched(old(View()), received)
    {
      if pending == NoHmiEvent {
        if queue != [] {
          pending, queue := queue[0], queue[1..];
        } else {
          pending := received;
        }
      }
    }

    method Forward(supervisor: SupervisorTask)
      requires supervisor.Valid()
      modifies this`pending, supervisor`queue
      ensures supervisor.Valid() && (View(), supervisor.queue) == Forwarded(old(View()), old(supervisor.queue))
    {
      if pending != NoHmiEvent {
        var command := Translate(pending);
        if command.None? {
          pending := NoHmiEvent;
        } else {
          var ok := supervisor.Post(HmiMessage(command.value));
          if ok {
            pending := NoHmiEvent;
          }
        }
      }
    }

    method Turn(received: HmiEvent, supervisor: SupervisorTask)
      requires supervisor.Valid()
      modifies this, supervisor`queue
      ensures supervisor.Valid()
      ensures (View(), supervisor.queue) == Forwarded(Fetched(old(View()), received), old(supervisor.queue))
    {
      Fetch(received);
      Forward(supervisor);
    }
  }
}
