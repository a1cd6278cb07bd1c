/** What every button of the operator panel does, from the HMI event to the state machine. */
module HmiButtons {
  import opened StateMachine
  import opened StateDiagram
  import opened SupervisorTask

  /** The context after the supervisor has handled the message that a button becomes. */
  function Pressed(x: Context, e: HmiEvent): Context
    requires Translate(e).Some?
  {
    AfterMessage(x, HmiMessage(Translate(e).value))
  }

  /** The button is for the teaching module alone: waiting input in TEACHING, and nothing anywhere else. */
  ghost predicate OnlyTeaches(x: Context, y: Context, input: TeachingEvent) {
    y == if x.machine.active == Teaching then x.(pendingTeaching := Some(input)) else x
  }

  lemma TeachingInput(x: Context, c: Command, input: TeachingEvent)
    requires !SelectsGeometry(c) && PolicyOf(c, x.machine.active) == None
    requires TeachingOf(c, x.machine.active) == Some(input)
    ensures OnlyTeaches(x, AfterCommand(x, c), input)
  {
    hide AfterEvent, TeachingOf, PolicyOf, SelectsGeometry;
  }

  lemma TeachingButtons(x: Context)
    ensures OnlyTeaches(x, Pressed(x, RecordEvent), RecordPoint)
    ensures OnlyTeaches(x, Pressed(x, SpeedUpEvent), IncreaseSpeed)
    ensures OnlyTeaches(x, Pressed(x, SpeedDownEvent), DecreaseSpeed)
    ensures OnlyTeaches(x, Pressed(x, SpeedDefaultEvent), DefaultSpeed)
  {
    hide AfterCommand, OnlyTeaches;
    TeachingInput(x, RecordCommand, RecordPoint);
    TeachingInput(x, SpeedUp, IncreaseSpeed);
    TeachingInput(x, SpeedDown, DecreaseSpeed);
    TeachingInput(x, SpeedDefault, DefaultSpeed);
  }

  /** From IDLE the button starts teaching with that geometry; in TEACHING it is input; elsewhere it does nothing. */
  ghost predicate SelectsShape(x: Context, y: Context, input: TeachingEvent) {
    if x.machine.active == Idle then
      && y.machine.active == Teaching && !y.machine.validated && !y.machine.previewAccepted
      && y.machine.mode == NoExecution && y.entered == Some(Teaching) && y.pendingTeaching == Some(input)
    else OnlyTeaches(x, y, input)
  }

  lemma TeachStarts(x: Context)
    requires x.machine.active == Idle
    ensures var y := AfterEvent(x, Report(Teach, Idle)); var n := y.machine;
            n.active == Teaching && !n.validated && !n.previewAccepted && n.mode == NoExecution
            && y.entered == Some(Teaching)
  {
    hide Handle, Ready, LatchesFollow, DiagnosisFollows, CountsFollow;
    DiagramHolds(x.machine, Report(Teach, Idle));
    assert Leads(x.machine, Report(Teach, Idle), Teaching);
  }

  lemma ShapeButtons(x: Context)
    ensures SelectsShape(x, Pressed(x, SelectLineEvent), SelectLine)
    ensures SelectsShape(x, Pressed(x, SelectArcEvent), SelectArc)
    ensures SelectsShape(x, Pressed(x, SelectCircleEvent), SelectCircle)
  {
    hide AfterEvent;
    if x.machine.active == Idle {
      TeachStarts(x);
    }
  }

  // ---- the buttons that move the machine ----

  /** The button raises `k` from the active state. */
  ghost predicate Raises(x: Context, y: Context, k: EventType) {
    y == AfterEvent(x, Report(k, x.machine.active))
  }

  /** Unless it becomes a request, the machine takes the event, and only a machine that moved is entered anew. */
  lemma RaisedEvent(x: Context, e: Event)
    requires !(x.machine.active in {Approach, PathExecution} && e.kind in {Reset, Home})
    ensures var n := Handle(x.machine, e).0;
            AfterEvent(x, e) == if n.active == x.machine.active then x.(machine := n) else Enter(x.(machine := n))
  {
    hide Handle, Enter;
  }

  /** VALIDATE is input while teaching, and otherwise asks for a preview; START asks for production. */
  lemma ValidateAndStart(x: Context)
    ensures x.machine.active == Teaching ==>
              Pressed(x, ValidateEvent) == x.(pendingTeaching := Some(ValidatePath))
    ensures x.machine.active != Teaching ==> Raises(x, Pressed(x, ValidateEvent), ValidatePreview)
    ensures Raises(x, Pressed(x, StartEvent), StartReplay)
  {
    hide AfterEvent;
  }

  lemma StartsFrom(m: Machine, k: EventType)
    requires k == ValidatePreview || k == StartReplay
    ensures var n := Handle(m, Report(k, m.active)).0;
            var allowed := m.active == Idle && m.recorded && m.validated && CanMove(m)
                && (k == StartReplay ==> m.previewAccepted);
            && (allowed ==> n.active == Approach && n.mode == if k == StartReplay then Production else Preview)
            && (!allowed ==> n.active == m.active && n.mode == m.mode)
  {
    hide Handle, Ready, LatchesFollow, DiagnosisFollows, CountsFollow, ProgramFollows;
    DiagramHolds(m, Report(k, m.active));
    assert Leads(m, Report(k, m.active), Approach) <==> Starts(m, Report(k, m.active));
  }

  /** PAUSE never resumes and RESUME never pauses; each does nothing in the other's states. */
  lemma PauseAndResume(x: Context)
    ensures x.machine.active == Paused ==> Pressed(x, PauseEvent) == x
    ensures x.machine.active != Paused ==> Raises(x, Pressed(x, PauseEvent), PauseResume)
    ensures x.machine.active == Paused ==> Raises(x, Pressed(x, ResumeEvent), PauseResume)
    ensures x.machine.active != Paused ==> Pressed(x, ResumeEvent) == x
  {
    hide AfterEvent;
  }

  lemma ResetPressed(x: Context)
    ensures var y := Pressed(x, ResetEvent);
            if x.machine.active == Teaching then y == x.(pendingTeaching := Some(ResetDraft)) else Raises(x, y, Reset)
  {
    hide AfterEvent;
  }

  lemma HomePressed(x: Context)
    ensures Raises(x, Pressed(x, HomeEvent), Home)
  {
    hide AfterEvent;
  }

  lemma Requested(x: Context, k: EventType)
    requires x.machine.active in {Approach, PathExecution} && k in {Reset, Home}
    ensures var y, r := AfterEvent(x, Report(k, x.machine.active)), Requests(k == Home, k == Reset);
            y == if x.machine.active == Approach then x.(approachControl := r) else x.(executionInputs := r)
  {}

  /** RESET is input while teaching, a request to a moving module, and otherwise goes to the machine. */
  lemma ResetButton(x: Context, y: Context)
    requires y == Pressed(x, ResetEvent)
    ensures match x.machine.active
            case Teaching => y == x.(pendingTeaching := Some(ResetDraft))
            case Approach => y == x.(approachControl := Requests(false, true))
            case PathExecution => y == x.(executionInputs := Requests(false, true))
            case _ => Raises(x, y, Reset)
  {
    hide AfterEvent, Pressed;
    ResetPressed(x);
    if x.machine.active in {Approach, PathExecution} {
      Requested(x, Reset);
    }
  }

  /** HOME is a request to a moving module, and otherwise goes to the machine. */
  lemma HomeButton(x: Context, y: Context)
    requires y == Pressed(x, HomeEvent)
    ensures match x.machine.active
            case Approach => y == x.(approachControl := Requests(true, false))
            case PathExecution => y == x.(executionInputs := Requests(true, false))
            case _ => Raises(x, y, Home)
  {
    hide AfterEvent, Pressed;
    HomePressed(x);
    if x.machine.active in {Approach, PathExecution} {
      Requested(x, Home);
    }
  }

  /** Every event that the HMI accepts is one of these buttons, and no two of them are the same command. */
  lemma EveryButton(d: HmiEvent, e: HmiEvent)
    ensures Translate(d).Some? <==> d != NoHmiEvent && d != UnknownEvent
    ensures Translate(d).Some? && Translate(d) == Translate(e) ==> d == e
  {}
}
