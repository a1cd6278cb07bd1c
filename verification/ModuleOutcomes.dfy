/** What the outcome of a module's step does to the machine, and the codes of failed steps. */
module ModuleOutcomes {
  import opened StateMachine
  import opened StateDiagram
  import opened SupervisorTask

  predicate SameProgram(m: Machine, n: Machine) {
    n.recorded == m.recorded && n.validated == m.validated && n.previewAccepted == m.previewAccepted
  }

  lemma OnlyMachine(x: Context, o: Outcome)
    ensures var r := ReportOf(x.machine.active, o); var n := AfterStep(x, o).machine;
            n == if r.Some? then Handle(x.machine, r.value).0 else x.machine
  {
    hide Handle, ReportOf;
    ReportKind(x.machine.active, o);
  }

  lemma ReportKind(active: StateId, o: Outcome)
    ensures var r := ReportOf(active, o);
            r.Some? ==> r.value.source == active && r.value.kind in {StateComplete, StateFailed, ValidationRejected,
                                                                     AbortedHome, AbortedReset}
  {}

  /** A moving module that stopped for HOME goes homing with the program kept; one that stopped for RESET loses it. */
  lemma StoppedFor(x: Context, home: Machine, reset: Machine)
    requires Moving(x.machine.active)
    requires home == AfterStep(x, DoneHome).machine && reset == AfterStep(x, DoneReset).machine
    ensures home.active == Homing && SameProgram(x.machine, home) && home.mode == NoExecution
    ensures reset.active == Idle && !reset.recorded && !reset.validated && !reset.previewAccepted
            && reset.mode == NoExecution
  {
    hide Handle, Ready, LatchesFollow, DiagnosisFollows, CountsFollow, AfterStep;
    var m := x.machine;
    OnlyMachine(x, DoneHome);
    OnlyMachine(x, DoneReset);
    DiagramHolds(m, Report(AbortedHome, m.active));
    DiagramHolds(m, Report(AbortedReset, m.active));
    assert Leads(m, Report(AbortedHome, m.active), Homing) && Leads(m, Report(AbortedReset, m.active), Idle);
  }

  predicate Reporting(s: StateId) {
    s !in {ArcStabilizing, Welding, Retracting, Fault, EmergencyStop}
  }

  /** A failed step of any module that reports ends in FAULT, recoverable, with its own code. */
  lemma FailedStep(x: Context, detail: nat, n: Machine)
    requires Reporting(x.machine.active) && n == AfterStep(x, StepFailed(detail)).machine
    ensures n.active == Fault && n.mode == NoExecution && SameProgram(x.machine, n)
    ensures n.record.severity == Recoverable && n.record.code == StateErrorCode(x.machine.active, detail)
  {
    hide Handle, Ready, LatchesFollow, CountsFollow, AfterStep, StateErrorCode;
    var m := x.machine;
    var e := Event(StateFailed, m.active, Recoverable, StateErrorCode(m.active, detail));
    OnlyMachine(x, StepFailed(detail));
    DiagramHolds(m, e);
    assert Leads(m, e, Fault);
  }

  /** The code tells the state and the lower half of the detail. */
  lemma CodesTell(s: StateId, t: StateId, d: nat, e: nat)
    ensures StateErrorCode(s, d) == StateErrorCode(t, e) <==> s == t && d % 0x1_0000 == e % 0x1_0000
    ensures StateErrorCode(s, d) / 0x1_0000 < 13
  {
    hide StateNumber;
    Numbered(s, t);
  }

  lemma Numbered(s: StateId, t: StateId)
    ensures (StateNumber(s) == StateNumber(t) <==> s == t) && StateNumber(s) < 13
  {}

  /** Where the completion of each module leads under the unified policy. */
  function Following(s: StateId): Option<StateId> {
    match s
    case Boot => Some(Homing)
    case Homing => Some(Idle)
    case Teaching => Some(PathValidation)
    case PathValidation => Some(Idle)
    case Approach => Some(PathExecution)
    case PathExecution => Some(Homing)
    case _ => None
  }

  /** The cycle of the job: every completed step leads to the next state; in all others completing does nothing. */
  lemma CompletedStep(x: Context, n: Machine)
    requires x.machine.unified && (Moving(x.machine.active) ==> x.machine.mode != NoExecution)
    requires n == AfterStep(x, Done).machine
    ensures match Following(x.machine.active)
            case Some(next) => n.active == next
            case None => n == x.machine
  {
    hide Handle, Ready, LatchesFollow, DiagnosisFollows, CountsFollow, ProgramFollows, ExecutionFollows, AfterStep;
    var m := x.machine;
    OnlyMachine(x, Done);
    DiagramHolds(m, Report(StateComplete, m.active));
    if Following(m.active).Some? {
      assert Leads(m, Report(StateComplete, m.active), Following(m.active).value);
    }
  }

  /** A rejected validation keeps the draft and nothing else; a completed one validates it. */
  lemma ValidationStep(x: Context, good: Machine, bad: Machine)
    requires x.machine.active == PathValidation
    requires good == AfterStep(x, Done).machine && bad == AfterStep(x, DoneInvalid).machine
    ensures good.active == Idle && good.recorded && good.validated && !good.previewAccepted
    ensures bad.active == Idle && bad.recorded && !bad.validated && !bad.previewAccepted
  {
    hide Handle, Ready, LatchesFollow, DiagnosisFollows, CountsFollow, ExecutionFollows, AfterStep;
    var m := x.machine;
    OnlyMachine(x, Done);
    OnlyMachine(x, DoneInvalid);
    DiagramHolds(m, Report(StateComplete, PathValidation));
    DiagramHolds(m, Report(ValidationRejected, PathValidation));
    assert Leads(m, Report(StateComplete, PathValidation), Idle);
    assert Leads(m, Report(ValidationRejected, PathValidation), Idle);
  }

  /** As long as a step goes on, and for outcomes that are not the module's own, the machine stays as it is. */
  lemma QuietStep(x: Context)
    ensures AfterStep(x, StillRunning).machine == x.machine
    ensures !Moving(x.machine.active) ==>
              AfterStep(x, DoneHome).machine == x.machine && AfterStep(x, DoneReset).machine == x.machine
    ensures x.machine.active != PathValidation ==> AfterStep(x, DoneInvalid).machine == x.machine
    ensures forall detail :: !Reporting(x.machine.active) ==>
              AfterStep(x, StepFailed(detail)).machine == x.machine
  {
    hide Handle;
  }

  /**
   * Inputs are taken by one step: whatever the outcome, none is left for the module that stepped, and as long
   * as the step goes on the inputs of the other modules stay.
   */
  lemma InputsTakenOnce(x: Context, o: Outcome)
    ensures var y := AfterStep(x, o); var active := x.machine.active;
            && (active == Approach ==> y.approachControl == Requests(false, false))
            && (active == PathExecution ==> y.executionInputs == Requests(false, false))
            && (active == Teaching ==>
                  y.pendingTeaching == None && y.teachingSteps == x.teachingSteps + [x.pendingTeaching])
            && (o == StillRunning && active != Approach ==> y.approachControl == x.approachControl)
            && (o == StillRunning && active != PathExecution ==> y.executionInputs == x.executionInputs)
            && (o == StillRunning && active != Teaching ==>
                  y.pendingTeaching == x.pendingTeaching && y.teachingSteps == x.teachingSteps)
  {
    hide Handle, ReportOf;
    ReportKind(x.machine.active, o);
    assert ReportOf(x.machine.active, StillRunning) == None by {
      ReportStill(x.machine.active);
    }
  }

  lemma ReportStill(active: StateId)
    ensures ReportOf(active, StillRunning) == None
  {}
}
