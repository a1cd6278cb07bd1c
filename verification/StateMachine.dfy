/** The supervisory state machine: one event at a time, no hardware and no tasks. */
module StateMachine {

  datatype StateId =
    | Boot | Homing | Idle | Teaching | PathValidation | Approach | PathExecution
    | ArcStabilizing | Welding | Paused | Retracting | Fault | EmergencyStop

  datatype Mode = NoExecution | Preview | Production

  datatype Severity = NoSeverity | Warning | Recoverable | ProtectiveStop | Emergency

  datatype EventType =
    | NoEvent | Teach | ValidatePreview | StartReplay | PauseResume | Reset | Home
    | StateComplete | StateFailed | ValidationRejected | AbortedHome | AbortedReset
    | ProtectiveStopAsserted | ProtectiveStopCleared | EstopAsserted | EstopReleased
    | FaultDetected | FaultAcknowledged

  datatype Event = Event(kind: EventType, source: StateId, severity: Severity, code: nat)

  datatype Option<T> = None | Some(value: T)

  datatype Result = Rejected | Handled | Transitioned

  datatype Safety = Safety(
    estopActive: bool, protectiveStopActive: bool, globalFaultActive: bool, motionPermitted: bool,
    drivesReady: bool, ethercatHealthy: bool, statusValid: bool)

  const NO_CODE := 0
  const PROTECTIVE_STOP_CODE := 0x1001
  const EMERGENCY_STOP_CODE := 0x2001
  const UINT32 := 0x1_0000_0000

  const Unhealthy := Safety(false, false, false, false, false, false, false)
  const Healthy := Safety(false, false, false, true, true, true, true)

  /** What is only kept for diagnosis. */
  datatype Record = Record(
    previous: StateId, severity: Severity, code: nat, homingRequired: bool,
    lastEvent: EventType, transitions: nat, rejections: nat)

  datatype Machine = Machine(
    active: StateId, resume: StateId, mode: Mode,
    recorded: bool, validated: bool, previewAccepted: bool,
    released: bool, acknowledged: bool, unified: bool,
    safety: Safety, record: Record)

  const Initially := Machine(Boot, Idle, NoExecution, false, false, false, false, false, false, Unhealthy,
                             Record(Boot, NoSeverity, NO_CODE, false, NoEvent, 0, 0))

  predicate Ready(x: Safety) {
    && x.statusValid && x.motionPermitted && x.drivesReady && x.ethercatHealthy
    && !x.estopActive && !x.protectiveStopActive && !x.globalFaultActive
  }

  predicate Stopped(s: StateId) { s == Fault || s == EmergencyStop }

  predicate CanMove(m: Machine) { !Stopped(m.active) && Ready(m.safety) }

  predicate Pausable(s: StateId) {
    s == Approach || s == PathExecution || s == ArcStabilizing || s == Welding || s == Retracting
  }

  /** Events that report on one particular state. */
  predicate ReportsState(k: EventType) {
    k == StateComplete || k == StateFailed || k == ValidationRejected || k == AbortedHome || k == AbortedReset
  }

  // ---- the transition function ----

  function Next32(n: nat): nat { (n + 1) % UINT32 }

  function Moved(r: Record, from: StateId): (n: Record)
    ensures n.previous == from
  {
    r.(previous := from, transitions := Next32(r.transitions))
  }

  function Refused(r: Record): Record { r.(rejections := Next32(r.rejections)) }

  function Faulted(r: Record, severity: Severity, code: nat): Record { r.(severity := severity, code := code) }

  function HomingSet(r: Record, required: bool): Record { r.(homingRequired := required) }

  function Noticed(r: Record, k: EventType): Record { r.(lastEvent := k) }

  function To(m: Machine, next: StateId): (Machine, Result) {
    if m.active == next then (m, Handled)
    else (m.(record := Moved(m.record, m.active), active := next), Transitioned)
  }

  function Reject(m: Machine): (Machine, Result) {
    (m.(record := Refused(m.record)), Rejected)
  }

  function ClearFault(m: Machine): Machine {
    m.(record := Faulted(m.record, NoSeverity, NO_CODE))
  }

  function ClearProgram(m: Machine): Machine {
    m.(recorded := false, validated := false, previewAccepted := false)
  }

  function CancelExecution(m: Machine): Machine {
    m.(mode := NoExecution, resume := Idle)
  }

  function Classified(s: Severity): Severity { if s == NoSeverity then Recoverable else s }

  function ToFault(m: Machine, severity: Severity): (Machine, Result) {
    To(m, if severity == Emergency then EmergencyStop else Fault)
  }

  function OnFailure(m: Machine, e: Event): (Machine, Result) {
    ToFault(m.(record := Faulted(m.record, Classified(e.severity), e.code), mode := NoExecution),
        Classified(e.severity))
  }

  function OnFaultDetected(m: Machine, e: Event): (Machine, Result) {
    ToFault(CancelExecution(m.(safety := m.safety.(globalFaultActive := true),
        record := Faulted(m.record, Classified(e.severity), e.code))),
            Classified(e.severity))
  }

  function OnProtectiveStop(m: Machine): (Machine, Result) {
    To(CancelExecution(m.(safety := m.safety.(protectiveStopActive := true),
        record := Faulted(m.record, Recoverable, PROTECTIVE_STOP_CODE))), Fault)
  }

  function OnProtectiveStopCleared(m: Machine): (Machine, Result) {
    var n := m.(safety := m.safety.(protectiveStopActive := false));
    if Stopped(n.active) then (n, Handled) else Reject(n)
  }

  function OnEstop(m: Machine): (Machine, Result) {
    To(CancelExecution(m.(safety := m.safety.(estopActive := true), released := false, acknowledged := false,
                          record := HomingSet(Faulted(m.record, Emergency, EMERGENCY_STOP_CODE), true))), EmergencyStop)
  }

  function OnEstopReleased(m: Machine): (Machine, Result) {
    var n := m.(safety := m.safety.(estopActive := false));
    if n.active == EmergencyStop then (n.(released := true), Handled) else Reject(n)
  }

  function OnPauseResume(m: Machine): (Machine, Result) {
    if m.active == Paused then
      if !CanMove(m) || !Pausable(m.resume) then Reject(m)
      else (To(m.(resume := Idle), m.resume).0, Transitioned)
    else if Pausable(m.active) then (To(m.(resume := m.active), Paused).0, Transitioned)
    else Reject(m)
  }

  function OnReset(m: Machine): (Machine, Result) {
    var cleared := CancelExecution(ClearProgram(m));
    match m.active
    case Idle => (cleared, Handled)
    case Teaching => To(cleared, Idle)
    case PathValidation => To(cleared, Idle)
    case Fault =>
      if !Ready(m.safety) then Reject(m) else To(ClearFault(cleared), Homing)
    case EmergencyStop =>
      if !Ready(m.safety) then Reject(m)
      else if !m.unified then To(ClearFault(cleared), Homing)
      else if !m.released then Reject(cleared)
      else (cleared.(acknowledged := true, record := HomingSet(cleared.record, true)), Handled)
    case _ => Reject(m)
  }

  function OnHome(m: Machine): (Machine, Result) {
    if m.active == EmergencyStop && m.unified then
      if !m.released || !m.acknowledged || !Ready(m.safety) then Reject(m)
      else To(m.(record := HomingSet(Faulted(m.record, NoSeverity, NO_CODE), false), acknowledged := false), Homing)
    else if m.active == Homing then (m, Handled)
    else if m.active != Idle || !CanMove(m) then Reject(m)
    else To(CancelExecution(m), Homing)
  }

  function OnAborted(m: Machine, k: EventType): (Machine, Result) {
    if m.active != Approach && m.active != PathExecution then Reject(m)
    else if k == AbortedHome then To(CancelExecution(m), Homing)
    else To(CancelExecution(ClearProgram(m)), Idle)
  }

  function OnIdle(m: Machine, k: EventType): (Machine, Result) {
    match k
    case Teach => To(m.(mode := NoExecution, validated := false, previewAccepted := false), Teaching)
    case ValidatePreview =>
      if !m.recorded || !m.validated || !CanMove(m) then Reject(m)
      else To(m.(mode := Preview, previewAccepted := false), Approach)
    case StartReplay =>
      if !m.recorded || !m.validated || !m.previewAccepted || !CanMove(m) then Reject(m)
      else To(m.(mode := Production), Approach)
    case _ => Reject(m)
  }

  function ExecutionDone(m: Machine, next: StateId): (Machine, Result) {
    To(m.(previewAccepted := if m.mode == Preview then m.validated else m.previewAccepted, mode := NoExecution), next)
  }

  /** Where the completion of the active state leads; `None` when it is not expected. */
  function CompletionTarget(m: Machine): Option<StateId> {
    match m.active
    case Boot => Some(Homing)
    case Homing => Some(Idle)
    case Teaching => Some(PathValidation)
    case PathValidation => Some(Idle)
    case Approach =>
      if m.mode == NoExecution then None
      else Some(if m.unified then PathExecution else if m.mode == Preview then Welding else ArcStabilizing)
    case PathExecution => if m.mode == NoExecution then None else Some(Homing)
    case ArcStabilizing => if m.mode == Production then Some(Welding) else None
    case Welding => if m.mode == NoExecution then None else Some(Retracting)
    case Retracting => if m.mode == NoExecution then None else Some(Idle)
    case _ => None
  }

  /** What it settles: a taught draft, a validated program, or a finished execution. */
  function Completed(m: Machine): Machine {
    var taught, valid := m.active == Teaching, m.active == PathValidation;
    var executed := m.active == PathExecution || m.active == Retracting;
    m.(recorded := m.recorded || taught || valid,
       validated := valid || (m.validated && !taught),
       previewAccepted := if executed && m.mode == Preview then m.validated else m.previewAccepted && !taught && !valid,
       mode := if taught || valid || executed then NoExecution else m.mode)
  }

  function OnComplete(m: Machine): (Machine, Result) {
    match CompletionTarget(m)
    case None => Reject(m)
    case Some(next) => To(Completed(m), next)
  }

  function OnValidationRejected(m: Machine): (Machine, Result) {
    if m.active != PathValidation then Reject(m)
    else To(m.(recorded := true, validated := false, previewAccepted := false, mode := NoExecution), Idle)
  }

  function Noted(m: Machine, e: Event): Machine { m.(record := Noticed(m.record, e.kind)) }

  function Handle(given: Machine, e: Event): (Machine, Result) {
    var m := Noted(given, e);
    if ReportsState(e.kind) && e.source != m.active then Reject(m)
    else match e.kind
         case ProtectiveStopAsserted => OnProtectiveStop(m)
         case ProtectiveStopCleared => OnProtectiveStopCleared(m)
         case EstopAsserted => OnEstop(m)
         case EstopReleased => OnEstopReleased(m)
         case FaultDetected => OnFaultDetected(m, e)
         case PauseResume => OnPauseResume(m)
         case StateFailed => OnFailure(m, e)
         case AbortedHome => OnAborted(m, AbortedHome)
         case AbortedReset => OnAborted(m, AbortedReset)
         case Reset => OnReset(m)
         case Home => OnHome(m)
         case StateComplete => OnComplete(m)
         case ValidationRejected => OnValidationRejected(m)
         case _ => if m.active == Idle then OnIdle(m, e.kind) else Reject(m)
  }

  // ---- the context the supervisor task owns ----

  class Supervisor {
    var activeState: StateId
    var previousState: StateId
    var resumeState: StateId
    var executionMode: Mode
    var faultSeverity: Severity
    var activeFaultCode: nat
    var recordedProgramAvailable: bool
    var validatedTrajectoryAvailable: bool
    var previewAccepted: bool
    var emergencyStopReleased: bool
    var emergencyResetAcknowledged: bool
    var homingRequired: bool
    var unifiedExecutionPolicy: bool
    var safety: Safety
    var lastEvent: EventType
    var transitionCount: nat
    var rejectedEventCount: nat

    ghost function View(): Machine
      reads this
    {
      Machine(activeState, resumeState, executionMode,
              recordedProgramAvailable, validatedTrajectoryAvailable, previewAccepted,
              emergencyStopReleased, emergencyResetAcknowledged, unifiedExecutionPolicy, safety,
              Record(previousState, faultSeverity, activeFaultCode, homingRequired, lastEvent, transitionCount,
                  rejectedEventCount))
    }

    constructor ()
      ensures View() == Initially
    {
      activeState, previousState, resumeState := Boot, Boot, Idle;
      executionMode, faultSeverity, activeFaultCode := NoExecution, NoSeverity, NO_CODE;
      recordedProgramAvailable, validatedTrajectoryAvailable, previewAccepted := false, false, false;
      emergencyStopReleased, emergencyResetAcknowledged, homingRequired := false, false, false;
      unifiedExecutionPolicy, safety, lastEvent := false, Unhealthy, NoEvent;
      transitionCount, rejectedEventCount := 0, 0;
    }

    method EnableUnifiedExecution()
      modifies this
      ensures View() == old(View()).(unified := true)
    {
      unifiedExecutionPolicy := true;
    }

    method UpdateSafety(snapshot: Safety)
      modifies this
      ensures View() == old(View()).(safety := snapshot)
    {
      safety := snapshot;
    }

    predicate MayMove()
      reads this
      ensures MayMove() == CanMove(View())
    {
      !Stopped(activeState) && Ready(safety)
    }

    method TransitionTo(next: StateId) returns (r: Result)
      modifies this
      ensures (View(), r) == To(old(View()), next)
    {
      if activeState == next {
        return Handled;
      }
      previousState := activeState;
      activeState := next;
      transitionCount := (transitionCount + 1) % UINT32;
      return Transitioned;
    }

    method RejectEvent() returns (r: Result)
      modifies this
      ensures (View(), r) == Reject(old(View()))
    {
      rejectedEventCount := (rejectedEventCount + 1) % UINT32;
      return Rejected;
    }

    method DropProgram()
      modifies this
      ensures View() == ClearProgram(old(View()))
    {
      recordedProgramAvailable, validatedTrajectoryAvailable, previewAccepted := false, false, false;
    }

    method DropExecution()
      modifies this
      ensures View() == CancelExecution(old(View()))
    {
      executionMode, resumeState := NoExecution, Idle;
    }

    method DropFault()
      modifies this
      ensures View() == ClearFault(old(View()))
    {
      faultSeverity, activeFaultCode := NoSeverity, NO_CODE;
    }

    method HandleProtectiveStop() returns (r: Result)
      modifies this
      ensures (View(), r) == OnProtectiveStop(old(View()))
    {
      hide To, CancelExecution;
      safety, faultSeverity, activeFaultCode := safety.(protectiveStopActive := true), Recoverable,
          PROTECTIVE_STOP_CODE;
      DropExecution();
      r := TransitionTo(Fault);
    }

    method HandleProtectiveStopCleared() returns (r: Result)
      modifies this
      ensures (View(), r) == OnProtectiveStopCleared(old(View()))
    {
      hide Reject;
      safety := safety.(protectiveStopActive := false);
      if activeState != Fault && activeState != EmergencyStop {
        r := RejectEvent();
      } else {
        r := Handled;
      }
    }

    method LatchEmergency()
      modifies this
      ensures View() == old(View()).(released := false, acknowledged := false,
              record := HomingSet(old(View()).record, true))
    {
      emergencyStopReleased, emergencyResetAcknowledged, homingRequired := false, false, true;
    }

    method HandleEstop() returns (r: Result)
      modifies this
      ensures (View(), r) == OnEstop(old(View()))
    {
      hide To, CancelExecution;
      safety, faultSeverity, activeFaultCode := safety.(estopActive := true), Emergency, EMERGENCY_STOP_CODE;
      LatchEmergency();
      DropExecution();
      r := TransitionTo(EmergencyStop);
    }

    method HandleEstopReleased() returns (r: Result)
      modifies this
      ensures (View(), r) == OnEstopReleased(old(View()))
    {
      hide Reject;
      safety := safety.(estopActive := false);
      if activeState != EmergencyStop {
        r := RejectEvent();
      } else {
        emergencyStopReleased := true;
        r := Handled;
      }
    }

    method EnterFault() returns (r: Result)
      modifies this
      ensures (View(), r) == ToFault(old(View()), old(faultSeverity))
    {
      hide To;
      if faultSeverity == Emergency {
        r := TransitionTo(EmergencyStop);
      } else {
        r := TransitionTo(Fault);
      }
    }

    method HandleFaultDetected(e: Event) returns (r: Result)
      modifies this
      ensures (View(), r) == OnFaultDetected(old(View()), e)
    {
      hide ToFault;
      safety, faultSeverity, activeFaultCode := safety.(globalFaultActive := true), Classified(e.severity), e.code;
      DropExecution();
      r := EnterFault();
    }

    method HandleFailure(e: Event) returns (r: Result)
      modifies this
      ensures (View(), r) == OnFailure(old(View()), e)
    {
      hide ToFault;
      faultSeverity, activeFaultCode, executionMode := Classified(e.severity), e.code, NoExecution;
      r := EnterFault();
    }

    method HandlePauseResume() returns (r: Result)
      modifies this
      ensures (View(), r) == OnPauseResume(old(View()))
    {
      hide To, Reject, CanMove;
      if activeState == Paused {
        if !MayMove() {
          r := RejectEvent();
          return;
        }
        if !Pausable(resumeState) {
          r := RejectEvent();
          return;
        }
        var stateToResume := resumeState;
        resumeState := Idle;
        var _ := TransitionTo(stateToResume);
        return Transitioned;
      }
      if Pausable(activeState) {
        resumeState := activeState;
        var _ := TransitionTo(Paused);
        return Transitioned;
      }
      r := RejectEvent();
    }

    method ResetFault() returns (r: Result)
      requires activeState == Fault
      modifies this
      ensures (View(), r) == OnReset(old(View()))
    {
      hide To, Reject, ClearProgram, CancelExecution;
      if !Ready(safety) {
        r := RejectEvent();
        return;
      }
      DropProgram();
      DropExecution();
      DropFault();
      r := TransitionTo(Homing);
    }

    method ResetEmergency() returns (r: Result)
      requires activeState == EmergencyStop
      modifies this
      ensures (View(), r) == OnReset(old(View()))
    {
      hide To, Reject;
      if !Ready(safety) {
        r := RejectEvent();
        return;
      }
      DropProgram();
      DropExecution();
      if !unifiedExecutionPolicy {
        DropFault();
        r := TransitionTo(Homing);
        return;
      }
      if !emergencyStopReleased {
        r := RejectEvent();
        return;
      }
      emergencyResetAcknowledged, homingRequired := true, true;
      r := Handled;
    }

    method HandleReset() returns (r: Result)
      modifies this
      ensures (View(), r) == OnReset(old(View()))
    {
      hide To, Reject, ClearProgram, CancelExecution;
      var state := activeState;
      match state
      case Idle =>
        DropProgram();
        DropExecution();
        r := Handled;
      case Teaching =>
        DropProgram();
        DropExecution();
        r := TransitionTo(Idle);
      case PathValidation =>
        DropProgram();
        DropExecution();
        r := TransitionTo(Idle);
      case Fault =>
        r := ResetFault();
      case EmergencyStop =>
        r := ResetEmergency();
      case _ =>
        r := RejectEvent();
    }

    method HandleHome() returns (r: Result)
      modifies this
      ensures (View(), r) == OnHome(old(View()))
    {
      hide To, Reject, CancelExecution, Ready;
      if activeState == EmergencyStop && unifiedExecutionPolicy {
        if !emergencyStopReleased || !emergencyResetAcknowledged || !Ready(safety) {
          r := RejectEvent();
          return;
        }
        faultSeverity, activeFaultCode, emergencyResetAcknowledged, homingRequired := NoSeverity, NO_CODE, false, false;
        r := TransitionTo(Homing);
        return;
      }
      if activeState == Homing {
        return Handled;
      }
      if activeState != Idle {
        r := RejectEvent();
        return;
      }
      if !MayMove() {
        r := RejectEvent();
        return;
      }
      DropExecution();
      r := TransitionTo(Homing);
    }

    method HandleAborted(kind: EventType) returns (r: Result)
      requires kind == AbortedHome || kind == AbortedReset
      modifies this
      ensures (View(), r) == OnAborted(old(View()), kind)
    {
      if activeState != Approach && activeState != PathExecution {
        r := RejectEvent();
        return;
      }
      if kind == AbortedReset {
        DropProgram();
      }
      DropExecution();
      r := TransitionTo(if kind == AbortedHome then Homing else Idle);
    }

    method HandleIdle(kind: EventType) returns (r: Result)
      requires activeState == Idle
      modifies this
      ensures (View(), r) == OnIdle(old(View()), kind)
    {
      hide To, Reject, CanMove;
      match kind
      case Teach =>
        executionMode, validatedTrajectoryAvailable, previewAccepted := NoExecution, false, false;
        r := TransitionTo(Teaching);
      case ValidatePreview =>
        if !recordedProgramAvailable || !validatedTrajectoryAvailable || !MayMove() {
          r := RejectEvent();
          return;
        }
        executionMode, previewAccepted := Preview, false;
        r := TransitionTo(Approach);
      case StartReplay =>
        if !recordedProgramAvailable || !validatedTrajectoryAvailable || !previewAccepted || !MayMove() {
          r := RejectEvent();
          return;
        }
        executionMode := Production;
        r := TransitionTo(Approach);
      case _ =>
        r := RejectEvent();
    }

    method FinishExecution(next: StateId) returns (r: Result)
      modifies this
      ensures (View(), r) == ExecutionDone(old(View()), next)
    {
      if executionMode == Preview {
        previewAccepted := validatedTrajectoryAvailable;
      }
      executionMode := NoExecution;
      r := TransitionTo(next);
    }

    method SetProgram(valid: bool, next: StateId) returns (r: Result)
      modifies this
      ensures (View(), r) == To(old(View()).(recorded := true, validated := valid, previewAccepted := false,
              mode := NoExecution), next)
    {
      hide To;
      recordedProgramAvailable, validatedTrajectoryAvailable, previewAccepted, executionMode := true, valid, false,
          NoExecution;
      r := TransitionTo(next);
    }

    method HandleValidationRejected() returns (r: Result)
      modifies this
      ensures (View(), r) == OnValidationRejected(old(View()))
    {
      hide To, Reject;
      if activeState == PathValidation {
        r := SetProgram(false, Idle);
      } else {
        r := RejectEvent();
      }
    }

    method HandleComplete() returns (r: Result)
      modifies this
      ensures (View(), r) == OnComplete(old(View()))
    {
      match activeState
      case Boot => r := TransitionTo(Homing);
      case Homing => r := TransitionTo(Idle);
      case Teaching => r := SetProgram(false, PathValidation);
      case PathValidation => r := SetProgram(true, Idle);
      case Approach =>
        if unifiedExecutionPolicy && executionMode != NoExecution {
          r := TransitionTo(PathExecution);
        } else if executionMode == Preview {
          r := TransitionTo(Welding);
        } else if executionMode == Production {
          r := TransitionTo(ArcStabilizing);
        } else {
          r := RejectEvent();
        }
      case PathExecution =>
        if executionMode == NoExecution {
          r := RejectEvent();
        } else {
          r := FinishExecution(Homing);
        }
      case ArcStabilizing =>
        if executionMode == Production {
          r := TransitionTo(Welding);
        } else {
          r := RejectEvent();
        }
      case Welding =>
        if executionMode != NoExecution {
          r := TransitionTo(Retracting);
        } else {
          r := RejectEvent();
        }
      case Retracting =>
        if executionMode != NoExecution {
          r := FinishExecution(Idle);
        } else {
          r := RejectEvent();
        }
      case _ => r := RejectEvent();
    }

    /** Presents one event; every effect on the context is that of the transition function. */
    method HandleEvent(e: Event) returns (r: Result)
      modifies this
      ensures (View(), r) == Handle(old(View()), e)
    {
      hide OnComplete, OnReset, OnHome, OnPauseResume, OnAborted, OnIdle, OnFaultDetected, OnFailure, OnProtectiveStop,
           OnProtectiveStopCleared, OnEstop, OnEstopReleased, OnValidationRejected, Reject;
      lastEvent := e.kind;
      if ReportsState(e.kind) && e.source != activeState {
        r := RejectEvent();
        return;
      }
      match e.kind
      case ProtectiveStopAsserted => r := HandleProtectiveStop();
      case ProtectiveStopCleared => r := HandleProtectiveStopCleared();
      case EstopAsserted => r := HandleEstop();
      case EstopReleased => r := HandleEstopReleased();
      case FaultDetected => r := HandleFaultDetected(e);
      case StateFailed => r := HandleFailure(e);
      case PauseResume => r := HandlePauseResume();
      case AbortedHome => r := HandleAborted(AbortedHome);
      case AbortedReset => r := HandleAborted(AbortedReset);
      case Reset => r := HandleReset();
      case Home => r := HandleHome();
      case StateComplete => r := HandleComplete();
      case ValidationRejected => r := HandleValidationRejected();
      case _ =>
        if activeState == Idle {
          r := HandleIdle(e.kind);
        } else {
          r := RejectEvent();
        }
    }
  }
}
