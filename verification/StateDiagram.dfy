/**
 * The state diagram of the supervisor, read by state and by field: what leads into each state, and
 * what sets and clears each field.  The transition function is organised by event.
 */
module StateDiagram {
  import opened StateMachine

  // ---- the events that matter, by what they mean ----

  /** The active state reports `k` about itself. */
  predicate Reports(m: Machine, e: Event, k: EventType, s: StateId) {
    e.kind == k && e.source == s && m.active == s
  }

  predicate Completes(m: Machine, e: Event, s: StateId) { Reports(m, e, StateComplete, s) }

  predicate Aborts(m: Machine, e: Event, k: EventType) {
    Reports(m, e, k, Approach) || Reports(m, e, k, PathExecution)
  }

  predicate Fails(m: Machine, e: Event) { Reports(m, e, StateFailed, m.active) }

  predicate Starts(m: Machine, e: Event) {
    && m.active == Idle && m.recorded && m.validated && CanMove(m)
    && (e.kind == ValidatePreview || (e.kind == StartReplay && m.previewAccepted))
  }

  predicate Pauses(m: Machine, e: Event) { e.kind == PauseResume && Pausable(m.active) }

  predicate Resumes(m: Machine, e: Event) {
    e.kind == PauseResume && m.active == Paused && CanMove(m) && Pausable(m.resume)
  }

  /** The program is given up. */
  predicate Clears(m: Machine, e: Event) {
    || (e.kind == Reset && m.active in {Idle, Teaching, PathValidation})
    || (e.kind == Reset && Stopped(m.active) && Ready(m.safety))
    || Aborts(m, e, AbortedReset)
  }

  predicate Redraws(m: Machine, e: Event) { e.kind == Teach && m.active == Idle }

  predicate Emergent(e: Event) { e.severity == Emergency }

  /** The recovery from a stop that the policy demands. */
  predicate Recovers(m: Machine, e: Event) {
    Ready(m.safety) &&
    match m.active
    case Fault => e.kind == Reset
    case EmergencyStop =>
      if m.unified then e.kind == Home && m.released && m.acknowledged else e.kind == Reset
    case _ => false
  }

  predicate GoesHome(m: Machine, e: Event) { e.kind == Home && m.active == Idle && CanMove(m) }

  predicate Acknowledges(m: Machine, e: Event) {
    e.kind == Reset && m.active == EmergencyStop && m.unified && m.released && Ready(m.safety)
  }

  // ---- states ----

  /** The event moves the machine into `s` from another state. */
  predicate Leads(m: Machine, e: Event, s: StateId) {
    m.active != s &&
    match s
    case Boot => false
    case Homing =>
      || Completes(m, e, Boot) || (Completes(m, e, PathExecution) && m.mode != NoExecution)
      || Recovers(m, e) || GoesHome(m, e) || Aborts(m, e, AbortedHome)
    case Idle =>
      || Completes(m, e, Homing) || Completes(m, e, PathValidation)
      || Reports(m, e, ValidationRejected, PathValidation)
      || (Completes(m, e, Retracting) && m.mode != NoExecution)
      || (e.kind == Reset && m.active in {Teaching, PathValidation}) || Aborts(m, e, AbortedReset)
    case Teaching => Redraws(m, e)
    case PathValidation => Completes(m, e, Teaching)
    case Approach => Starts(m, e) || ResumesTo(m, e, Approach)
    case PathExecution =>
      (Completes(m, e, Approach) && m.mode != NoExecution && m.unified) || ResumesTo(m, e, PathExecution)
    case ArcStabilizing =>
      (Completes(m, e, Approach) && m.mode == Production && !m.unified) || ResumesTo(m, e, ArcStabilizing)
    case Welding =>
      || (Completes(m, e, Approach) && m.mode == Preview && !m.unified)
      || (Completes(m, e, ArcStabilizing) && m.mode == Production) || ResumesTo(m, e, Welding)
    case Retracting => (Completes(m, e, Welding) && m.mode != NoExecution) || ResumesTo(m, e, Retracting)
    case Paused => Pauses(m, e)
    case Fault => e.kind == ProtectiveStopAsserted || ((e.kind == FaultDetected || Fails(m, e)) && !Emergent(e))
    case EmergencyStop => e.kind == EstopAsserted || ((e.kind == FaultDetected || Fails(m, e)) && Emergent(e))
  }

  predicate ResumesTo(m: Machine, e: Event, s: StateId) { Resumes(m, e) && m.resume == s }

  /** Only what leads somewhere changes the state. */
  ghost predicate StatesFollow(m: Machine, e: Event, n: Machine) {
    && (forall s :: Leads(m, e, s) ==> n.active == s)
    && (n.active != m.active ==> Leads(m, e, n.active))
  }

  // ---- the program ----

  predicate Settles(m: Machine, e: Event) {
    Completes(m, e, Teaching) || Completes(m, e, PathValidation) || Reports(m, e, ValidationRejected, PathValidation)
  }

  /** An execution ends, in the last state of either policy. */
  predicate Executed(m: Machine, e: Event) {
    (Completes(m, e, PathExecution) || Completes(m, e, Retracting)) && m.mode != NoExecution
  }

  predicate Interrupts(m: Machine, e: Event) {
    || e.kind in {ProtectiveStopAsserted, EstopAsserted, FaultDetected}
    || Aborts(m, e, AbortedHome) || Aborts(m, e, AbortedReset)
  }

  ghost predicate ProgramFollows(m: Machine, e: Event, n: Machine) {
    && (n.recorded <==> Settles(m, e) || (m.recorded && !Clears(m, e)))
    && (n.validated <==>
          Completes(m, e, PathValidation) || (m.validated && !Clears(m, e) && !Settles(m, e) && !Redraws(m, e)))
    && (n.previewAccepted <==>
          if Executed(m, e) && m.mode == Preview then m.validated
          else m.previewAccepted && !Clears(m, e) && !Settles(m, e) && !Redraws(m, e)
               && !(Starts(m, e) && e.kind == ValidatePreview))
  }

  // ---- the execution ----

  ghost predicate ExecutionFollows(m: Machine, e: Event, n: Machine) {
    && n.mode == (if Starts(m, e) then if e.kind == ValidatePreview then Preview else Production
                  else if Executed(m, e) || Settles(m, e) || Redraws(m, e) || Clears(m, e) || Interrupts(m, e)
                          || Fails(m, e) || GoesHome(m, e) then NoExecution
                  else m.mode)
    && n.resume == (if Pauses(m, e) then m.active
                    else if Resumes(m, e) || Clears(m, e) || Interrupts(m, e) || GoesHome(m, e) then Idle
                    else m.resume)
  }

  // ---- the stops ----

  ghost predicate LatchesFollow(m: Machine, e: Event, n: Machine) {
    && n.unified == m.unified
    && (n.released <==> e.kind != EstopAsserted
                        && (m.released || (e.kind == EstopReleased && m.active == EmergencyStop)))
    && (n.acknowledged <==> e.kind != EstopAsserted && (m.acknowledged || Acknowledges(m, e))
                            && !(Recovers(m, e) && e.kind == Home))
    && SafetyFollows(m, e, n.safety)
  }

  /** Events set and clear three health conditions; the others come with the safety snapshots. */
  ghost predicate SafetyFollows(m: Machine, e: Event, x: Safety) {
    var was := m.safety;
    && (x.estopActive <==> e.kind == EstopAsserted || (was.estopActive && e.kind != EstopReleased))
    && (x.protectiveStopActive <==>
          e.kind == ProtectiveStopAsserted || (was.protectiveStopActive && e.kind != ProtectiveStopCleared))
    && (x.globalFaultActive <==> e.kind == FaultDetected || was.globalFaultActive)
    && x.motionPermitted == was.motionPermitted && x.drivesReady == was.drivesReady
    && x.ethercatHealthy == was.ethercatHealthy && x.statusValid == was.statusValid
  }

  // ---- the record ----

  /** Events that are taken note of without leaving the state. */
  predicate Accepted(m: Machine, e: Event) {
    || (e.kind == ProtectiveStopCleared && Stopped(m.active)) || (e.kind == EstopReleased && m.active == EmergencyStop)
    || (e.kind == ProtectiveStopAsserted && m.active == Fault) || (e.kind == EstopAsserted && m.active == EmergencyStop)
    || (Diagnosed(m, e) && m.active == if Emergent(e) then EmergencyStop else Fault)
    || Acknowledges(m, e) || (e.kind == Reset && m.active == Idle) || (e.kind == Home && m.active == Homing)
  }

  predicate Diagnosed(m: Machine, e: Event) { e.kind == FaultDetected || Fails(m, e) }

  ghost predicate CountsFollow(m: Machine, e: Event, n: Machine, result: Result) {
    var was, now := m.record, n.record;
    && now.lastEvent == e.kind
    && result == (if n.active != m.active then Transitioned else if Accepted(m, e) then Handled else Rejected)
    && now.previous == (if result == Transitioned then m.active else was.previous)
    && now.transitions == (if result == Transitioned then Next32(was.transitions) else was.transitions)
    && now.rejections == (if result == Rejected then Next32(was.rejections) else was.rejections)
  }

  ghost predicate DiagnosisFollows(m: Machine, e: Event, n: Machine) {
    var was, now := m.record, n.record;
    && (now.severity, now.code) ==
         (if e.kind == ProtectiveStopAsserted then (Recoverable, PROTECTIVE_STOP_CODE)
          else if e.kind == EstopAsserted then (Emergency, EMERGENCY_STOP_CODE)
          else if Diagnosed(m, e) then (if e.severity == NoSeverity then Recoverable else e.severity, e.code)
          else if Recovers(m, e) then (NoSeverity, NO_CODE)
          else (was.severity, was.code))
    && (now.homingRequired <==>
          || e.kind == EstopAsserted || Acknowledges(m, e)
          || (was.homingRequired && !(Recovers(m, e) && e.kind == Home)))
  }

  ghost predicate Follows(m: Machine, e: Event, out: (Machine, Result)) {
    && StatesFollow(m, e, out.0) && ProgramFollows(m, e, out.0) && ExecutionFollows(m, e, out.0)
    && LatchesFollow(m, e, out.0) && DiagnosisFollows(m, e, out.0) && CountsFollow(m, e, out.0, out.1)
  }

  // ---- the transition function follows the diagram ----

  lemma ProtectiveStopHeldFollows(m: Machine, e: Event)
    requires e.kind == ProtectiveStopAsserted && m.active == Fault
    ensures Follows(m, e, OnProtectiveStop(Noted(m, e)))
  {
    hide Next32, Ready;
  }

  lemma ProtectiveStopTakenFollows(m: Machine, e: Event)
    requires e.kind == ProtectiveStopAsserted && m.active != Fault
    ensures Follows(m, e, OnProtectiveStop(Noted(m, e)))
  {
    hide Next32, Ready;
  }

  lemma ProtectiveClearFaultFollows(m: Machine, e: Event)
    requires e.kind == ProtectiveStopCleared && m.active == Fault
    ensures Follows(m, e, OnProtectiveStopCleared(Noted(m, e)))
  {
    hide Next32, Ready;
  }

  lemma ProtectiveClearEmergencyFollows(m: Machine, e: Event)
    requires e.kind == ProtectiveStopCleared && m.active == EmergencyStop
    ensures Follows(m, e, OnProtectiveStopCleared(Noted(m, e)))
  {
    hide Next32, Ready;
  }

  lemma ProtectiveClearRefusedFollows(m: Machine, e: Event)
    requires e.kind == ProtectiveStopCleared && !Stopped(m.active)
    ensures Follows(m, e, OnProtectiveStopCleared(Noted(m, e)))
  {
    hide Next32, Ready;
  }

  lemma EstopHeldFollows(m: Machine, e: Event)
    requires e.kind == EstopAsserted && m.active == EmergencyStop
    ensures Follows(m, e, OnEstop(Noted(m, e)))
  {
    hide Next32, Ready;
  }

  lemma EstopTakenFollows(m: Machine, e: Event)
    requires e.kind == EstopAsserted && m.active != EmergencyStop
    ensures Follows(m, e, OnEstop(Noted(m, e)))
  {
    hide Next32, Ready;
  }

  lemma ReleaseHeldFollows(m: Machine, e: Event)
    requires e.kind == EstopReleased && m.active == EmergencyStop
    ensures Follows(m, e, OnEstopReleased(Noted(m, e)))
  {
    hide Next32, Ready;
  }

  lemma ReleaseLeadsNowhere(m: Machine, e: Event, s: StateId)
    requires e.kind == EstopReleased
    ensures !Leads(m, e, s)
  {
    hide Ready, CanMove;
  }

  lemma ReleaseRefusedFollows(m: Machine, e: Event)
    requires e.kind == EstopReleased && m.active != EmergencyStop
    ensures Follows(m, e, OnEstopReleased(Noted(m, e)))
  {
    hide Next32, Ready, Leads;
    forall s
      ensures !Leads(m, e, s)
    {
      ReleaseLeadsNowhere(m, e, s);
    }
  }

  lemma FaultHeldFollows(m: Machine, e: Event)
    requires e.kind == FaultDetected && m.active == (if Emergent(e) then EmergencyStop else Fault)
    ensures Follows(m, e, OnFaultDetected(Noted(m, e), e))
  {
    hide Next32, Ready;
  }

  lemma FaultEmergencyFollows(m: Machine, e: Event)
    requires e.kind == FaultDetected && Emergent(e) && m.active != EmergencyStop
    ensures Follows(m, e, OnFaultDetected(Noted(m, e), e))
  {
    hide Next32, Ready;
  }

  lemma FaultOrdinaryFollows(m: Machine, e: Event)
    requires e.kind == FaultDetected && !Emergent(e) && m.active != Fault
    ensures Follows(m, e, OnFaultDetected(Noted(m, e), e))
  {
    hide Next32, Ready;
  }

  lemma FailureEmergencyFollows(m: Machine, e: Event)
    requires e.kind == StateFailed && e.source == m.active && Emergent(e)
    ensures Follows(m, e, OnFailure(Noted(m, e), e))
  {
    hide Next32, Ready;
  }

  lemma FailureOrdinaryFollows(m: Machine, e: Event)
    requires e.kind == StateFailed && e.source == m.active && !Emergent(e)
    ensures Follows(m, e, OnFailure(Noted(m, e), e))
  {
    hide Next32, Ready;
  }

  lemma PauseTakenFollows(m: Machine, e: Event)
    requires e.kind == PauseResume && Pauses(m, e)
    ensures Follows(m, e, OnPauseResume(Noted(m, e)))
  {
    hide Next32, Ready;
  }

  lemma PauseResumedFollows(m: Machine, e: Event)
    requires e.kind == PauseResume && Resumes(m, e)
    ensures Follows(m, e, OnPauseResume(Noted(m, e)))
  {
    hide Next32, Ready, StatesFollow;
    PauseResumedLeads(m, e);
  }

  lemma PauseResumedLeads(m: Machine, e: Event)
    requires e.kind == PauseResume && Resumes(m, e)
    ensures StatesFollow(m, e, OnPauseResume(Noted(m, e)).0)
  {
    hide Leads, Ready, Moved;
    forall s
      ensures Leads(m, e, s) <==> s == m.resume
    {
      ResumeLeads(m, e, s);
    }
  }

  lemma ResumeLeads(m: Machine, e: Event, s: StateId)
    requires Resumes(m, e)
    ensures Leads(m, e, s) <==> s == m.resume
  {
    hide Ready, CanMove;
  }

  lemma PauseRefusedFollows(m: Machine, e: Event)
    requires e.kind == PauseResume && !Pauses(m, e) && !Resumes(m, e)
    ensures Follows(m, e, OnPauseResume(Noted(m, e)))
  {
    hide Next32, Ready;
  }

  lemma ResetClearedFollows(m: Machine, e: Event)
    requires e.kind == Reset && m.active in {Idle, Teaching, PathValidation}
    ensures Follows(m, e, OnReset(Noted(m, e)))
  {
    hide Next32, Ready;
  }

  lemma ResetFaultFollows(m: Machine, e: Event)
    requires e.kind == Reset && Recovers(m, e) && m.active == Fault
    ensures Follows(m, e, OnReset(Noted(m, e)))
  {
    hide Next32, Ready;
  }

  lemma ResetEmergencyFollows(m: Machine, e: Event)
    requires e.kind == Reset && Recovers(m, e) && m.active == EmergencyStop
    ensures Follows(m, e, OnReset(Noted(m, e)))
  {
    hide Next32, Ready;
  }

  lemma ResetAcknowledgedFollows(m: Machine, e: Event)
    requires e.kind == Reset && Acknowledges(m, e)
    ensures Follows(m, e, OnReset(Noted(m, e)))
  {
    hide Next32, Ready;
  }

  lemma ResetUnreleasedFollows(m: Machine, e: Event)
    requires e.kind == Reset && Stopped(m.active) && Ready(m.safety) && !Recovers(m, e) && !Acknowledges(m, e)
    ensures Follows(m, e, OnReset(Noted(m, e)))
  {
    hide Next32, Ready;
  }

  lemma ResetRefusedFollows(m: Machine, e: Event)
    requires e.kind == Reset && !Clears(m, e)
    ensures Follows(m, e, OnReset(Noted(m, e)))
  {
    hide Next32, Ready;
  }

  lemma HomeRecoveredFollows(m: Machine, e: Event)
    requires e.kind == Home && Recovers(m, e)
    ensures Follows(m, e, OnHome(Noted(m, e)))
  {
    hide Next32, Ready;
  }

  lemma HomeGoneFollows(m: Machine, e: Event)
    requires e.kind == Home && GoesHome(m, e)
    ensures Follows(m, e, OnHome(Noted(m, e)))
  {
    hide Next32, Ready;
  }

  lemma HomeHeldFollows(m: Machine, e: Event)
    requires e.kind == Home && m.active == Homing
    ensures Follows(m, e, OnHome(Noted(m, e)))
  {
    hide Next32, Ready;
  }

  lemma HomeRefusedFollows(m: Machine, e: Event)
    requires e.kind == Home && !Recovers(m, e) && !GoesHome(m, e) && m.active != Homing
    ensures Follows(m, e, OnHome(Noted(m, e)))
  {
    hide Next32, Ready;
  }

  predicate Moving(s: StateId) { s == Approach || s == PathExecution }

  lemma AbortHomeTakenFollows(m: Machine, e: Event)
    requires e.kind == AbortedHome && e.source == m.active && Moving(m.active)
    ensures Follows(m, e, OnAborted(Noted(m, e), AbortedHome))
  {
    hide Next32, Ready;
  }

  lemma AbortResetTakenFollows(m: Machine, e: Event)
    requires e.kind == AbortedReset && e.source == m.active && Moving(m.active)
    ensures Follows(m, e, OnAborted(Noted(m, e), AbortedReset))
  {
    hide Next32, Ready;
  }

  lemma AbortRefusedFollows(m: Machine, e: Event)
    requires e.kind in {AbortedHome, AbortedReset} && e.source == m.active && !Moving(m.active)
    ensures Follows(m, e, OnAborted(Noted(m, e), e.kind))
  {
    hide Next32, Ready;
  }

  lemma AbortFollows(m: Machine, e: Event)
    requires e.kind in {AbortedHome, AbortedReset} && e.source == m.active
    ensures Follows(m, e, OnAborted(Noted(m, e), e.kind))
  {
    hide Follows, OnAborted, Noted;
    if !Moving(m.active) {
      AbortRefusedFollows(m, e);
    } else if e.kind == AbortedHome {
      AbortHomeTakenFollows(m, e);
    } else {
      AbortResetTakenFollows(m, e);
    }
  }

  lemma CompleteSettledFollows(m: Machine, e: Event)
    requires e.kind == StateComplete && e.source == m.active && Settles(m, e)
    ensures Follows(m, e, OnComplete(Noted(m, e)))
  {
    hide Next32, Ready;
  }

  lemma CompleteExecutedFollows(m: Machine, e: Event)
    requires e.kind == StateComplete && e.source == m.active && Executed(m, e)
    ensures Follows(m, e, OnComplete(Noted(m, e)))
  {
    hide Next32, Ready;
  }

  lemma CompleteStartedFollows(m: Machine, e: Event)
    requires e.kind == StateComplete && e.source == m.active && m.active in {Boot, Homing}
    ensures Follows(m, e, OnComplete(Noted(m, e)))
  {
    hide Next32, Ready;
  }

  lemma CompleteMovedFollows(m: Machine, e: Event)
    requires e.kind == StateComplete && e.source == m.active
    requires m.active in {Approach, ArcStabilizing, Welding} && CompletionTarget(m).Some?
    ensures Follows(m, e, OnComplete(Noted(m, e)))
  {
    hide Next32, Ready;
  }

  lemma CompleteRefusedFollows(m: Machine, e: Event)
    requires e.kind == StateComplete && e.source == m.active && CompletionTarget(m).None?
    ensures Follows(m, e, OnComplete(Noted(m, e)))
  {
    hide Next32, Ready;
  }

  lemma VerdictFollows(m: Machine, e: Event)
    requires e.kind == ValidationRejected && e.source == m.active
    ensures Follows(m, e, OnValidationRejected(Noted(m, e)))
  {
    hide Next32, Ready;
  }

  lemma IdleStartedFollows(m: Machine, e: Event)
    requires e.kind in {NoEvent, Teach, ValidatePreview, StartReplay, FaultAcknowledged} && Starts(m, e)
    ensures Follows(m, e, (if m.active == Idle then OnIdle(Noted(m, e), e.kind) else Reject(Noted(m, e))))
  {
    hide Next32, Ready;
  }

  lemma IdleRedrawnFollows(m: Machine, e: Event)
    requires e.kind in {NoEvent, Teach, ValidatePreview, StartReplay, FaultAcknowledged} && Redraws(m, e)
    ensures Follows(m, e, (if m.active == Idle then OnIdle(Noted(m, e), e.kind) else Reject(Noted(m, e))))
  {
    hide Next32, Ready;
  }

  lemma IdleRefusedFollows(m: Machine, e: Event)
    requires e.kind in {NoEvent, Teach, ValidatePreview, StartReplay, FaultAcknowledged}
    requires !Starts(m, e) && !Redraws(m, e)
    ensures Follows(m, e, (if m.active == Idle then OnIdle(Noted(m, e), e.kind) else Reject(Noted(m, e))))
  {
    hide Next32, Ready;
  }

  lemma MisdirectedFollows(m: Machine, e: Event)
    requires ReportsState(e.kind) && e.source != m.active
    ensures Follows(m, e, Reject(Noted(m, e)))
  {
    hide Next32, Ready;
  }

  lemma ProtectiveStopFollows(m: Machine, e: Event)
    requires e.kind == ProtectiveStopAsserted
    ensures Follows(m, e, OnProtectiveStop(Noted(m, e)))
  {
    hide Follows, OnProtectiveStop, Noted;
    if m.active == Fault {
      ProtectiveStopHeldFollows(m, e);
    } else {
      ProtectiveStopTakenFollows(m, e);
    }
  }

  lemma ProtectiveClearFollows(m: Machine, e: Event)
    requires e.kind == ProtectiveStopCleared
    ensures Follows(m, e, OnProtectiveStopCleared(Noted(m, e)))
  {
    hide Follows, OnProtectiveStopCleared, Noted;
    if m.active == Fault {
      ProtectiveClearFaultFollows(m, e);
    } else if m.active == EmergencyStop {
      ProtectiveClearEmergencyFollows(m, e);
    } else {
      ProtectiveClearRefusedFollows(m, e);
    }
  }

  lemma EstopFollows(m: Machine, e: Event)
    requires e.kind == EstopAsserted
    ensures Follows(m, e, OnEstop(Noted(m, e)))
  {
    hide Follows, OnEstop, Noted;
    if m.active == EmergencyStop {
      EstopHeldFollows(m, e);
    } else {
      EstopTakenFollows(m, e);
    }
  }

  lemma ReleaseFollows(m: Machine, e: Event)
    requires e.kind == EstopReleased
    ensures Follows(m, e, OnEstopReleased(Noted(m, e)))
  {
    hide Follows, OnEstopReleased, Noted;
    if m.active == EmergencyStop {
      ReleaseHeldFollows(m, e);
    } else {
      ReleaseRefusedFollows(m, e);
    }
  }

  lemma FaultFollows(m: Machine, e: Event)
    requires e.kind == FaultDetected
    ensures Follows(m, e, OnFaultDetected(Noted(m, e), e))
  {
    hide Follows, OnFaultDetected, Noted;
    if m.active == (if Emergent(e) then EmergencyStop else Fault) {
      FaultHeldFollows(m, e);
    } else if Emergent(e) && m.active != EmergencyStop {
      FaultEmergencyFollows(m, e);
    } else {
      FaultOrdinaryFollows(m, e);
    }
  }

  lemma FailureFollows(m: Machine, e: Event)
    requires e.kind == StateFailed && e.source == m.active
    ensures Follows(m, e, OnFailure(Noted(m, e), e))
  {
    hide Follows, OnFailure, Noted;
    if Emergent(e) {
      FailureEmergencyFollows(m, e);
    } else {
      FailureOrdinaryFollows(m, e);
    }
  }

  lemma PauseFollows(m: Machine, e: Event)
    requires e.kind == PauseResume
    ensures Follows(m, e, OnPauseResume(Noted(m, e)))
  {
    hide Follows, OnPauseResume, Noted;
    if Pauses(m, e) {
      PauseTakenFollows(m, e);
    } else if Resumes(m, e) {
      PauseResumedFollows(m, e);
    } else {
      PauseRefusedFollows(m, e);
    }
  }

  lemma ResetFollows(m: Machine, e: Event)
    requires e.kind == Reset
    ensures Follows(m, e, OnReset(Noted(m, e)))
  {
    hide Follows, OnReset, Noted;
    if m.active in {Idle, Teaching, PathValidation} {
      ResetClearedFollows(m, e);
    } else if Recovers(m, e) && m.active == Fault {
      ResetFaultFollows(m, e);
    } else if Recovers(m, e) && m.active == EmergencyStop {
      ResetEmergencyFollows(m, e);
    } else if Acknowledges(m, e) {
      ResetAcknowledgedFollows(m, e);
    } else if Stopped(m.active) && Ready(m.safety) && !Recovers(m, e) && !Acknowledges(m, e) {
      ResetUnreleasedFollows(m, e);
    } else {
      ResetRefusedFollows(m, e);
    }
  }

  lemma HomeFollows(m: Machine, e: Event)
    requires e.kind == Home
    ensures Follows(m, e, OnHome(Noted(m, e)))
  {
    hide Follows, OnHome, Noted;
    if Recovers(m, e) {
      HomeRecoveredFollows(m, e);
    } else if GoesHome(m, e) {
      HomeGoneFollows(m, e);
    } else if m.active == Homing {
      HomeHeldFollows(m, e);
    } else {
      HomeRefusedFollows(m, e);
    }
  }

  lemma CompleteFollows(m: Machine, e: Event)
    requires e.kind == StateComplete && e.source == m.active
    ensures Follows(m, e, OnComplete(Noted(m, e)))
  {
    hide Follows, OnComplete, Noted;
    if Settles(m, e) {
      CompleteSettledFollows(m, e);
    } else if Executed(m, e) {
      CompleteExecutedFollows(m, e);
    } else if m.active in {Boot, Homing} {
      CompleteStartedFollows(m, e);
    } else if m.active in {Approach, ArcStabilizing, Welding} && CompletionTarget(m).Some? {
      CompleteMovedFollows(m, e);
    } else {
      CompleteRefusedFollows(m, e);
    }
  }

  lemma IdleFollows(m: Machine, e: Event)
    requires e.kind in {NoEvent, Teach, ValidatePreview, StartReplay, FaultAcknowledged}
    ensures Follows(m, e, (if m.active == Idle then OnIdle(Noted(m, e), e.kind) else Reject(Noted(m, e))))
  {
    hide Follows, OnIdle, Noted;
    if Starts(m, e) {
      IdleStartedFollows(m, e);
    } else if Redraws(m, e) {
      IdleRedrawnFollows(m, e);
    } else {
      IdleRefusedFollows(m, e);
    }
  }

  /** For every machine and every event the transition function does what the diagram says, and nothing else. */
  lemma DiagramHolds(m: Machine, e: Event)
    ensures Follows(m, e, Handle(m, e))
  {
    hide Follows, OnComplete, OnReset, OnHome, OnPauseResume, OnAborted, OnIdle, OnFaultDetected, OnFailure,
         OnProtectiveStop, OnProtectiveStopCleared, OnEstop, OnEstopReleased, OnValidationRejected, Reject, Noted;
    NotedActive(m, e);
    if ReportsState(e.kind) && e.source != m.active {
      MisdirectedFollows(m, e);
    } else {
      match e.kind
      case ProtectiveStopAsserted => ProtectiveStopFollows(m, e);
      case ProtectiveStopCleared => ProtectiveClearFollows(m, e);
      case EstopAsserted => EstopFollows(m, e);
      case EstopReleased => ReleaseFollows(m, e);
      case FaultDetected => FaultFollows(m, e);
      case StateFailed => FailureFollows(m, e);
      case PauseResume => PauseFollows(m, e);
      case Reset => ResetFollows(m, e);
      case Home => HomeFollows(m, e);
      case AbortedHome => AbortFollows(m, e);
      case AbortedReset => AbortFollows(m, e);
      case StateComplete => CompleteFollows(m, e);
      case ValidationRejected => VerdictFollows(m, e);
      case _ => IdleFollows(m, e);
    }
  }

  lemma NotedActive(m: Machine, e: Event)
    ensures Noted(m, e).active == m.active
  {}
}
