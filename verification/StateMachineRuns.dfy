/** What holds in every run of the supervisory state machine. */
module StateMachineRuns {
  import opened StateMachine
  import opened StateDiagram

  datatype Action = Deliver(event: Event) | Snapshot(safety: Safety) | Unify

  function Apply(m: Machine, a: Action): Machine {
    match a
    case Deliver(e) => Handle(m, e).0
    case Snapshot(safety) => m.(safety := safety)
    case Unify => m.(unified := true)
  }

  function RunFrom(m: Machine, actions: seq<Action>): Machine
    decreases |actions|
  {
    if actions == [] then m else Apply(RunFrom(m, actions[..|actions| - 1]), actions[|actions| - 1])
  }

  function Run(actions: seq<Action>): Machine { RunFrom(Initially, actions) }

  // ---- the state invariant ----

  predicate Executing(s: StateId) { Pausable(s) || s == Paused }

  ghost predicate Inv(m: Machine) {
    && (m.previewAccepted ==> m.validated)
    && (m.validated ==> m.recorded)
    && (m.mode != NoExecution <==> Executing(m.active))
    && (m.active == Paused ==> Pausable(m.resume))
    && (m.mode != NoExecution ==> m.validated)
    && (m.mode == Production ==> m.previewAccepted)
  }

  lemma ApplyKeeps(m: Machine, a: Action)
    requires Inv(m)
    ensures Inv(Apply(m, a))
  {
    hide Handle;
    if a.Deliver? {
      EveryStep(m, a.event);
    }
  }

  /**
   * In every run: the program flags imply each other, a mode is set exactly while executing, and a pause can
   * resume.
   */
  lemma {:induction false} InvInEveryRun(actions: seq<Action>)
    ensures Inv(Run(actions))
    decreases |actions|
  {
    hide Inv, Apply;
    if actions != [] {
      InvInEveryRun(actions[..|actions| - 1]);
      ApplyKeeps(Run(actions[..|actions| - 1]), actions[|actions| - 1]);
    } else {
      InitialInv();
    }
  }

  lemma InitialInv()
    ensures Inv(Initially)
  {}

  // ---- production is earned ----

  /** The machine right before action `k`. */
  function Before(actions: seq<Action>, k: nat): Machine
    requires k < |actions|
  {
    Run(actions[..k])
  }

  predicate CompletesIn(m: Machine, a: Action, s: StateId) {
    a.Deliver? && a.event.kind == StateComplete && a.event.source == s && m.active == s
  }

  predicate Teaches(m: Machine, a: Action) { CompletesIn(m, a, Teaching) }

  predicate Validates(m: Machine, a: Action) { CompletesIn(m, a, PathValidation) }

  predicate CompletesPreview(m: Machine, a: Action) {
    m.mode == Preview && (CompletesIn(m, a, PathExecution) || CompletesIn(m, a, Retracting))
  }

  predicate StartsPreview(m: Machine, a: Action) {
    a.Deliver? && a.event.kind == ValidatePreview && m.active == Idle && m.recorded && m.validated && CanMove(m)
  }

  /** A Teach request, or a reset that clears the program. */
  predicate Invalidates(m: Machine, a: Action) {
    a.Deliver? &&
    match a.event.kind
    case Teach => m.active == Idle
    case Reset => m.active == Idle || m.active == Teaching || m.active == PathValidation
        || (Stopped(m.active) && Ready(m.safety))
    case AbortedReset => a.event.source == m.active && (m.active == Approach || m.active == PathExecution)
    case _ => false
  }

  ghost predicate TaughtSince(actions: seq<Action>, i: nat) {
    && i < |actions| && Teaches(Before(actions, i), actions[i])
    && forall n :: i < n < |actions| ==> !Invalidates(Before(actions, n), actions[n])
  }

  ghost predicate ValidatedSince(actions: seq<Action>, i: nat, j: nat) {
    TaughtSince(actions, i) && i < j < |actions| && Validates(Before(actions, j), actions[j])
  }

  ghost predicate PreviewedSince(actions: seq<Action>, i: nat, j: nat, k: nat) {
    && ValidatedSince(actions, i, j) && j < k < |actions| && CompletesPreview(Before(actions, k), actions[k])
    && forall n :: k < n < |actions| ==> !StartsPreview(Before(actions, n), actions[n])
  }

  ghost predicate Earned(actions: seq<Action>) {
    var m := Run(actions);
    && (m.active == PathValidation ==> exists i :: TaughtSince(actions, i))
    && (m.validated ==> exists i, j :: ValidatedSince(actions, i, j))
    && (m.previewAccepted ==> exists i, j, k :: PreviewedSince(actions, i, j, k))
  }

  lemma PrefixBefore(actions: seq<Action>, k: nat)
    requires k < |actions| - 1
    ensures var p := actions[..|actions| - 1]; p[k] == actions[k] && Before(p, k) == Before(actions, k)
  {
    assert actions[..|actions| - 1][..k] == actions[..k];
  }

  lemma TaughtExtends(actions: seq<Action>, i: nat)
    requires actions != [] && TaughtSince(actions[..|actions| - 1], i)
    requires !Invalidates(Before(actions, |actions| - 1), actions[|actions| - 1])
    ensures TaughtSince(actions, i)
  {
    hide Invalidates, Teaches, Before;
    PrefixBefore(actions, i);
    forall n | i < n < |actions|
      ensures !Invalidates(Before(actions, n), actions[n])
    {
      if n < |actions| - 1 {
        PrefixBefore(actions, n);
      }
    }
  }

  lemma ValidatedExtends(actions: seq<Action>, i: nat, j: nat)
    requires actions != [] && ValidatedSince(actions[..|actions| - 1], i, j)
    requires !Invalidates(Before(actions, |actions| - 1), actions[|actions| - 1])
    ensures ValidatedSince(actions, i, j)
  {
    hide Invalidates, Validates, Before, TaughtSince;
    TaughtExtends(actions, i);
    PrefixBefore(actions, j);
  }

  lemma PreviewedExtends(actions: seq<Action>, i: nat, j: nat, k: nat)
    requires actions != [] && PreviewedSince(actions[..|actions| - 1], i, j, k)
    requires !Invalidates(Before(actions, |actions| - 1), actions[|actions| - 1])
    requires !StartsPreview(Before(actions, |actions| - 1), actions[|actions| - 1])
    ensures PreviewedSince(actions, i, j, k)
  {
    hide Invalidates, StartsPreview, CompletesPreview, Before, ValidatedSince;
    ValidatedExtends(actions, i, j);
    PrefixBefore(actions, k);
    forall n | k < n < |actions|
      ensures !StartsPreview(Before(actions, n), actions[n])
    {
      if n < |actions| - 1 {
        PrefixBefore(actions, n);
      }
    }
  }

  /** What one action must have been for a flag to be set after it. */
  ghost predicate FlagOrigins(m: Machine, a: Action, n: Machine) {
    && (n.active == PathValidation ==> (m.active == PathValidation && !Invalidates(m, a)) || Teaches(m, a))
    && (n.validated ==> (m.validated && !Invalidates(m, a)) || Validates(m, a))
    && (n.previewAccepted ==>
          (m.previewAccepted && !Invalidates(m, a) && !StartsPreview(m, a)) || CompletesPreview(m, a))
  }

  lemma ApplyOrigins(m: Machine, a: Action)
    requires Inv(m)
    ensures FlagOrigins(m, a, Apply(m, a))
  {
    hide Handle;
    if a.Deliver? {
      EveryStep(m, a.event);
    }
  }

  lemma MilestonesApart(m: Machine, a: Action)
    requires Inv(m)
    ensures Teaches(m, a) || Validates(m, a) || CompletesPreview(m, a) ==> !Invalidates(m, a) && !StartsPreview(m, a)
    ensures CompletesPreview(m, a) ==> m.validated
    ensures Validates(m, a) ==> m.active == PathValidation
  {}

  lemma {:induction false} EarnedInEveryRun(actions: seq<Action>)
    ensures Earned(actions)
    decreases |actions|
  {
    hide Apply, Inv, Invalidates, Teaches, Validates, CompletesPreview, StartsPreview, TaughtSince, ValidatedSince,
         PreviewedSince;
    if actions != [] {
      var last := |actions| - 1;
      var p := actions[..last];
      EarnedInEveryRun(p);
      InvInEveryRun(p);
      var m, a := Run(p), actions[last];
      assert Before(actions, last) == m;
      EarnedStep(actions);
    }
  }

  lemma EarnedStep(actions: seq<Action>)
    requires actions != [] && Earned(actions[..|actions| - 1]) && Inv(Run(actions[..|actions| - 1]))
    ensures Earned(actions)
  {
    hide Apply, Inv, Invalidates, Teaches, Validates, CompletesPreview, StartsPreview, TaughtSince, ValidatedSince,
         PreviewedSince;
    var last := |actions| - 1;
    var p := actions[..last];
    var m, a := Run(p), actions[last];
    ApplyOrigins(m, a);
    MilestonesApart(m, a);
    assert Before(actions, last) == m && Run(actions) == Apply(m, a);
    if Run(actions).active == PathValidation {
      if Teaches(m, a) {
        JustTaught(actions);
      } else {
        var i :| TaughtSince(p, i);
        TaughtExtends(actions, i);
      }
    }
    if Run(actions).validated {
      if Validates(m, a) {
        var i :| TaughtSince(p, i);
        JustValidated(actions, i);
      } else {
        var i, j :| ValidatedSince(p, i, j);
        ValidatedExtends(actions, i, j);
      }
    }
    if Run(actions).previewAccepted {
      if CompletesPreview(m, a) {
        var i, j :| ValidatedSince(p, i, j);
        JustPreviewed(actions, i, j);
      } else {
        var i, j, k :| PreviewedSince(p, i, j, k);
        PreviewedExtends(actions, i, j, k);
      }
    }
  }

  lemma JustTaught(actions: seq<Action>)
    requires actions != [] && Teaches(Before(actions, |actions| - 1), actions[|actions| - 1])
    ensures TaughtSince(actions, |actions| - 1)
  {}

  lemma JustValidated(actions: seq<Action>, i: nat)
    requires actions != [] && TaughtSince(actions[..|actions| - 1], i)
    requires var m, a := Before(actions, |actions| - 1), actions[|actions| - 1]; Validates(m, a) && !Invalidates(m, a)
    ensures ValidatedSince(actions, i, |actions| - 1)
  {
    TaughtExtends(actions, i);
  }

  lemma JustPreviewed(actions: seq<Action>, i: nat, j: nat)
    requires actions != [] && ValidatedSince(actions[..|actions| - 1], i, j)
    requires var m, a := Before(actions, |actions| - 1), actions[|actions| - 1];
             CompletesPreview(m, a) && !Invalidates(m, a)
    ensures PreviewedSince(actions, i, j, |actions| - 1)
  {
    ValidatedExtends(actions, i, j);
  }

  /**
   * Production runs only after the program was taught, then validated, then previewed to
   * completion, with no Teach, program clear or newer preview since.
   */
  lemma ProductionIsEarned(actions: seq<Action>)
    requires Run(actions).mode == Production
    ensures exists i, j, k :: PreviewedSince(actions, i, j, k)
  {
    hide Run;
    InvInEveryRun(actions);
    EarnedInEveryRun(actions);
  }

  // ---- one step ----

  predicate LeavesWellFounded(m: Machine, k: EventType, n: Machine) {
    Stopped(m.active) && !Stopped(n.active) ==>
      n.active == Homing && Ready(m.safety) && (k == Reset
          || (k == Home && m.active == EmergencyStop && m.unified && m.acknowledged))
  }

  predicate LatchesKept(m: Machine, k: EventType, n: Machine) {
    && (m.safety.globalFaultActive ==> n.safety.globalFaultActive)
    && (m.safety.estopActive && k != EstopReleased ==> n.safety.estopActive)
    && (!m.acknowledged && k != Reset ==> !n.acknowledged)
    && n.unified == m.unified
  }

  /** Where a newly active state was reached from. */
  predicate EntersWell(m: Machine, n: Machine) {
    && (n.active != m.active ==> n.record.previous == m.active)
    && (n.active == Approach && m.active != Approach ==>
          m.active == Idle || (m.active == Paused && m.resume == Approach))
    && (n.active == PathExecution && m.active != PathExecution ==>
          m.active == Approach || (m.active == Paused && m.resume == PathExecution))
    && (n.active == Paused ==> n.resume == if m.active == Paused then m.resume else m.active)
  }

  predicate Demotes(m: Machine, e: Event) {
    || e.kind == ProtectiveStopAsserted
    || (e.kind == FaultDetected && e.severity != Emergency)
    || (e.kind == StateFailed && e.source == EmergencyStop && e.severity != Emergency)
  }

  function AfterRejection(m: Machine, e: Event): Machine {
    var counted := Reject(Noted(m, e)).0;
    if e.kind == ProtectiveStopCleared then counted.(safety := m.safety.(protectiveStopActive := false))
    else if e.kind == EstopReleased then counted.(safety := m.safety.(estopActive := false))
    else if e.kind == Reset && m.active == EmergencyStop && Ready(m.safety) then CancelExecution(ClearProgram(counted))
    else counted
  }

  /** What an event `e` with outcome `n` does to the program flags and the execution mode. */
  ghost predicate ProgramFacts(m: Machine, e: Event, n: Machine) {
    Inv(m) ==> Inv(n) && FlagOrigins(m, Deliver(e), n)
  }

  /** What it does to the stops. */
  ghost predicate StopFacts(m: Machine, e: Event, n: Machine) {
    && LeavesWellFounded(m, e.kind, n) && LatchesKept(m, e.kind, n)
    && (m.active == EmergencyStop ==> (n.active == Fault <==> Demotes(m, e)))
  }

  /** What it leaves behind when it is rejected. */
  ghost predicate RejectionFacts(m: Machine, e: Event, out: (Machine, Result)) {
    out.1 == Rejected ==> out.0 == AfterRejection(m, e)
  }

  ghost predicate StepFacts(m: Machine, e: Event, out: (Machine, Result)) {
    ProgramFacts(m, e, out.0) && StopFacts(m, e, out.0) && RejectionFacts(m, e, out) && EntersWell(m, out.0)
  }

  lemma Moves(m: Machine, e: Event, n: Machine)
    requires StatesFollow(m, e, n)
    ensures Leads(m, e, Homing) ==> n.active == Homing
    ensures Leads(m, e, Idle) ==> n.active == Idle
    ensures Leads(m, e, Teaching) ==> n.active == Teaching
    ensures Leads(m, e, PathValidation) ==> n.active == PathValidation
    ensures Leads(m, e, Approach) ==> n.active == Approach
    ensures Leads(m, e, PathExecution) ==> n.active == PathExecution
    ensures Leads(m, e, ArcStabilizing) ==> n.active == ArcStabilizing
    ensures Leads(m, e, Welding) ==> n.active == Welding
    ensures Leads(m, e, Retracting) ==> n.active == Retracting
    ensures Leads(m, e, Paused) ==> n.active == Paused
    ensures Leads(m, e, Fault) ==> n.active == Fault
    ensures Leads(m, e, EmergencyStop) ==> n.active == EmergencyStop
  {
    hide Leads;
  }

  lemma MovesTo(m: Machine, e: Event, n: Machine, s: StateId)
    requires StatesFollow(m, e, n)
    ensures Leads(m, e, s) ==> n.active == s
  {
    hide Leads;
  }

  lemma FlagStep(m: Machine, e: Event, n: Machine)
    requires ProgramFollows(m, e, n) && Inv(m)
    ensures (n.previewAccepted ==> n.validated) && (n.validated ==> n.recorded)
  {
    hide Ready;
  }

  lemma ModeMoves(m: Machine, e: Event, n: Machine)
    requires Leads(m, e, n.active) && ExecutionFollows(m, e, n) && Inv(m)
    ensures n.mode != NoExecution <==> Executing(n.active)
  {
    hide Ready;
  }

  lemma ModeStays(m: Machine, e: Event, n: Machine)
    requires n.active == m.active && StatesFollow(m, e, n) && ExecutionFollows(m, e, n) && Inv(m)
    ensures n.mode != NoExecution <==> Executing(n.active)
  {
    hide Ready, Starts, Executed;
    RejectedProgress(m, e, n);
    MovesTo(m, e, n, Fault);
    MovesTo(m, e, n, EmergencyStop);
    MovesTo(m, e, n, Homing);
    MovesTo(m, e, n, Idle);
  }

  lemma ModeStep(m: Machine, e: Event, n: Machine)
    requires StatesFollow(m, e, n) && ExecutionFollows(m, e, n) && Inv(m)
    ensures n.mode != NoExecution <==> Executing(n.active)
  {
    hide ExecutionFollows, Leads;
    if n.active == m.active {
      ModeStays(m, e, n);
    } else {
      ModeMoves(m, e, n);
    }
  }

  /** Whatever leaves the machine paused leaves the execution alone. */
  lemma PausedStays(m: Machine, e: Event, n: Machine)
    requires StatesFollow(m, e, n) && m.active == Paused == n.active
    ensures !Interrupts(m, e) && !Fails(m, e) && !Resumes(m, e)
  {
    hide Ready;
    MovesTo(m, e, n, Fault);
    MovesTo(m, e, n, EmergencyStop);
    MovesTo(m, e, n, m.resume);
  }

  lemma PauseStep(m: Machine, e: Event, n: Machine)
    requires StatesFollow(m, e, n) && ExecutionFollows(m, e, n) && Inv(m)
    ensures n.active == Paused ==> Pausable(n.resume)
  {
    hide Ready;
    if m.active == Paused == n.active {
      PausedStays(m, e, n);
    }
  }

  lemma JobStep(m: Machine, e: Event, n: Machine)
    requires StatesFollow(m, e, n) && ProgramFollows(m, e, n) && ExecutionFollows(m, e, n) && Inv(m)
    ensures (n.mode != NoExecution ==> n.validated) && (n.mode == Production ==> n.previewAccepted)
  {
    hide Ready, StatesFollow;
  }

  lemma InvStep(m: Machine, e: Event, n: Machine)
    requires StatesFollow(m, e, n) && ProgramFollows(m, e, n) && ExecutionFollows(m, e, n) && Inv(m)
    ensures Inv(n)
  {
    hide StatesFollow, ProgramFollows, ExecutionFollows;
    FlagStep(m, e, n);
    ModeStep(m, e, n);
    PauseStep(m, e, n);
    JobStep(m, e, n);
  }

  lemma OriginStep(m: Machine, e: Event, n: Machine)
    requires StatesFollow(m, e, n) && ProgramFollows(m, e, n) && Inv(m)
    ensures FlagOrigins(m, Deliver(e), n)
  {
    hide Ready;
    Moves(m, e, n);
  }

  lemma LeavingStep(m: Machine, e: Event, n: Machine)
    requires StatesFollow(m, e, n)
    ensures LeavesWellFounded(m, e.kind, n)
  {
    hide Ready;
  }

  lemma LatchStep(m: Machine, e: Event, n: Machine)
    requires LatchesFollow(m, e, n)
    ensures LatchesKept(m, e.kind, n)
  {
    hide Ready;
  }

  lemma DemotionStep(m: Machine, e: Event, n: Machine)
    requires StatesFollow(m, e, n) && m.active == EmergencyStop
    ensures n.active == Fault <==> Demotes(m, e)
  {
    hide Ready;
    MovesTo(m, e, n, Fault);
  }

  lemma EntryStep(m: Machine, e: Event, n: Machine, result: Result)
    requires StatesFollow(m, e, n) && ExecutionFollows(m, e, n) && CountsFollow(m, e, n, result)
    ensures EntersWell(m, n)
  {
    hide Ready;
    if m.active == Paused == n.active {
      PausedStays(m, e, n);
    }
  }

  /** Nothing that leads anywhere or is accepted has happened. */
  predicate NothingHappens(m: Machine, e: Event) { NoProgress(m, e) && NoStop(m, e) }

  predicate NoProgress(m: Machine, e: Event) {
    && !Pauses(m, e) && !Resumes(m, e) && !Starts(m, e) && !Redraws(m, e) && !Settles(m, e) && !Executed(m, e)
    && !Completes(m, e, Teaching) && !Completes(m, e, PathValidation) && !GoesHome(m, e)
  }

  predicate NoStop(m: Machine, e: Event) {
    && !Recovers(m, e) && !Aborts(m, e, AbortedHome) && !Aborts(m, e, AbortedReset) && !Acknowledges(m, e)
    && !Diagnosed(m, e) && !Fails(m, e) && e.kind != ProtectiveStopAsserted && e.kind != EstopAsserted
    && e.kind != FaultDetected
    && (Clears(m, e) ==> e.kind == Reset && m.active == EmergencyStop && Ready(m.safety))
  }

  lemma RejectedProgress(m: Machine, e: Event, n: Machine)
    requires StatesFollow(m, e, n) && n.active == m.active
    ensures NoProgress(m, e)
  {
    hide Ready;
    Moves(m, e, n);
  }

  lemma RejectedStop(m: Machine, e: Event, n: Machine)
    requires StatesFollow(m, e, n) && n.active == m.active && !Accepted(m, e)
    ensures NoStop(m, e)
  {
    hide Ready;
    MovesTo(m, e, n, Fault);
    MovesTo(m, e, n, EmergencyStop);
    MovesTo(m, e, n, Homing);
    MovesTo(m, e, n, Idle);
  }

  lemma RejectedReset(m: Machine, e: Event, out: (Machine, Result))
    requires Follows(m, e, out) && out.1 == Rejected && NothingHappens(m, e) && e.kind == Reset
    ensures out.0 == AfterRejection(m, e)
  {
    hide Ready, Next32, Recovers, GoesHome, Aborts, Pauses, Resumes, Starts, Redraws, Settles, Executed, Completes,
         Acknowledges, Diagnosed, Fails, StatesFollow;
  }

  lemma RejectedClearance(m: Machine, e: Event, out: (Machine, Result))
    requires Follows(m, e, out) && out.1 == Rejected && NothingHappens(m, e)
    requires e.kind in {ProtectiveStopCleared, EstopReleased}
    ensures out.0 == AfterRejection(m, e)
  {
    hide Ready, Next32, Recovers, GoesHome, Aborts, Pauses, Resumes, Starts, Redraws, Settles, Executed, Completes,
         Acknowledges, Diagnosed, Fails, StatesFollow;
  }

  lemma RejectedOther(m: Machine, e: Event, out: (Machine, Result))
    requires Follows(m, e, out) && out.1 == Rejected && NothingHappens(m, e)
    requires e.kind !in {Reset, ProtectiveStopCleared, EstopReleased}
    ensures out.0 == AfterRejection(m, e)
  {
    hide Ready, Next32, Recovers, GoesHome, Aborts, Pauses, Resumes, Starts, Redraws, Settles, Executed, Completes,
         Acknowledges, Diagnosed, Fails, StatesFollow;
  }

  lemma RejectionStep(m: Machine, e: Event, out: (Machine, Result))
    requires Follows(m, e, out) && out.1 == Rejected
    ensures out.0 == AfterRejection(m, e)
  {
    hide NoProgress, NoStop, AfterRejection, StatesFollow, ProgramFollows, ExecutionFollows, LatchesFollow,
         DiagnosisFollows;
    RejectedProgress(m, e, out.0);
    RejectedStop(m, e, out.0);
    if e.kind == Reset {
      RejectedReset(m, e, out);
    } else if e.kind in {ProtectiveStopCleared, EstopReleased} {
      RejectedClearance(m, e, out);
    } else {
      RejectedOther(m, e, out);
    }
  }

  lemma EveryStep(m: Machine, e: Event)
    ensures StepFacts(m, e, Handle(m, e))
  {
    hide Handle, StatesFollow, ProgramFollows, ExecutionFollows, LatchesFollow, DiagnosisFollows, CountsFollow,
         Inv, FlagOrigins, LeavesWellFounded, LatchesKept, EntersWell, AfterRejection, Demotes;
    var out := Handle(m, e);
    DiagramHolds(m, e);
    assert ProgramFacts(m, e, out.0) by {
      if Inv(m) {
        InvStep(m, e, out.0);
        OriginStep(m, e, out.0);
      }
    }
    assert StopFacts(m, e, out.0) by {
      LeavingStep(m, e, out.0);
      LatchStep(m, e, out.0);
      if m.active == EmergencyStop {
        DemotionStep(m, e, out.0);
      }
    }
    EntryStep(m, e, out.0, out.1);
    if out.1 == Rejected {
      RejectionStep(m, e, out);
    }
  }

  // ---- leaving FAULT and EMERGENCY_STOP ----

  /** The only way out of FAULT and EMERGENCY_STOP is into HOMING, with every health condition met. */
  lemma LeavingStopped(m: Machine, a: Action)
    requires Stopped(m.active) && !Stopped(Apply(m, a).active)
    ensures Apply(m, a).active == Homing && Ready(m.safety) && a.Deliver?
    ensures a.event.kind == Reset || a.event.kind == Home
  {
    hide Handle;
    if a.Deliver? {
      EveryStep(m, a.event);
    }
  }

  predicate ClearsGlobalFault(a: Action) { a.Snapshot? && !a.safety.globalFaultActive }

  predicate ClearsEstop(a: Action) {
    (a.Snapshot? && !a.safety.estopActive) || (a.Deliver? && a.event.kind == EstopReleased)
  }

  lemma FaultDetectedLatches(m: Machine, e: Event)
    requires e.kind == FaultDetected
    ensures var n := Apply(m, Deliver(e)); Stopped(n.active) && n.safety.globalFaultActive
  {
    hide OnFaultDetected;
    FaultDetectedOutcome(Noted(m, e), e);
  }

  lemma FaultDetectedOutcome(m: Machine, e: Event)
    ensures var n := OnFaultDetected(m, e).0; Stopped(n.active) && n.safety.globalFaultActive
  {
    hide Moved, Faulted;
  }

  lemma EstopLatches(m: Machine, e: Event)
    requires e.kind == EstopAsserted
    ensures var n := Apply(m, Deliver(e));
            n.active == EmergencyStop && n.safety.estopActive && !n.acknowledged && !n.released
  {}

  lemma FaultStays(m: Machine, a: Action)
    requires Stopped(m.active) && m.safety.globalFaultActive && !ClearsGlobalFault(a)
    ensures Stopped(Apply(m, a).active) && Apply(m, a).safety.globalFaultActive
  {
    hide Handle;
    if a.Deliver? {
      EveryStep(m, a.event);
    }
  }

  lemma EstopStays(m: Machine, a: Action)
    requires Stopped(m.active) && m.safety.estopActive && !ClearsEstop(a)
    ensures Stopped(Apply(m, a).active) && Apply(m, a).safety.estopActive
  {
    hide Handle;
    if a.Deliver? {
      EveryStep(m, a.event);
    }
  }

  /** After a detected fault nothing leaves the pair before a snapshot clears the fault. */
  lemma {:induction false} FaultBlocks(m: Machine, actions: seq<Action>)
    requires Stopped(m.active) && m.safety.globalFaultActive
    requires forall k :: 0 <= k < |actions| ==> !ClearsGlobalFault(actions[k])
    ensures Stopped(RunFrom(m, actions).active) && RunFrom(m, actions).safety.globalFaultActive
    decreases |actions|
  {
    hide Apply;
    if actions != [] {
      FaultBlocks(m, actions[..|actions| - 1]);
      FaultStays(RunFrom(m, actions[..|actions| - 1]), actions[|actions| - 1]);
    }
  }

  /** After an asserted emergency stop nothing leaves the pair before a release or a snapshot clears it. */
  lemma {:induction false} EstopBlocks(m: Machine, actions: seq<Action>)
    requires Stopped(m.active) && m.safety.estopActive
    requires forall k :: 0 <= k < |actions| ==> !ClearsEstop(actions[k])
    ensures Stopped(RunFrom(m, actions).active) && RunFrom(m, actions).safety.estopActive
    decreases |actions|
  {
    hide Apply;
    if actions != [] {
      EstopBlocks(m, actions[..|actions| - 1]);
      EstopStays(RunFrom(m, actions[..|actions| - 1]), actions[|actions| - 1]);
    }
  }

  /** EMERGENCY_STOP gives way to FAULT exactly on a protective stop or on a failure below emergency severity. */
  lemma DemotedExactly(m: Machine, a: Action)
    requires m.active == EmergencyStop
    ensures Apply(m, a).active == Fault <==> a.Deliver? && Demotes(m, a.event)
  {
    hide Handle;
    if a.Deliver? {
      EveryStep(m, a.event);
    }
  }

  // ---- release, Reset, Home ----

  predicate IsReset(a: Action) { a.Deliver? && a.event.kind == Reset }

  ghost predicate ResetFree(actions: seq<Action>) {
    forall k :: 0 <= k < |actions| ==> !IsReset(actions[k])
  }

  lemma NoWayWithoutReset(m: Machine, a: Action)
    requires Stopped(m.active) && !m.acknowledged && m.unified && !IsReset(a)
    ensures Stopped(Apply(m, a).active) && !Apply(m, a).acknowledged && Apply(m, a).unified
  {
    hide Handle;
    if a.Deliver? {
      EveryStep(m, a.event);
    }
  }

  lemma {:induction false} StaysWithoutReset(m: Machine, actions: seq<Action>)
    requires Stopped(m.active) && !m.acknowledged && m.unified && ResetFree(actions)
    ensures Stopped(RunFrom(m, actions).active) && !RunFrom(m, actions).acknowledged && RunFrom(m, actions).unified
    decreases |actions|
  {
    hide Apply;
    if actions != [] {
      StaysWithoutReset(m, actions[..|actions| - 1]);
      NoWayWithoutReset(RunFrom(m, actions[..|actions| - 1]), actions[|actions| - 1]);
    }
  }

  ghost predicate RecoversWithoutReset(m: Machine) {
    exists actions :: ResetFree(actions) && !Stopped(RunFrom(m, actions).active)
  }

  const ReleaseEvent := Deliver(Event(EstopReleased, Boot, NoSeverity, 0))
  const HomeEvent := Deliver(Event(Home, Boot, NoSeverity, 0))

  lemma ReleaseRecovers(m: Machine)
    requires m.active == EmergencyStop && m.unified && m.acknowledged
    ensures var n := Apply(m, ReleaseEvent).(safety := Healthy);
            n.active == EmergencyStop && n.unified && n.acknowledged && n.released && Ready(n.safety)
  {
    hide Noticed;
  }

  lemma HomeRecovers(m: Machine)
    requires m.active == EmergencyStop && m.unified && m.acknowledged && m.released && Ready(m.safety)
    ensures Apply(m, HomeEvent).active == Homing
  {
    hide Noticed, Faulted, HomingSet, Moved, Ready;
    assert Handle(m, HomeEvent.event) == OnHome(Noted(m, HomeEvent.event));
  }

  lemma RunStep(m: Machine, actions: seq<Action>, a: Action)
    ensures RunFrom(m, actions + [a]) == Apply(RunFrom(m, actions), a)
  {
    assert (actions + [a])[..|actions|] == actions;
  }

  lemma LatchedRecovers(m: Machine)
    requires m.active == EmergencyStop && m.unified && m.acknowledged
    ensures RecoversWithoutReset(m)
  {
    hide Handle, RunFrom;
    var actions := [] + [ReleaseEvent] + [Snapshot(Healthy)] + [HomeEvent];
    RunStart(m);
    RunStep(m, [], ReleaseEvent);
    RunStep(m, [] + [ReleaseEvent], Snapshot(Healthy));
    RunStep(m, [] + [ReleaseEvent] + [Snapshot(Healthy)], HomeEvent);
    ReleaseRecovers(m);
    HomeRecovers(Apply(Apply(m, ReleaseEvent), Snapshot(Healthy)));
    assert ResetFree(actions) && !Stopped(RunFrom(m, actions).active);
  }

  lemma RunStart(m: Machine)
    ensures RunFrom(m, []) == m
  {}

  /** From EMERGENCY_STOP, motion can resume without another Reset exactly while the acknowledgement latch is set. */
  lemma ResetNeededExactly(m: Machine)
    requires m.active == EmergencyStop && m.unified
    ensures RecoversWithoutReset(m) <==> m.acknowledged
  {
    if m.acknowledged {
      LatchedRecovers(m);
    } else {
      forall actions | ResetFree(actions)
        ensures Stopped(RunFrom(m, actions).active)
      {
        StaysWithoutReset(m, actions);
      }
    }
  }

  /**
   * Which emergencies demand a fresh Reset: an asserted emergency stop always does; an
   * emergency reported as a fault or failure keeps an earlier acknowledgement, so it does
   * only when there was none.
   */
  lemma EmergencyNeedsReset(m: Machine, e: Event)
    requires m.unified && Handle(m, e).0.active == EmergencyStop
    requires e.kind == EstopAsserted || e.kind == FaultDetected || e.kind == StateFailed
    ensures RecoversWithoutReset(Handle(m, e).0) <==> e.kind != EstopAsserted && m.acknowledged
  {
    hide RecoversWithoutReset;
    ResetNeededExactly(Handle(m, e).0);
  }

  const StopEvent := Deliver(Event(EstopAsserted, Boot, NoSeverity, 0))
  const ResetEvent := Deliver(Event(Reset, Boot, NoSeverity, 0))
  const FaultEvent := Deliver(Event(FaultDetected, Boot, Emergency, 7))

  lemma StopEffect(m: Machine)
    requires m.unified
    ensures var n := Apply(m, StopEvent); n.active == EmergencyStop && n.unified
  {
    hide Noticed, Faulted, HomingSet, Moved;
    assert Handle(m, StopEvent.event) == OnEstop(Noted(m, StopEvent.event));
  }

  lemma ReleaseEffect(m: Machine)
    requires m.active == EmergencyStop && m.unified
    ensures var n := Apply(m, ReleaseEvent).(safety := Healthy);
            n.active == EmergencyStop && n.unified && n.released && Ready(n.safety)
  {
    hide Noticed;
  }

  lemma ResetEffect(m: Machine)
    requires m.active == EmergencyStop && m.unified && m.released && Ready(m.safety)
    ensures var n := Apply(m, ResetEvent); n.active == EmergencyStop && n.unified && n.acknowledged
  {
    hide Noticed, HomingSet, Ready, Faulted, Moved, Refused;
    assert Handle(m, ResetEvent.event) == OnReset(Noted(m, ResetEvent.event));
  }

  lemma FaultEffect(m: Machine)
    requires m.active == EmergencyStop && m.unified && m.acknowledged
    ensures var n := Apply(m, FaultEvent); n.active == EmergencyStop && n.unified && n.acknowledged
  {
    hide Noticed, Faulted, Moved;
    assert Handle(m, FaultEvent.event) == OnFaultDetected(Noted(m, FaultEvent.event), FaultEvent.event);
  }

  /** The machine after an acknowledged emergency stop that is followed by an emergency fault. */
  lemma AcknowledgedThenFault() returns (early: seq<Action>)
    ensures early != [] && early[|early| - 1] == FaultEvent
    ensures var m := Run(early); m.active == EmergencyStop && m.unified && m.acknowledged
  {
    hide Handle, RunFrom;
    var a1 := [] + [Unify];
    var a2 := a1 + [StopEvent];
    var a3 := a2 + [ReleaseEvent];
    var a4 := a3 + [Snapshot(Healthy)];
    var a5 := a4 + [ResetEvent];
    early := a5 + [FaultEvent];
    RunStart(Initially);
    RunStep(Initially, [], Unify);
    RunStep(Initially, a1, StopEvent);
    RunStep(Initially, a2, ReleaseEvent);
    RunStep(Initially, a3, Snapshot(Healthy));
    RunStep(Initially, a4, ResetEvent);
    RunStep(Initially, a5, FaultEvent);
    StopEffect(Run(a1));
    ReleaseEffect(Run(a2));
    ResetEffect(Run(a4));
    FaultEffect(Run(a5));
  }

  /** A run in which an acknowledged emergency is followed by a new one that is left without a Reset. */
  lemma StaleAcknowledgement()
    ensures exists early, late :: early != [] && early[|early| - 1] == FaultEvent && Run(early).active == EmergencyStop
              && ResetFree(late) && !Stopped(Run(early + late).active)
  {
    hide RunFrom, Apply;
    var early := AcknowledgedThenFault();
    LatchedRecovers(Run(early));
    var late :| ResetFree(late) && !Stopped(RunFrom(Run(early), late).active);
    RunsCompose(early, late);
    assert Run(early + late) == RunFrom(Run(early), late);
  }

  lemma {:induction false} RunsCompose(first: seq<Action>, second: seq<Action>)
    ensures Run(first + second) == RunFrom(Run(first), second)
    decreases |second|
  {
    hide Apply;
    if second == [] {
      assert first + second == first;
    } else {
      var whole, last := first + second, |second| - 1;
      RunsCompose(first, second[..last]);
      assert whole[..|whole| - 1] == first + second[..last];
    }
  }

  // ---- rejected events ----

  /** Everything a rejected event changes: usually only the counters, but not always. */
  lemma RejectedEventEffects(m: Machine, e: Event)
    requires Handle(m, e).1 == Rejected
    ensures Handle(m, e).0 == AfterRejection(m, e)
  {
    hide Handle;
    EveryStep(m, e);
  }

  // ---- what a demotion costs ----

  predicate IsRelease(a: Action) { a.Deliver? && a.event.kind == EstopReleased }

  predicate IsHome(a: Action) { a.Deliver? && a.event.kind == Home }

  predicate Demoting(m: Machine, a: Action) { a.Deliver? && Demotes(m, a.event) }

  /** What an event `e` with outcome `n` does to the latches of EMERGENCY_STOP, and when it leaves it. */
  ghost predicate LatchFacts(m: Machine, e: Event, n: Machine) {
    && n.unified
    && (n.released && !m.released ==> e.kind == EstopReleased)
    && (n.acknowledged && !m.acknowledged ==> e.kind == Reset && m.released)
    && (!Stopped(n.active) ==> e.kind == Home && m.acknowledged)
    && (n.active == Fault ==> Demotes(m, e))
  }

  ghost predicate InEmergency(m: Machine) { m.active == EmergencyStop && m.unified }

  lemma LatchSafety(m: Machine, e: Event)
    requires InEmergency(m)
    ensures e.kind == ProtectiveStopAsserted ==> LatchFacts(m, e, OnProtectiveStop(Noted(m, e)).0)
    ensures e.kind == ProtectiveStopCleared ==> LatchFacts(m, e, OnProtectiveStopCleared(Noted(m, e)).0)
    ensures e.kind == EstopAsserted ==> LatchFacts(m, e, OnEstop(Noted(m, e)).0)
    ensures e.kind == EstopReleased ==> LatchFacts(m, e, OnEstopReleased(Noted(m, e)).0)
  {
    hide Noticed, Moved, Refused, Faulted, HomingSet, Ready;
  }

  lemma LatchFault(m: Machine, e: Event)
    requires InEmergency(m)
    ensures e.kind == FaultDetected ==> LatchFacts(m, e, OnFaultDetected(Noted(m, e), e).0)
    ensures e.kind == StateFailed && e.source == m.active ==> LatchFacts(m, e, OnFailure(Noted(m, e), e).0)
  {
    hide Noticed, Moved, Refused, Faulted, HomingSet, Ready;
  }

  lemma LatchOperator(m: Machine, e: Event)
    requires InEmergency(m)
    ensures e.kind == Reset ==> LatchFacts(m, e, OnReset(Noted(m, e)).0)
    ensures e.kind == Home ==> LatchFacts(m, e, OnHome(Noted(m, e)).0)
    ensures e.kind == PauseResume ==> LatchFacts(m, e, OnPauseResume(Noted(m, e)).0)
  {
    hide Noticed, Moved, Refused, Faulted, HomingSet, Ready;
  }

  lemma LatchRejected(m: Machine, e: Event)
    requires InEmergency(m)
    ensures LatchFacts(m, e, Reject(Noted(m, e)).0)
    ensures OnComplete(Noted(m, e)) == Reject(Noted(m, e)) && OnValidationRejected(Noted(m, e)) == Reject(Noted(m, e))
    ensures OnAborted(Noted(m, e), e.kind) == Reject(Noted(m, e))
  {
    hide Noticed, Refused;
  }

  lemma LatchEvent(m: Machine, e: Event)
    requires InEmergency(m)
    ensures LatchFacts(m, e, Handle(m, e).0)
  {
    hide LatchFacts, InEmergency, OnProtectiveStop, OnProtectiveStopCleared, OnEstop, OnEstopReleased, OnFaultDetected,
         OnFailure, OnReset, OnHome, OnPauseResume, OnComplete, OnValidationRejected, OnAborted, OnIdle, Reject, Noted;
    LatchSafety(m, e);
    LatchFault(m, e);
    LatchOperator(m, e);
    LatchRejected(m, e);
    NotedActive(m, e);
  }

  lemma NotedActive(m: Machine, e: Event)
    requires InEmergency(m)
    ensures Noted(m, e).active == m.active == EmergencyStop
  {}

  /** Which actions set the two latches of EMERGENCY_STOP, and which one leaves it. */
  lemma LatchOrigins(m: Machine, a: Action)
    requires m.active == EmergencyStop && m.unified
    ensures var n := Apply(m, a);
            && n.unified
            && (n.released && !m.released ==> IsRelease(a))
            && (n.acknowledged && !m.acknowledged ==> IsReset(a) && m.released)
            && (!Stopped(n.active) ==> IsHome(a) && m.acknowledged)
            && (n.active == Fault ==> Demoting(m, a))
  {
    hide Handle;
    if a.Deliver? {
      LatchEvent(m, a.event);
    }
  }

  /** A release, then a Reset, both before position `n`. */
  ghost predicate Acknowledged(actions: seq<Action>, n: nat) {
    exists i, j :: 0 <= i < j < n <= |actions| && IsRelease(actions[i]) && IsReset(actions[j])
  }

  ghost predicate Released(actions: seq<Action>, n: nat) {
    exists i :: 0 <= i < n <= |actions| && IsRelease(actions[i])
  }

  ghost predicate StaysInEmergency(m: Machine, actions: seq<Action>, n: nat) {
    n <= |actions| && forall k :: 0 <= k <= n ==> RunFrom(m, actions[..k]).active == EmergencyStop
  }

  lemma RunPrefix(m: Machine, actions: seq<Action>, n: nat)
    requires n < |actions|
    ensures RunFrom(m, actions[..n + 1]) == Apply(RunFrom(m, actions[..n]), actions[n])
  {
    assert actions[..n + 1] == actions[..n] + [actions[n]];
    RunStep(m, actions[..n], actions[n]);
  }

  lemma {:induction false} LatchesEarned(m: Machine, actions: seq<Action>, n: nat)
    requires m.unified && !m.released && !m.acknowledged && StaysInEmergency(m, actions, n)
    ensures var x := RunFrom(m, actions[..n]);
            && x.active == EmergencyStop && x.unified
            && (x.released ==> Released(actions, n)) && (x.acknowledged ==> Acknowledged(actions, n))
    decreases n
  {
    hide Apply, RunFrom;
    if n == 0 {
      assert actions[..0] == [];
      RunStart(m);
    } else {
      assert StaysInEmergency(m, actions, n - 1);
      LatchesEarned(m, actions, n - 1);
      RunPrefix(m, actions, n - 1);
      LatchOrigins(RunFrom(m, actions[..n - 1]), actions[n - 1]);
      LatchesGrow(actions, n - 1);
    }
  }

  lemma LatchesGrow(actions: seq<Action>, n: nat)
    requires n < |actions|
    ensures Released(actions, n) ==> Released(actions, n + 1)
    ensures Acknowledged(actions, n) ==> Acknowledged(actions, n + 1)
    ensures IsRelease(actions[n]) ==> Released(actions, n + 1)
    ensures Released(actions, n) && IsReset(actions[n]) ==> Acknowledged(actions, n + 1)
  {}

  /**
   * An asserted emergency stop that is left without ever giving way to FAULT was left by a Home, after
   * a Reset, after a release.
   */
  lemma LeftInOrder(m: Machine, actions: seq<Action>)
    requires m.active == EmergencyStop && m.unified && !m.released && !m.acknowledged && actions != []
    requires StaysInEmergency(m, actions, |actions| - 1) && !Stopped(RunFrom(m, actions).active)
    ensures IsHome(actions[|actions| - 1]) && Acknowledged(actions, |actions| - 1)
  {
    hide Apply, RunFrom;
    var n := |actions| - 1;
    LatchesEarned(m, actions, n);
    RunPrefix(m, actions, n);
    assert actions[..n + 1] == actions;
    LatchOrigins(RunFrom(m, actions[..n]), actions[n]);
  }

  /** Neither a Home nor anything that makes EMERGENCY_STOP give way to FAULT. */
  ghost predicate Plain(m: Machine, actions: seq<Action>) {
    forall k :: 0 <= k < |actions| ==> !IsHome(actions[k]) && !Demoting(m, actions[k])
  }

  lemma {:induction false} PlainStays(m: Machine, actions: seq<Action>)
    requires m.active == EmergencyStop && m.unified && Plain(m, actions)
    ensures RunFrom(m, actions).active == EmergencyStop && RunFrom(m, actions).unified
    decreases |actions|
  {
    hide Apply;
    if actions != [] {
      var n := |actions| - 1;
      PlainStays(m, actions[..n]);
      LatchOrigins(RunFrom(m, actions[..n]), actions[n]);
      assert !IsHome(actions[n]) && !Demoting(m, actions[n]);
    }
  }

  ghost predicate LeavesPlainly(m: Machine) {
    exists actions :: Plain(m, actions) && !Stopped(RunFrom(m, actions).active)
  }

  lemma FaultLeaves(m: Machine)
    requires m.active == Fault
    ensures LeavesPlainly(m) && !Demoting(m, Snapshot(Healthy)) && !Demoting(m, ResetEvent)
  {
    var actions := [] + [Snapshot(Healthy)] + [ResetEvent];
    RunStart(m);
    RunStep(m, [], Snapshot(Healthy));
    RunStep(m, [] + [Snapshot(Healthy)], ResetEvent);
    ResetFromFault(m.(safety := Healthy));
    assert Plain(m, actions) && !Stopped(RunFrom(m, actions).active);
  }

  lemma ResetFromFault(m: Machine)
    requires m.active == Fault && Ready(m.safety)
    ensures var n := Apply(m, ResetEvent);
            n.active == Homing && n.released == m.released && n.acknowledged == m.acknowledged
  {
    hide Handle, Ready, ProgramFollows, ExecutionFollows, DiagnosisFollows, CountsFollow;
    DiagramHolds(m, ResetEvent.event);
    MovesTo(m, ResetEvent.event, Apply(m, ResetEvent), Homing);
  }

  /**
   * From a stop the machine can be brought to HOMING without a Home, and without any further demotion,
   * exactly when it is in FAULT: a demotion is what an emergency stop needs to escape the release, the
   * Reset and the Home.
   */
  lemma HomeNeededExactly(m: Machine)
    requires Stopped(m.active) && m.unified
    ensures LeavesPlainly(m) <==> m.active == Fault
  {
    if m.active == Fault {
      FaultLeaves(m);
    } else {
      forall actions | Plain(m, actions)
        ensures Stopped(RunFrom(m, actions).active)
      {
        PlainStays(m, actions);
      }
    }
  }

  const ProtectiveEvent := Deliver(Event(ProtectiveStopAsserted, Boot, NoSeverity, 0))

  lemma ProtectiveEffect(m: Machine)
    ensures var n := Apply(m, ProtectiveEvent);
            n.active == Fault && n.released == m.released && n.acknowledged == m.acknowledged
  {
    hide Handle, Ready, ProgramFollows, ExecutionFollows, DiagnosisFollows, CountsFollow;
    DiagramHolds(m, ProtectiveEvent.event);
    MovesTo(m, ProtectiveEvent.event, Apply(m, ProtectiveEvent), Fault);
  }

  /**
   * From every state: an emergency stop that is never released nor acknowledged ends in HOMING without
   * a Home, by way of a protective stop.
   */
  lemma DemotionBypasses(m: Machine)
    requires m.unified
    ensures var n := RunFrom(m, [StopEvent, ProtectiveEvent, Snapshot(Healthy), ResetEvent]);
            n.active == Homing && !n.released && !n.acknowledged
  {
    hide Apply, RunFrom;
    var actions := [] + [StopEvent] + [ProtectiveEvent] + [Snapshot(Healthy)] + [ResetEvent];
    RunStart(m);
    RunStep(m, [], StopEvent);
    RunStep(m, [] + [StopEvent], ProtectiveEvent);
    RunStep(m, [] + [StopEvent] + [ProtectiveEvent], Snapshot(Healthy));
    RunStep(m, [] + [StopEvent] + [ProtectiveEvent] + [Snapshot(Healthy)], ResetEvent);
    EstopLatches(m, StopEvent.event);
    var x := Apply(m, StopEvent);
    ProtectiveEffect(x);
    var y := Apply(x, ProtectiveEvent);
    SnapshotEffect(y);
    ResetFromFault(Apply(y, Snapshot(Healthy)));
    assert actions == [StopEvent, ProtectiveEvent, Snapshot(Healthy), ResetEvent];
  }

  lemma SnapshotEffect(m: Machine)
    ensures Apply(m, Snapshot(Healthy)) == m.(safety := Healthy) && Ready(Healthy)
  {}

  // ---- pause and resume ----

  /** The same execution of the same program. */
  predicate SameJob(m: Machine, n: Machine) {
    && n.mode == m.mode && n.recorded == m.recorded && n.validated == m.validated
    && n.previewAccepted == m.previewAccepted
  }

  /** The machine has been paused ever since action `k`. */
  ghost predicate PausedSince(actions: seq<Action>, k: nat) {
    && k < |actions| && Before(actions, k).active != Paused
    && forall j :: k < j <= |actions| ==> Run(actions[..j]).active == Paused
  }

  lemma PauseTaken(m: Machine, a: Action)
    requires m.active != Paused && Apply(m, a).active == Paused
    ensures a.Deliver? && a.event.kind == PauseResume && Pausable(m.active)
    ensures Apply(m, a).resume == m.active && SameJob(m, Apply(m, a))
  {
    hide Handle, Ready, LatchesFollow, DiagnosisFollows, CountsFollow;
    if a.Deliver? {
      DiagramHolds(m, a.event);
    }
  }

  lemma PauseKept(m: Machine, a: Action)
    requires m.active == Paused == Apply(m, a).active
    ensures Apply(m, a).resume == m.resume && SameJob(m, Apply(m, a))
  {
    hide Handle, Ready, LatchesFollow, DiagnosisFollows, CountsFollow;
    if a.Deliver? {
      DiagramHolds(m, a.event);
      PausedStays(m, a.event, Apply(m, a));
    }
  }

  /** Every pause began with some action. */
  lemma {:induction false} PausedFrom(actions: seq<Action>) returns (k: nat)
    requires Run(actions).active == Paused
    ensures PausedSince(actions, k)
    decreases |actions|
  {
    hide Apply;
    assert actions != [];
    var last := |actions| - 1;
    var early := actions[..last];
    assert actions[..|actions|] == actions;
    if Run(early).active != Paused {
      k := last;
    } else {
      k := PausedFrom(early);
      forall j | k < j <= |actions|
        ensures Run(actions[..j]).active == Paused
      {
        if j <= last {
          assert early[..j] == actions[..j];
        }
      }
      assert early[..k] == actions[..k];
    }
  }

  lemma {:induction false} PauseRemembers(actions: seq<Action>, k: nat, n: nat)
    requires PausedSince(actions, k) && k < n <= |actions|
    ensures var x, s := Before(actions, k), Run(actions[..n]);
            s.resume == x.active && Pausable(x.active) && SameJob(x, s) && actions[k].Deliver?
            && actions[k].event.kind == PauseResume
    decreases n
  {
    hide Apply, RunFrom, SameJob, Pausable;
    RunPrefix(Initially, actions, n - 1);
    if n == k + 1 {
      PauseTaken(Before(actions, k), actions[k]);
    } else {
      PauseRemembers(actions, k, n - 1);
      PauseKept(Run(actions[..n - 1]), actions[n - 1]);
      JobsCompose(Before(actions, k), Run(actions[..n - 1]), Run(actions[..n]));
    }
  }

  lemma JobsCompose(x: Machine, y: Machine, z: Machine)
    requires SameJob(x, y) && SameJob(y, z)
    ensures SameJob(x, z)
  {}

  lemma ResumeStep(s: Machine, e: Event)
    requires s.active == Paused && Pausable(s.resume) && e.kind == PauseResume
    ensures var n := Handle(s, e).0; SameJob(s, n) && n.active == (if CanMove(s) then s.resume else Paused)
  {
    hide Handle, Ready, LatchesFollow, DiagnosisFollows, CountsFollow;
    DiagramHolds(s, e);
    MovesTo(s, e, Handle(s, e).0, s.resume);
  }

  /**
   * In every run, however long the pause and whatever arrived meanwhile: a resume with motion permitted
   * returns to the very state in which the pause was taken, with mode and program as they were then; with
   * motion not permitted the machine stays paused.
   */
  lemma ResumeReturns(actions: seq<Action>, e: Event) returns (k: nat)
    requires Run(actions).active == Paused && e.kind == PauseResume
    ensures PausedSince(actions, k) && actions[k].Deliver? && actions[k].event.kind == PauseResume
    ensures var x, s := Before(actions, k), Run(actions); var n := Handle(s, e).0;
            Pausable(x.active) && SameJob(x, n) && n.active == (if CanMove(s) then x.active else Paused)
  {
    hide Handle, Run, PausedSince, SameJob, Pausable, CanMove;
    k := PausedFrom(actions);
    PausedLast(actions, k);
    PauseRemembers(actions, k, |actions|);
    var s := Run(actions);
    assert actions[..|actions|] == actions;
    ResumeStep(s, e);
    JobsCompose(Before(actions, k), s, Handle(s, e).0);
  }

  lemma PausedLast(actions: seq<Action>, k: nat)
    requires PausedSince(actions, k)
    ensures k < |actions|
  {}
}
