# Welding-robot controller: verified model

This project models the control core and the supervisory software of a six-axis welding robot in
Dafny and proves what the code promises about it. Three groups of code are covered.

**Trajectories.** The seven-segment jerk-limited profile (`SCurveTiming`, `SCurveOptimal`,
`SCurveMotion`, `SCurveRates`, `SCurveProfile`), arc-length resampling of polylines (`ArcLength`,
`ArcLengthBound`, `ArcLengthExact`), the incremental straight-line pipeline built on both
(`LineStream`, `LineReports`), circular paths (`CircularPath`, `CircularWaypoints`,
`CircularSpacing`, `CircularOrder`, `CircularSnap`, `CircularOrientation`, `ToolFrame`) and
joint-space motion (`JointTrajectory`, `JointMotion`). The chosen profile is the fastest one the
limits allow. The main result here is end to end: whatever is requested, two consecutive TCP targets
are never further apart than speed times period, with an explicit slack for the 1e-12 lookup
tolerance and the 1e-15 gap guard (`LineStream.TargetStep`).

**Numerical algebra.** Gaussian elimination with partial pivoting (`LinearSolve`), the in-place
Jacobi iteration for the smallest singular value (`Singularity`), damped least-squares inverse
kinematics on top of both (`Adls`), and quaternions (`Quaternions`, `SlerpPath`). A solver result is
the one and only solution; the singular value is bounded from both sides; every recorded kinematics
step is optimal for its damped cost and descends by an exact amount.

**Supervision and concurrency.** The ring buffer (`TrajectoryBuffer`), the planner / drive-cycle
protocol over it (`StreamingControl`, `StreamingRuns`, `StreamingStart`, `StreamingProgress`), limit
validation while streaming and over a batch (`LimitValidation`, `LimitMeaning`,
`StreamingValidation`), the 13-state supervisor (`StateMachine`, `StateDiagram`,
`StateMachineRuns`), the two tasks around it (`SupervisorTask`, `SupervisorRuns`, `HmiOrder`,
`HmiButtons`, `ModuleOutcomes`) and the sampled-workspace index (`WorkspaceMonitor`,
`WorkspaceHeight`). The protocol, the state machine and the two tasks are proved over every run,
with every interleaving of their steps.

## How it is modelled

- `double` is an exact `real`. The C library functions `sqrt`, `pow(., 2/3)`, `sin`, `cos`,
  `atan2` and `acos` are parameters known by algebraic laws (`RealMath.MathLib`); each theorem
  names the laws it uses. Tolerances keep the constants of the code.
- Objects that the code updates in place are classes with the same fields; arrays that are filled,
  swapped or rotated in place stay arrays. Each method is proved against a function or predicate,
  and what the code promises is proved about those.
- Forward kinematics, the Jacobian and the solver behind a stream are arbitrary functions.
- A drive cycle is one atomic step and may interrupt the planner anywhere outside its critical
  sections; a run is any sequence of planner steps, cycles and interrupts. Queues are bounded
  sequences. Outcomes of state modules are arbitrary.

## Findings

- `state_machine.c:372-411`, `473-513`: an emergency reported as a fault or failure does not drop
  an earlier acknowledgement, so the machine may go to HOMING with no Reset after that emergency.
  `EmergencyNeedsReset` says exactly when; `StaleAcknowledgement` is a run.
- `state_machine.c:631-646`: a Reset that is rejected in EMERGENCY_STOP has already cleared the
  program. `RejectedEventEffects` lists everything a rejected event changes.
- `state_machine.c:271-296`, `372-411`, `473-513`: a protective stop, or a fault or failure below emergency
  severity, moves EMERGENCY_STOP to FAULT, from which Reset alone reaches HOMING. The emergency stop
  then needs neither its release nor its Reset and Home (`DemotionBypasses`); without such a demotion
  it needs all three, in that order (`LeftInOrder`, `HomeNeededExactly`).
- `old_simulator_main.c:1159-1205`: a STOP that arrives after the planner read its cancellation
  flag on a plan that failed validation ends in WAITING instead of HOLD although nothing more is
  committed. `HoldKeptExactly` gives the exact window, `HoldLostInSomeRun` a run.
- `old_simulator_main.c:1196-1260`: neither producer error, a second initialisation that fails or a
  stream that ends early, can occur after a successful validation (`ProducerNeverFails`). The request
  queue is never full when a plan is accepted, nor the ring when a sample is pushed
  (`NothingOverflows`), and no finished stream is still to be announced (`RunKeeps`).
- `old_simulator_main.c:854-1039` and `single_segment_line.c:1222-1340`: the streaming and the
  batch velocity verdicts differ exactly when some limit is negative and no velocity could be
  formed (`VerdictsAgreeExactly`, with an input in `VerdictsDiffer`).
- `single_segment_line.c:141-265` and `old_simulator_main.c:934-1033`: central differences bound pairs
  of steps, not single ones. `TooFastAccepted` is a motion that both checks accept although one step is
  three times the velocity limit; `StepAtMost` says how far a step can go.
- `supervisor_task.c:379-387`: a message that overwrites the request record of a moving module drops
  a pending HOME or RESET (`RequestAfter` says which messages do, `RequestLost` gives a run).
- `circular_path.c:540-643`: in every accepted fit the middle point comes before the end point,
  counter-clockwise (`MiddleComesFirst`). So an accepted sweep is counter-clockwise unless the middle
  point is within 1e-12 of the start, and the clockwise branch serves only that case. With a middle
  point clear of the start, the arc is refused exactly when the end is that close to the middle, or
  that close behind the start with the middle not there too (`FittedSweep`).
  With the middle that close in front of the start and the end that close behind it, the sweep becomes
  a full turn and the last waypoint is not the end point (`FittedEnd`; `LastIsNotEnd` gives three
  points). That takes a circle wider than a thousand kilometres; on every smaller one the last waypoint
  is the end point (`SnappedIsWide`, `ArcEndsAtEnd`).
- `circular_path.c:342-356`: the radius check is never reached with a failing radius
  (`RadiusLarge`).
- `single_segment_line_stream.c`: after the argument and length checks time scaling cannot fail,
  so its error status is never produced (`SingleLineStream.Init`).

## Model

The methods of the supervisor, of the two tasks and of the streaming controller, which tie the
in-place code to the functions that the results speak about, come last.

| member | source | states |
|---|---|---|
| `SCurveTiming.TimingFeasible` | ControlCore/Trajectory/s_curve_profile.c:57-214 | Whatever positive velocity, acceleration and jerk limits are requested, the branch that is chosen has non-negative phase durations, covers distance exactly 1, reaches its peak velocity exactly, and keeps peak velocity and peak acceleration within the limits. |
| `SCurveOptimal.SelectedIsFastest` | ControlCore/Trajectory/s_curve_profile.c:57-214 | Of all profiles that cover the distance within the limits none takes less time than the chosen one, and none has a higher peak velocity or peak acceleration. |
| `SCurveOptimal.SelectedIsOnly` | ControlCore/Trajectory/s_curve_profile.c:57-214 | The chosen profile is the only one within the limits whose peaks no other exceeds. |
| `SCurveMotion.PhaseEnds` | ControlCore/Trajectory/s_curve_profile.c:216-335 | Integrating the seven jerk phases ends the acceleration phase and the cruise at the peak velocity with zero acceleration, and the whole motion at exactly position 1, velocity 0, acceleration 0. |
| `SCurveMotion.Accelerations` | ControlCore/Trajectory/s_curve_profile.c:227-335 | Every phase starts with zero or plus or minus the peak acceleration, so the integrated acceleration never leaves the peak. |
| `SCurveMotion.SegmentInLimits` | ControlCore/Trajectory/s_curve_profile.c:532-573 | At any instant of any phase the velocity is between zero and the peak, and the acceleration between minus and plus the peak. |
| `SCurveMotion.Progress` | ControlCore/Trajectory/s_curve_profile.c:511-573 | Between instants of any two phases position never falls and rises by at most peak velocity times elapsed time; velocity changes by at most peak acceleration times elapsed time, acceleration by at most jerk times elapsed time: the profile is continuous across all boundaries. |
| `SCurveMotion.ExactProgress` | ControlCore/Trajectory/s_curve_profile.c:480-604 | The same between any two times, with the phase looked up without tolerance. |
| `SCurveRates.ExactDrift` | ControlCore/Trajectory/s_curve_profile.c:480-573 | Between any two times position, velocity and acceleration follow from those at the earlier time, up to what the jerk limit can do in between: the reported velocity and acceleration are the rates of the position. |
| `SCurveMotion.ExactEnds` | ControlCore/Trajectory/s_curve_profile.c:511-573 | The integrated profile starts at rest at 0 and is at rest at exactly 1 at the total time. |
| `SCurveMotion.ExactInLimits` | ControlCore/Trajectory/s_curve_profile.c:480-604 | For every time position stays in [0, 1] and velocity and acceleration stay within the peaks. |
| `SCurveMotion.LookupClose` | ControlCore/Trajectory/s_curve_profile.c:511-530 | Whatever the lookup tolerance, the phase it picks describes a motion that differs from the exact one by at most twice what the jerk limit can change in that tolerance, even if several phases are shorter than it. |
| `SCurveMotion.DriftAcross` | ControlCore/Trajectory/s_curve_profile.c:532-573 | From the start of a phase, over any number of later phases, the motion differs from constant acceleration by at most what a jerk of the limit can do in the elapsed time. |
| `SampleGrid.CountSamples` | ControlCore/Trajectory/s_curve_profile.c:392-422 | The counting loop terminates and finds the least number of samples, at least two, whose regular spacing reaches the total time. |
| `SampleGrid.SampleCountUnique` | ControlCore/Trajectory/s_curve_profile.c:392-422 | Duration and spacing determine the number of samples. |
| `SampleGrid.SampleTimes` | ControlCore/Trajectory/s_curve_profile.c:441-478 | Sample times start at 0, strictly increase by at most the sample period, stay in the motion and end exactly at the total time. |
| `SCurveProfile.SCurveProfile.Init` | ControlCore/Trajectory/s_curve_profile.c:7-426 | Succeeds exactly when all four numbers are positive; then the stored tables describe the chosen profile and the sample count is the one of its duration; otherwise nothing changes. |
| `SCurveProfile.SCurveProfile.FillTables` | ControlCore/Trajectory/s_curve_profile.c:251-335 | The in-place loop over the seven segments stores start and end time, start motion and jerk of exactly the integrated motion. |
| `SCurveProfile.SCurveProfile.SampleTimeAt` | ControlCore/Trajectory/s_curve_profile.c:441-478 | An index is refused exactly when it is past the last sample; otherwise its time is that of the regular grid with the forced last time. |
| `SCurveProfile.SCurveProfile.FindSegment` | ControlCore/Trajectory/s_curve_profile.c:511-530 | The search loop finds the first segment whose end, plus the tolerance, is not before the time, or the last. |
| `SCurveProfile.SCurveProfile.Evaluate` | ControlCore/Trajectory/s_curve_profile.c:480-604 | Refused exactly while nothing is planned; otherwise the sample is the clamped evaluation with forced end points. |
| `SCurveProfile.SCurveProfile.EvaluateIndex` | ControlCore/Trajectory/s_curve_profile.c:607-632 | Composes the sample time and the evaluation, refused exactly past the end. |
| `SCurveProfile.EvaluatedNearExact` | ControlCore/Trajectory/s_curve_profile.c:480-604 | Lookup tolerance and forced end points together move a sample from the exact motion by at most the jerk terms of the tolerance. |
| `SCurveProfile.ForcedEndsChangeNothing` | ControlCore/Trajectory/s_curve_profile.c:576-601 | Without tolerance the forced end points are the values the polynomial already has. |
| `SCurveProfile.EvaluatedInLimits` | ControlCore/Trajectory/s_curve_profile.c:480-604 | For every positive request and every time the evaluated sample keeps the requested velocity, acceleration and jerk, with explicit slack for the lookup tolerance. |
| `SCurveProfile.EvaluatedProgress` | ControlCore/Trajectory/s_curve_profile.c:480-604 | Between any two times the evaluated path parameter advances by at most the requested velocity times the elapsed time, and never retreats, up to the same slack. |
| `SCurveRates.EvaluatedRates` | ControlCore/Trajectory/s_curve_profile.c:480-604 | The velocity and acceleration of an evaluated sample predict the position of every later sample, with an explicit remainder for jerk and lookup tolerance. |
| `SCurveProfile.SelectedPeaks` | ControlCore/Trajectory/s_curve_profile.c:57-214 | The chosen profile has positive peaks within the request and a positive duration. |
| `ArcLength.Interpolate` | ControlCore/Trajectory/arc_length_parameterize.c:44-159 | The search loop with its guards returns the clamped linear interpolation of the polyline, or the earlier corner in a gap below 1e-15. |
| `ArcLength.FillCumulative` | ControlCore/Trajectory/arc_length_parameterize.c:232-251 | The accumulated chord lengths of the points, filled in place. |
| `ArcLength.FillKnots` | ControlCore/Trajectory/arc_length_parameterize.c:265-351 | Regular knots followed by the exact total length, refused exactly when they do not fit the buffer. |
| `ArcLength.FillResampled` | ControlCore/Trajectory/arc_length_parameterize.c:374-385 | Every knot gets the position interpolated on the original polyline. |
| `ArcLength.Parameterize` | ControlCore/Trajectory/arc_length_parameterize.c:167-401 | Succeeds exactly on a non-empty path with positive spacing whose points and knots fit; then all three output arrays hold the arc-length resampling of the path. |
| `ArcLength.CumulativeMonotone` | ControlCore/Trajectory/arc_length_parameterize.c:232-251 | Accumulated lengths start at zero and never fall. |
| `ArcLengthBound.UnguardedLipschitz` | ControlCore/Trajectory/arc_length_parameterize.c:44-159 | Without the short-gap guard two positions on the polyline are never further apart than their arc lengths, clamped queries included. |
| `ArcLengthBound.GuardClose` | ControlCore/Trajectory/arc_length_parameterize.c:124-130 | The guard moves a position by at most 1e-15, and by nothing when no gap is shorter. |
| `ArcLengthBound.ResampledLipschitz` | ControlCore/Trajectory/arc_length_parameterize.c:232-385 | Positions looked up on the resampled path are no further apart than their arc lengths, for every path and spacing, up to the guard in the original and in the resampled polyline; with no short gap the bound is exact. |
| `ArcLengthExact.AtArcLength` | ControlCore/Trajectory/arc_length_parameterize.c:44-159 | For every path and arc length the position lies on the chord that this arc length has reached and divides it exactly; in a gap below 1e-15 it is a corner. |
| `LineStream.GenerateWaypoints` | ControlCore/Trajectory/generate_line_waypoints.c:6-47 | Refused exactly below two points; otherwise the points divide the straight line evenly. |
| `LineStream.LineLength` | ControlCore/Trajectory/generate_line_waypoints.c:6-47 | The accumulated length of the waypoints is the distance of the end points, and the first and last waypoint are those end points. |
| `LineStream.WaypointOnLine` | ControlCore/Trajectory/generate_line_waypoints.c:6-47 | Every waypoint is on the segment between the two end points. |
| `LineStream.SingleLineStream.Init` | ControlCore/Pipeline/single_segment_line_stream.c:89-278 | The status after initialisation is exactly determined by the request: invalid arguments, geometry that does not fit or is too short, or ready. Once these checks pass, time scaling can never fail. |
| `LineStream.SingleLineStream.PlanGeometry` | ControlCore/Pipeline/single_segment_line_stream.c:163-204 | Line generation and resampling succeed exactly when the knots fit, and the measured path length is the distance of the waypoints. |
| `LineStream.SingleLineStream.Next` | ControlCore/Pipeline/single_segment_line_stream.c:281-626 | Delivers exactly the next sample of the plan, seeded with the last solution; a failed solve delivers nothing and leaves seed, peaks and index alone; after the last sample only the finished status is reported. |
| `LineStream.SingleLineStream.Compute` | ControlCore/Pipeline/single_segment_line_stream.c:327-564 | One solve per sample, towards the interpolated pose and from the stored seed. |
| `LineStream.StepIsSample` | ControlCore/Pipeline/single_segment_line_stream.c:351-463 | The seed threaded through the calls makes sample k the one defined by the plan alone. |
| `LineStream.TargetStep` | ControlCore/Pipeline/single_segment_line_stream.c:203-375 | End to end: two consecutive TCP targets are never further apart than the requested speed times the sample period, up to the 1e-12 lookup slack and the short-gap guard. |
| `LineStream.TargetEnds` | ControlCore/Pipeline/single_segment_line_stream.c:351-375 | The first and last targets are exactly the two waypoints, and the orientations are theirs up to the sign of a quaternion. |
| `LineStream.TargetOnLine` | ControlCore/Pipeline/single_segment_line_stream.c:359-375 | No target ever leaves the straight segment. |
| `LineStream.ReportedSpeed` | ControlCore/Pipeline/single_segment_line_stream.c:364-366 | The reported TCP speed never exceeds the requested one by more than the lookup slack. |
| `LineStream.PlanDetermined` | ControlCore/Pipeline/single_segment_line_stream.c:89-278 | Two initialisations with one request have the same plan, hence the same samples. |
| `LineReports.ReadyExactly` | ControlCore/Pipeline/single_segment_line_stream.c:89-278 | Initialisation is ready, or refused for its arguments, exactly under the stated conditions on numbers, buffers and end points. |
| `LineReports.FastestLine` | ControlCore/Pipeline/single_segment_line_stream.c:203-251 | No profile that keeps the requested speed, acceleration and jerk on the line takes less time than the streamed one. |
| `LineReports.SpeedIsRate` | ControlCore/Pipeline/single_segment_line_stream.c:351-375 | The reported TCP speed is the speed of the arc position: with the acceleration it predicts the arc position of every later sample, up to jerk and lookup tolerance. |
| `LineReports.OrientationTurns` | ControlCore/Pipeline/single_segment_line_stream.c:351-375 | Between any two samples the commanded orientation turns by its share of the whole angle, as the profile advances, unless start and end are nearly parallel. |
| `LineReports.PeaksMean` | ControlCore/Pipeline/single_segment_line_stream.c:570-606 | The reported peaks bound every sample delivered so far and are the least numbers that do. |
| `Quaternions.RoundTrip` | ControlCore/Math/math3d.c:497-700 | Quaternion to matrix and back gives the normalised quaternion or its negative, through all four branches and for every quaternion. |
| `Quaternions.DivisorNonZero` | ControlCore/Math/math3d.c:497-645 | The branch that is taken divides by four times the magnitude of the component it selects, which is never zero. |
| `Quaternions.NormalizeUnit` | ControlCore/Math/math3d.c:452-489 | Normalising always gives a unit quaternion, also from zero. |
| `Quaternions.NormalizeDirection` | ControlCore/Math/math3d.c:452-489 | Multiplied by its length, the normalised quaternion is the given one, unless the length is below 1e-15, when it is the identity. |
| `Quaternions.SlerpIsUnit` | ControlCore/Math/math3d.c:702-801 | Every interpolated orientation is a unit quaternion, on both branches, for all inputs and parameters. |
| `Quaternions.SlerpEnds` | ControlCore/Math/math3d.c:702-801 | Interpolation starts exactly at the first orientation and ends at the second or its negative, and at the second itself when both are on one half sphere. |
| `SlerpPath.SlerpSpeed` | ControlCore/Math/math3d.c:702-801 | For every pair of orientations not nearly parallel, whatever their signs, interpolation turns at constant speed: the angle between any two interpolated orientations is the share of the whole angle. |
| `SlerpPath.SlerpChord` | ControlCore/Math/math3d.c:751-758 | For nearly parallel orientations every interpolated one is a positive multiple of the straight blend. |
| `ToolFrame.RotationTurns` | ControlCore/Math/math3d.c:653-700 | The matrix of a unit quaternion turns every vector exactly as multiplying by the quaternion and its conjugate does. |
| `LinearSolve.Solve` | ControlCore/Math/matrix6.c:24-207 | A returned vector is the one and only solution of the original system; nothing is returned exactly when elimination meets a refused pivot. |
| `LinearSolve.Eliminate` | ControlCore/Math/matrix6.c:71-166 | The in-place elimination is the stepwise reduction with partial pivoting, and gives up exactly when that does. |
| `LinearSolve.FindPivot` | ControlCore/Math/matrix6.c:75-106 | The pivot search finds the first row of largest magnitude in the column. |
| `LinearSolve.SwapRows` | ControlCore/Math/matrix6.c:121-138 | Exchanging only the columns from the pivot on equals a full row exchange, because the earlier columns are zero. |
| `LinearSolve.ClearRow` | ControlCore/Math/matrix6.c:144-165 | Subtracting only from the pivot column on equals a full row operation, for the same reason. |
| `LinearSolve.BackSubstitute` | ControlCore/Math/matrix6.c:174-207 | Filled backwards, every unknown satisfies its row; refused exactly on a refused diagonal entry. |
| `LinearSolve.ReduceKeeps` | ControlCore/Math/matrix6.c:71-166 | A completed elimination has the same solution set, zeros below the diagonal and no refused pivot. |
| `LinearSolve.RefusedColumn` | ControlCore/Math/matrix6.c:112-115 | Elimination gives up only at an equivalent system with a column that is negligible from the diagonal down. |
| `LinearSolve.AmbiguousRefused` | ControlCore/Math/matrix6.c:112-115 | A system with two solutions is always refused. |
| `LinearSolve.PivotRowLargest` | ControlCore/Math/matrix6.c:75-106 | No remaining entry of the column is larger than the pivot. |
| `LinearSolve.BackSolvedUnique` | ControlCore/Math/matrix6.c:174-207 | Back substitution has only one result. |
| `Singularity.FormNormal` | ControlCore/Analysis/singularity.c:73-96 | The loop forms the inner products of the columns of the Jacobian. |
| `Singularity.FindLargest` | ControlCore/Analysis/singularity.c:128-158 | The pair found holds the largest entry above the diagonal. |
| `Singularity.Rotate` | ControlCore/Analysis/singularity.c:206-262 | The in-place updates, entry by entry, are exactly the rotation of rows and columns p and q. |
| `Singularity.AngleAnnihilates` | ControlCore/Analysis/singularity.c:178-200 | The half angle from atan2 makes the pivot entry vanish. |
| `Singularity.GramTurn` | ControlCore/Analysis/singularity.c:206-262 | A rotated matrix holds the inner products of rotated vectors: the step is an orthogonal similarity and keeps symmetry. |
| `Singularity.RotationKeepsTrace` | ControlCore/Analysis/singularity.c:206-262 | Each rotation preserves the trace. |
| `Singularity.RotationDescends` | ControlCore/Analysis/singularity.c:206-262 | Each rotation lowers the sum of squared off-diagonal entries by exactly twice the square of the pivot entry. |
| `Singularity.RotationContracts` | ControlCore/Analysis/singularity.c:124-263 | Rotating the largest entry away leaves at most 14/15 of that sum. |
| `Singularity.IsometricTurn` | ControlCore/Analysis/singularity.c:206-262 | Rotated vectors combine to the same images with coefficients of the same length, in both directions. |
| `Singularity.FormAtLeast` | ControlCore/Analysis/singularity.c:271-312 | A nearly diagonal quadratic form is bounded below by its smallest diagonal entry, less five times the largest off-diagonal one. |
| `Singularity.Diagonalize` | ControlCore/Analysis/singularity.c:117-263 | After the loop the matrix is orthogonally similar to its start with the same trace, and its off-diagonal part is below the tolerance or has contracted for 120 iterations. |
| `Singularity.SmallestDiagonal` | ControlCore/Analysis/singularity.c:271-287 | The running minimum of the diagonal is attained and least. |
| `Singularity.GramSymmetric` | ControlCore/Analysis/singularity.c:290-303 | Every matrix the iteration reaches holds inner products, so it is symmetric and no diagonal entry is negative: the clamp of negative values never fires. |
| `Singularity.DiagonalSmallest` | ControlCore/Analysis/singularity.c:271-312 | Its smallest diagonal entry is the squared stretch of some unit vector, and no unit vector is stretched less, up to the residual. |
| `Singularity.SigmaMin` | ControlCore/Analysis/singularity.c:44-312 | The returned value is the stretch of some unit vector, hence never below the smallest singular value, and exceeds it by no more than the residual allows. |
| `Adls.Ik` | ControlCore/Kinematics/adls_ik.c:466-1371 | Success means both tolerances hold at the returned configuration; every recorded configuration starts at the clamped seed, lies in the joint limits and follows from the one before by one damped half step; the configuration history is one longer than the others on every exit; the loop stops early without success exactly at a refused system. |
| `Adls.Iterate` | ControlCore/Kinematics/adls_ik.c:714-1326 | One pass records one such step, or changes nothing but diagnostics when the solver refuses. |
| `Adls.SolveUpdate` | ControlCore/Kinematics/adls_ik.c:1057-1158 | The update solves the damped normal equations of the Jacobian; it is missing only if their elimination is refused. |
| `Adls.ApplyUpdate` | ControlCore/Kinematics/adls_ik.c:1207-1273 | Half of the update is added, the result is clamped into the limits, and the recorded rms is that of the half update. |
| `Adls.ClampInPlace` | ControlCore/Kinematics/adls_ik.c:25-43 | Clamping puts every joint inside its limits. |
| `Adls.ClampNearest` | ControlCore/Kinematics/adls_ik.c:25-43 | Clamping moves a joint no further than anything else that brings it between its limits, and leaves a joint inside them alone. |
| `Adls.NormalTest` | ControlCore/Kinematics/adls_ik.c:1057-1158 | The normal equations hold when tested against any direction. |
| `Adls.HalfStepDescends` | ControlCore/Kinematics/adls_ik.c:1057-1251 | The half step lowers the linearised squared pose error by exactly 3/4 of the squared motion plus the damped squared update. |
| `Adls.UpdateOptimal` | ControlCore/Kinematics/adls_ik.c:1057-1158 | Any other step costs more than the update by exactly the damped square of the difference. |
| `Adls.OptimalIsLeast` | ControlCore/Kinematics/adls_ik.c:1057-1158 | The update minimises the damped least-squares cost. |
| `Adls.RecordedDescends` | ControlCore/Kinematics/adls_ik.c:714-1326 | Every recorded update applies half of the step that is best for its damped cost, and lowers the linearised squared pose error by exactly 3/4 of the squared motion plus the damped squared step. |
| `Adls.RecordedDamping` | ControlCore/Kinematics/adls_ik.c:955-1003 | In every recorded history the damping is zero beyond the threshold and on a quarter ellipse below it: between zero and its maximum, the maximum at a singularity, and never larger further away from one. |
| `Adls.ToleranceMeans` | ControlCore/Kinematics/adls_ik.c:854-863 | Convergence means squared position and orientation errors of at most the squared tolerances. |
| `TrajectoryBuffer.TrajectoryBuffer.Push` | ControlCore/Execution/trajectory_buffer.c:46-79 | Appends to the queued samples exactly when there is room; totals and high-water mark follow. |
| `TrajectoryBuffer.TrajectoryBuffer.Pop` | ControlCore/Execution/trajectory_buffer.c:81-107 | Removes and returns the oldest sample exactly when there is one. |
| `TrajectoryBuffer.TrajectoryBuffer.Peek` | ControlCore/Execution/trajectory_buffer.c:109-128 | Returns the oldest sample without removing it. |
| `TrajectoryBuffer.TrajectoryBuffer.Reset` | ControlCore/Execution/trajectory_buffer.c:28-44 | Empties the queue and clears totals and high-water mark. |
| `TrajectoryBuffer.CirclePush` | ControlCore/Execution/trajectory_buffer.c:61-66 | Writing behind the last element of the ring appends to the queue it holds. |
| `TrajectoryBuffer.CirclePop` | ControlCore/Execution/trajectory_buffer.c:96-103 | Advancing the read index drops the oldest element of the queue and no other. |
| `StreamingRuns.RunKeeps` | Legacy/old_simulator_main.c:1133-1375 | Every interleaving of planner steps, drive cycles and interrupts preserves the protocol invariant. |
| `StreamingRuns.CommittedInEveryRun` | Legacy/old_simulator_main.c:1605-1904 | In every run the committed samples are a gap-free, duplicate-free prefix of the stream; FINISHED means all were committed; during a motion pushed equals committed plus buffered; a running motion whose generation is finished is never starved. |
| `StreamingRuns.NothingOverflows` | Legacy/old_simulator_main.c:740-831 | In every run the one-place request queue is empty whenever a plan is accepted, and the ring has room whenever a sample is pushed, so neither error branch can be taken. |
| `StreamingStart.MotionBegins` | Legacy/old_simulator_main.c:1736-1862 | In every run a motion begins in exactly one way: in a cycle without a STOP, with every drive enabled and a successful exchange, while positioning, and with every axis within five units of the first sample of the accepted plan. |
| `StreamingStart.CommittedAfterStart` | Legacy/old_simulator_main.c:1736-1862 | In every run whatever is committed, running or finished was begun by such a cycle for that same plan. |
| `StreamingStart.StandsNear` | Legacy/old_simulator_main.c:1738-1757 | Standing at the start means every axis within five drive units of its angle, itself rounded to the nearest unit, half-way away from zero; exactly then. |
| `StreamingProgress.AcceptedInEveryRun` | Legacy/old_simulator_main.c:740-831 | In every run a request to run is accepted exactly while nothing is planned or moving, and then only the new plan remains; otherwise it changes nothing, so a motion under way cannot be replaced. |
| `StreamingProgress.PassingPlanIsReady` | Legacy/old_simulator_main.c:1133-1318 | An accepted plan that passes becomes ready: five turns of the planner and four for each sample that fits buffer these in order, and the arm may be positioned at the first one. |
| `StreamingProgress.FailingPlanIsDropped` | Legacy/old_simulator_main.c:1159-1205 | An accepted plan that does not pass is given up after four turns of the planner, without a trace. |
| `StreamingProgress.CancelledPlannerEnds` | Legacy/old_simulator_main.c:1133-1375 | In every run, once a STOP, an underrun or an interrupt has cancelled it, the planner is free again after five more turns, wherever it was. |
| `StreamingProgress.PassingPlanFinishes` | Legacy/old_simulator_main.c:1133-1904 | Every accepted plan that passes can be carried out, whatever its length: begun with the arm at the first sample, four planner turns per cycle prevent any underrun, every sample is committed and the motion finishes. |
| `StreamingProgress.IndexInEveryRun` | Legacy/old_simulator_main.c:1822-1862 | In every run the index in the telemetry is that of the newest committed sample of the motion. |
| `StreamingStart.PrefilledInEveryRun` | Legacy/old_simulator_main.c:1288-1318 | In every run positioning begins once 128 samples are buffered or the stream is complete, and not before, and never more than 256 are buffered. |
| `StreamingStart.CommandedInEveryRun` | Legacy/old_simulator_main.c:1759-1800 | In every cycle of every run the drives are told to stay, or to go to the first uncommitted sample of a plan that passed validation, the last one at the end; to stay exactly when stopping, not enabled, held or still planning. |
| `StreamingRuns.CycleCommitsWhatItSends` | Legacy/old_simulator_main.c:1632-1847 | Whatever commands a cycle received, among them a refused plan, it sends the first uncommitted sample and commits it exactly when the exchange succeeds; after a low working counter the same sample is first again. |
| `StreamingRuns.NoCommitAfterHold` | Legacy/old_simulator_main.c:690-697 | Once held, no continuation commits anything more before a new plan is accepted. |
| `StreamingRuns.StopAndUnderrunHold` | Legacy/old_simulator_main.c:1632-1666 | Wherever a STOP stands among the commands of a cycle, that very cycle commits nothing more and leaves HOLD with the planner cancelled, unless a newer plan is accepted after it; as the last command it always does, and so does an underrun, whatever was received in that cycle. |
| `StreamingRuns.ProducerNeverFails` | Legacy/old_simulator_main.c:1159-1375 | In every run a plan whose validation succeeded is initialised a second time without failing and streams to its last sample: neither producer error is ever reached. |
| `StreamingRuns.HoldKeptExactly` | Legacy/old_simulator_main.c:1159-1205 | A stopped motion stays in HOLD until the next accepted plan, in every continuation, exactly when the planner is not already past its cancellation check with a failed validation. |
| `StreamingRuns.HoldLost` | Legacy/old_simulator_main.c:1159-1205 | In that window the interleaving that turns HOLD into WAITING without a new plan always exists. |
| `StreamingRuns.HoldLostInSomeRun` | Legacy/old_simulator_main.c:1159-1205 | A run from power-up in which a plan fails validation, a STOP arrives after the planner's check for it, and WAITING follows although no newer plan was accepted. |
| `StreamingRuns.CommittedWasSent` | Legacy/old_simulator_main.c:1133-1207 | In every run, whatever is committed belongs to a plan that was sent and that passes validation. |
| `LimitValidation.StreamingValidator.Observe` | Legacy/old_simulator_main.c:934-1009 | After any number of samples peaks, steps and verdicts are those of the whole sequence, with the newest velocity still open. |
| `LimitValidation.StreamingValidator.Finish` | Legacy/old_simulator_main.c:1017-1033 | The last one-sided velocity settles peaks, steps and verdicts to those of the complete sequence. |
| `LimitValidation.StreamingValidator.UpdateVelocities` | Legacy/old_simulator_main.c:854-872 | One velocity vector raises the peaks and fails the verdict exactly beyond a limit. |
| `LimitValidation.StreamingValidator.UpdatePositions` | Legacy/old_simulator_main.c:947-966 | Positions outside the limits and larger steps are noticed exactly. |
| `LimitValidation.ComputeGradient` | ControlCore/Pipeline/single_segment_line.c:141-265 | One-sided differences at the ends, central ones between, zero where times coincide. |
| `LimitValidation.BatchLimits` | ControlCore/Pipeline/single_segment_line.c:1222-1340 | The batch pass computes the same peaks and steps, and its position verdict is that of the samples. |
| `LimitValidation.JointLimits` | ControlCore/Pipeline/single_segment_line.c:1222-1340 | The same for one joint. |
| `LimitValidation.PeakBounds` | ControlCore/Pipeline/single_segment_line.c:1222-1340 | A peak is within a bound exactly when the bound is not negative and every velocity that exists is within it. |
| `LimitValidation.VelocityMeaning` | ControlCore/Pipeline/single_segment_line.c:1222-1340 | The batch velocity verdict means every velocity is within its limit and no limit is negative. |
| `LimitValidation.VerdictsAgreeExactly` | Legacy/old_simulator_main.c:854-1039 | Streaming and batch velocity verdicts agree if and only if no velocity limit is negative or at least one velocity could be formed, for every length. |
| `LimitValidation.VerdictsDiffer` | Legacy/old_simulator_main.c:1035-1039 | One sample and negative velocity limits, for which streaming accepts and the batch pass refuses. |
| `LimitMeaning.VerdictsMean` | ControlCore/Pipeline/single_segment_line.c:1222-1340 | For rising times acceptance means exactly: every position within its limits, and the first step, the last step and every pair of steps within the velocity limit times their time. |
| `LimitMeaning.StepAtMost` | Legacy/old_simulator_main.c:934-1033 | How far a single step of an accepted motion can go: the velocity limit times its own time and twice the time before it. |
| `LimitMeaning.TooFastAccepted` | ControlCore/Pipeline/single_segment_line.c:141-265 | Four samples that both checks accept although the middle step is three times the velocity limit. |
| `LimitMeaning.StepBounds` | ControlCore/Pipeline/single_segment_line.c:1222-1340 | The reported largest step bounds all steps and is the least non-negative number that does. |
| `LimitMeaning.GradientMeans` | ControlCore/Pipeline/single_segment_line.c:141-265 | Every entry of the gradient times the time between its neighbours is their difference, and zero where their times coincide. |
| `StreamingValidation.ValidateLine` | Legacy/old_simulator_main.c:874-1039 | Validation succeeds only if every sample the request will ever deliver is solved and within position and velocity limits; without a cancellation it fails for no other reason. |
| `StreamingValidation.ReplayLine` | Legacy/old_simulator_main.c:906-1015 | The loop feeds the delivered prefix of the stream, in order, to the validator, and stops early only on cancellation or an unsolvable sample. |
| `StreamingValidation.ExecutedWasChecked` | Legacy/old_simulator_main.c:1159-1207 | Executing the same request later delivers only samples that were checked. |
| `StreamingValidation.VerdictOf` | Legacy/old_simulator_main.c:1159-1207 | A request passes exactly when its initialisation succeeds and every sample it delivers is solved and within position and velocity limits; the plan under execution and the one validated have one verdict. |
| `StreamingValidation.ValidateStream` | Legacy/old_simulator_main.c:874-1039 | What validation reports is that verdict: success only for a plan that passes, and without a cancellation exactly for one that does. |
| `StreamingValidation.CommittedWasChecked` | Legacy/old_simulator_main.c:1159-1207 | In every run of planner and drives in which the plans are line requests, everything committed is, sample by sample, a stream that was checked as a whole, and lies within the joint limits. |
| `StateDiagram.DiagramHolds` | StateMachine/state_machine.c:228-1062 | For all machines and events, read by state and by field instead of by event: exactly what leads into each of the 13 states, what sets and clears each program flag, latch, health condition and diagnosis, and when an event is handled or rejected; nothing else changes. |
| `StateMachineRuns.ResumeReturns` | StateMachine/state_machine.c:413-466 | In every run, however long the pause and whatever arrived meanwhile: a resume with motion permitted returns to the very state in which the pause was taken, with mode and program as they were then; without permission the machine stays paused. |
| `StateMachineRuns.EveryStep` | StateMachine/state_machine.c:228-1062 | For all 13 states and 17 events: where program flags, latches, stop states and newly active states can come from, and what a rejection leaves. |
| `StateMachineRuns.InvInEveryRun` | StateMachine/state_machine.c:228-1062 | In every run preview accepted implies validated implies recorded, an execution mode is set exactly while executing or paused, a pause holds a pausable state, and PRODUCTION implies an accepted preview. |
| `StateMachineRuns.EarnedInEveryRun` | StateMachine/state_machine.c:752-1054 | In every run each program flag is backed by the event that earned it, with no Teach or program clear since. |
| `StateMachineRuns.ProductionIsEarned` | StateMachine/state_machine.c:752-1054 | PRODUCTION is active only if the program was taught, then validated, then previewed to completion, with no Teach, program clear or newer preview since. |
| `StateMachineRuns.LeavingStopped` | StateMachine/state_machine.c:569-713 | FAULT and EMERGENCY_STOP are left only into HOMING, by Reset or Home, in a step where all seven health conditions hold. |
| `StateMachineRuns.FaultBlocks` | StateMachine/state_machine.c:372-411 | With the global fault set nothing leaves the pair in any run before a safety snapshot clears it. |
| `StateMachineRuns.EstopBlocks` | StateMachine/state_machine.c:327-367 | With the emergency stop active nothing leaves the pair in any run before a release or a snapshot clears it. |
| `StateMachineRuns.FaultDetectedLatches` | StateMachine/state_machine.c:372-411 | FAULT_DETECTED always ends in one of the two stops with the global fault set. |
| `StateMachineRuns.EstopLatches` | StateMachine/state_machine.c:327-347 | ESTOP_ASSERTED always ends in EMERGENCY_STOP, unreleased and unacknowledged. |
| `StateMachineRuns.DemotedExactly` | StateMachine/state_machine.c:271-411 | EMERGENCY_STOP becomes FAULT exactly on a protective stop or on a fault or failure below emergency severity. |
| `StateMachineRuns.ResetNeededExactly` | StateMachine/state_machine.c:569-713 | Under the unified policy the machine can recover from EMERGENCY_STOP without another Reset exactly while the acknowledgement latch is set. |
| `StateMachineRuns.EmergencyNeedsReset` | StateMachine/state_machine.c:327-513 | After an asserted emergency stop a fresh Reset is always needed; after an emergency reported as fault or failure exactly when no earlier acknowledgement was pending. |
| `StateMachineRuns.LatchOrigins` | StateMachine/state_machine.c:327-713 | In EMERGENCY_STOP under the unified policy only a release sets the release latch, only a Reset after it the acknowledgement, and only a Home with both leaves the stops; it gives way to FAULT only by a demotion. |
| `StateMachineRuns.LeftInOrder` | StateMachine/state_machine.c:327-713 | An asserted emergency stop that is left, in any run, without ever giving way to FAULT was left by a Home, after a Reset, after a release. |
| `StateMachineRuns.HomeNeededExactly` | StateMachine/state_machine.c:271-713 | From a stop HOMING can be reached with neither a Home nor a further demotion exactly when the machine is in FAULT: a demotion is the only way around release, Reset and Home. |
| `StateMachineRuns.DemotionBypasses` | StateMachine/state_machine.c:271-661 | From every state: emergency stop, protective stop, a healthy snapshot and Reset end in HOMING with neither latch ever set. |
| `StateMachineRuns.StaleAcknowledgement` | StateMachine/state_machine.c:372-411 | A run in which a new emergency fault is left towards HOMING with no Reset after it: an acknowledgement of an earlier emergency is not dropped. |
| `StateMachineRuns.RejectedEventEffects` | StateMachine/state_machine.c:631-646 | Exactly what a rejected event changes: the counters, and in addition the program when a Reset is rejected in EMERGENCY_STOP. |
| `SupervisorRuns.InvInEveryRun` | StateMachine/supervisor_task.c:245-703 | Whoever posts what, in every interleaving of HMI task, other senders and supervisor, with turns between the messages of one cycle, the invariants behind the rows below hold and both queues stay within their bounds. |
| `SupervisorRuns.TeachingInEveryRun` | StateMachine/supervisor_task.c:677-691 | In every run the inputs of the teaching steps are exactly the teaching events dequeued in TEACHING, in order, once each, so Record is never coalesced or lost; one that waits is taken by the very next thing the supervisor does. This holds whoever posts messages, teaching messages and HMI commands included. |
| `SupervisorRuns.CommandsInEveryRun` | HMI/hmi_task.c:24-58 | In every run the commands the supervisor handled, those queued and the retained one are exactly the valid events the HMI task took, in order, none lost or duplicated, as long as nobody else posts HMI commands. |
| `SupervisorRuns.FreshInEveryRun` | StateMachine/supervisor_task.c:91-243 | In every run the entered module is the active state, and however often a job is paused and resumed, Approach and path execution are entered afresh exactly as often as the machine moves from IDLE to APPROACH and from APPROACH to PATH_EXECUTION. |
| `SupervisorRuns.ProductionInEveryRun` | StateMachine/supervisor_task.c:245-392 | In every run the machine inside the task is in a state of one of its own runs, so production there was earned too. |
| `SupervisorRuns.CycleIsTurns` | StateMachine/supervisor_task.c:658-703 | A cycle without interruption is so many turns of the supervisor in the run model. |
| `SupervisorRuns.RequestAfter` | StateMachine/supervisor_task.c:379-387 | A pending HOME or RESET request of the moving module survives every message except a newer request and one that overwrites the whole record. |
| `SupervisorRuns.RequestLost` | StateMachine/supervisor_task.c:379-382 | A run from start-up in which the step of APPROACH after a HOME command sees no request. |
| `HmiButtons.TeachingButtons` | StateMachine/supervisor_task.c:290-346 | Record and the speed buttons are input for the teaching module in TEACHING and do nothing anywhere else. |
| `HmiButtons.ShapeButtons` | StateMachine/supervisor_task.c:290-346 | A geometry button starts teaching with that geometry from IDLE, dropping validation and preview, is input in TEACHING, and does nothing elsewhere. |
| `HmiButtons.ValidateAndStart` | StateMachine/supervisor_task.c:290-346 | Validate is teaching input in TEACHING and asks for a preview elsewhere; Start asks for production. |
| `HmiButtons.StartsFrom` | StateMachine/state_machine.c:752-842 | A preview or production request starts in exactly the allowed case, in its own mode, and otherwise leaves state and mode alone. |
| `HmiButtons.PauseAndResume` | StateMachine/supervisor_task.c:290-346 | Pause never resumes and Resume never pauses; each does nothing in the states of the other. |
| `HmiButtons.ResetButton` | StateMachine/supervisor_task.c:245-346 | Reset is input in TEACHING, a request to a moving module, and otherwise reaches the machine. |
| `HmiButtons.HomeButton` | StateMachine/supervisor_task.c:245-346 | Home is a request to a moving module, and otherwise reaches the machine. |
| `HmiButtons.RaisedEvent` | StateMachine/supervisor_task.c:245-288 | Any other event reaches the machine as it is, and a module is entered exactly when the state changed. |
| `HmiOrder.TakenInEveryRun` | HMI/hmi_task.c:24-58 | In every run the accepted submissions are exactly those taken from the queue and those still waiting, in order; the transport is asked only when nothing waits, and what it offers is what is taken. |
| `HmiButtons.EveryButton` | HMI/hmi_task.c:5-23 | Every event the HMI accepts becomes a command, and no two become the same one. |
| `ModuleOutcomes.StoppedFor` | StateMachine/supervisor_task.c:419-656 | A moving module that stopped for Home goes homing with the program kept; one that stopped for Reset ends in IDLE without it. |
| `ModuleOutcomes.CompletedStep` | StateMachine/supervisor_task.c:419-656 | Every completed step leads to the next state of the job, and completing does nothing in the other states. |
| `ModuleOutcomes.ValidationStep` | StateMachine/supervisor_task.c:419-656 | A completed validation validates the program; a rejected one keeps the draft only. |
| `ModuleOutcomes.FailedStep` | StateMachine/supervisor_task.c:394-417 | A failed step of any reporting module ends in FAULT, recoverable, with its own code and the program kept. |
| `ModuleOutcomes.CodesTell` | StateMachine/supervisor_task.c:70-73 | The code of a failure determines the state and the lower half of the detail. |
| `ModuleOutcomes.InputsTakenOnce` | StateMachine/supervisor_task.c:419-656 | The inputs of a module are taken by one step: none is left for the module that stepped, and a step that goes on leaves those of the others. |
| `ModuleOutcomes.QuietStep` | StateMachine/supervisor_task.c:419-656 | A step that goes on, and an outcome that is not the module's own, leave the machine as it is. |
| `CircularPath.SolveCentre` | ControlCore/Trajectory/circular_path.c:45-207 | The 3x3 elimination returns a point on all three planes, or refuses exactly when a pivot does. |
| `CircularPath.FitCircle` | ControlCore/Trajectory/circular_path.c:238-382 | Fits exactly when the points span a normal of at least 1e-12 and the solver accepts the planes; then centre in plane, all points equidistant, orthonormal right-handed frame along the normal of the points, first point at angle zero. |
| `CircularPath.CentreMeans` | ControlCore/Trajectory/circular_path.c:283-340 | The three plane equations mean in-plane and equidistant. |
| `CircularPath.RadiusLarge` | ControlCore/Trajectory/circular_path.c:342-356 | The radius check can never fail once the collinearity check passed. |
| `CircularPath.CircleUnique` | ControlCore/Trajectory/circular_path.c:238-382 | Only one circle fits accepted points around their normal. |
| `CircularPath.SampleOnCircle` | ControlCore/Trajectory/circular_path.c:425-455 | Every sampled point lies in the plane and on the circle. |
| `CircularPath.SampleAtAngle` | ControlCore/Trajectory/circular_path.c:425-455 | A point of the circle is the sample at its atan2 angle: sampling and angle are inverse. |
| `CircularWaypoints.ModFacts` | ControlCore/Trajectory/circular_path.c:394-418 | The adjusted remainder is in [0, 2 pi) and a whole number of turns from the angle, also for negative angles. |
| `CircularWaypoints.GenerateArc` | ControlCore/Trajectory/circular_path.c:462-652 | An accepted arc has one direction whose sweep passes the middle point and evenly spaced samples of it; it is refused only for too few points, an unfit circle, or no single direction. |
| `CircularWaypoints.SweepContainsMid` | ControlCore/Trajectory/circular_path.c:540-612 | An accepted sweep is non-zero, at most one turn, and contains the angle of the middle point up to 1e-12 beyond its end. |
| `CircularWaypoints.ArcPassesMiddle` | ControlCore/Trajectory/circular_path.c:540-612 | The middle point is itself a sample of the accepted sweep. |
| `CircularWaypoints.ArcRefusedExactly` | ControlCore/Trajectory/circular_path.c:540-612 | For all angles, fitted or not: an arc is refused exactly when the middle point does not single out one direction: with the end at the start, any middle clear of the start; otherwise a middle at the start or at the end. |
| `CircularWaypoints.SnappedExactly` | ControlCore/Trajectory/circular_path.c:540-612 | For all angles, fitted or not: an accepted sweep was replaced by a full turn exactly when end and middle are both within the tolerance of the start, the middle behind it. |
| `CircularWaypoints.SnappedIsWide` | ControlCore/Trajectory/circular_path.c:540-612 | A snapped sweep is accepted only on a circle of at least a thousand kilometres radius. |
| `CircularWaypoints.ArcEnd` | ControlCore/Trajectory/circular_path.c:540-643 | The last waypoint is the end point if and only if the end was not taken for the start. |
| `CircularWaypoints.ArcEndsAtEnd` | ControlCore/Trajectory/circular_path.c:540-643 | On every smaller circle the last waypoint is exactly the end point. |
| `CircularSnap.LastIsNotEnd` | ControlCore/Trajectory/circular_path.c:462-652 | Three points that are fitted and whose arc is accepted, but whose last waypoint is not the end point. |
| `CircularOrder.MiddleComesFirst` | ControlCore/Trajectory/circular_path.c:238-382 | In every accepted fit the angle of the middle point lies strictly between the start and the angle of the end point, counter-clockwise around the fitted axis. |
| `CircularOrder.FittedSweep` | ControlCore/Trajectory/circular_path.c:540-612 | The sweep of every accepted fit, and exactly when there is none: counter-clockwise to the end angle, unless the middle point is within the tolerance of the start; only then can the sweep run clockwise. |
| `CircularOrder.FittedEnd` | ControlCore/Trajectory/circular_path.c:540-643 | For fitted points the last waypoint misses the end point exactly when the middle is within the tolerance in front of the start and the end within the tolerance behind it. |
| `CircularWaypoints.WaypointsOnCircle` | ControlCore/Trajectory/circular_path.c:624-643 | Every waypoint is on the fitted circle and the first is the start point. |
| `CircularSpacing.EvenlySpaced` | ControlCore/Trajectory/circular_path.c:624-643 | All neighbouring waypoints are equally far apart: the chord of the sweep divided by the number of steps. |
| `CircularWaypoints.GenerateFullCircle` | ControlCore/Trajectory/circular_path.c:663-733 | Succeeds exactly for three or more points, a direction of plus or minus one and a fitting circle; the loop starts and ends at the first point. |
| `CircularWaypoints.ClosedLoop` | ControlCore/Trajectory/circular_path.c:697-730 | The forced closing point changes nothing: the sampled loop is closed already. |
| `CircularOrientation.OrientationEnds` | ControlCore/Trajectory/circular_path.c:863-968 | The orientation is unit everywhere, equals the start orientation at 0, and the end orientation or its negative at 1. |
| `ToolFrame.FrameTurns` | ControlCore/Trajectory/circular_path.c:811-857 | The turn about the axis of the circle carries its frame around by exactly the angle, so the tool is carried with the path. |
| `ToolFrame.OwnTurnIs` | ControlCore/Trajectory/circular_path.c:863-968 | Relative to the path the tool makes exactly the interpolated part of what the path leaves, and no other turn. |
| `ToolFrame.OwnTurnSpeed` | ControlCore/Trajectory/circular_path.c:863-968 | That turn has constant speed over the path, or follows the chord when hardly anything is left. |
| `CircularOrientation.ConjugateCancels` | ControlCore/Trajectory/circular_path.c:741-775 | Multiplying by a conjugate is undone by multiplying with the unit quaternion. |
| `CircularOrientation.MultiplyUnit` | ControlCore/Trajectory/circular_path.c:741-757 | Products of unit quaternions are unit. |
| `WorkspaceMonitor.Monitor.Init` | HMI-Mock/workspace_monitor.c:44-150 | After binning, every bin holds count, minimum and maximum of exactly the samples of its height. |
| `WorkspaceMonitor.Monitor.AddSample` | HMI-Mock/workspace_monitor.c:126-143 | One sample updates its own bin and no other. |
| `WorkspaceMonitor.HeightRange` | ControlCore/Analysis/workspace.c:295-427 | The height range is attained by samples and contains all of them. |
| `WorkspaceMonitor.Monitor.Envelope` | HMI-Mock/workspace_monitor.c:196-242 | The neighbouring bins yield exactly the minimum and maximum of all samples at most two bins away, or nothing when there are none. |
| `WorkspaceMonitor.Monitor.Check` | HMI-Mock/workspace_monitor.c:165-260 | The verdict of the index is that of a search over all source samples, for every query. |
| `WorkspaceMonitor.SamplesAreInside` | HMI-Mock/workspace_monitor.c:165-260 | Every source sample is reported inside. |
| `WorkspaceMonitor.CountsSum` | HMI-Mock/workspace_monitor.c:126-143 | The bin counts sum to the number of samples. |
| `WorkspaceHeight.BinHolds` | HMI-Mock/workspace_monitor.c:16-42 | Every bin is one eightieth of the height range, heights beyond it belong to the first or last, and only the last includes its upper end. |
| `WorkspaceHeight.InsideMeans` | HMI-Mock/workspace_monitor.c:165-260 | In metres: within 25 mm of the height range, samples within two bin widths that lie at most 35 mm further out and further in put a point inside, and every point inside has such samples within three. |
| `JointTrajectory.Boole` | ControlCore/Trajectory/quintic_time_scaling.c:326-356 | The quintic position is the exact integral of its rate, by Boole's rule over any interval. |
| `JointTrajectory.VelocityIsRate` | ControlCore/Trajectory/quintic_time_scaling.c:346-356 | The reported velocity is that rate over the duration, at the forced ends too. |
| `JointTrajectory.PositionRises` | ControlCore/Trajectory/quintic_time_scaling.c:326-332 | Position never falls and rises by at most 1.875 per unit of normalised time. |
| `JointTrajectory.ScaledProgress` | ControlCore/Trajectory/quintic_time_scaling.c:242-437 | The evaluated path parameter stays in [0, 1], never falls, and rises by at most 1.875 of the elapsed share of the duration. |
| `JointTrajectory.ForcedEndsChangeNothing` | ControlCore/Trajectory/quintic_time_scaling.c:411-434 | The forced end values are those of the polynomial. |
| `JointMotion.ParameterIntegrates` | ControlCore/Trajectory/quintic_time_scaling.c:326-437 | For all times the path parameter, its velocity, acceleration and jerk integrate into each other exactly, by Boole's and Simpson's rules. |
| `JointMotion.JointIntegrates` | ControlCore/Trajectory/joint_trajectory.c:195-365 | The same for every joint: position, velocity, acceleration and jerk of the reported samples are one motion. |
| `JointTrajectory.JointTrajectory.Init` | ControlCore/Trajectory/joint_trajectory.c:23-192 | Succeeds exactly for positive duration and period, and starts at the first sample. |
| `JointTrajectory.JointTrajectory.Evaluate` | ControlCore/Trajectory/joint_trajectory.c:195-365 | The sample at a time is the scaled motion with exact end configurations. |
| `JointTrajectory.JointTrajectory.Next` | ControlCore/Trajectory/joint_trajectory.c:419-498 | Delivers the samples of the grid in order, exactly as many as counted, then reports that it is finished. |
| `JointTrajectory.JointProgress` | ControlCore/Trajectory/joint_trajectory.c:195-365 | Each joint moves monotonically between its end values, hence within any limits both keep, and moves at most 1.875 of its distance per share of the duration. |
| `JointTrajectory.StreamSamples` | ControlCore/Trajectory/joint_trajectory.c:419-498 | Sample times strictly increase, the first sample is exactly the start and the last exactly the goal, and consecutive samples obey the monotonicity and the motion bound. |
| `StreamingControl.Controller.Reset` | Legacy/old_simulator_main.c:551-566 | The reset for a new plan leaves exactly the planning state, with an empty ring and no cancellation. |
| `StreamingControl.Controller.Stop` | Legacy/old_simulator_main.c:690-697 | A STOP holds, cancels and empties the ring in one critical section. |
| `StreamingControl.Controller.Abort` | Legacy/old_simulator_main.c:1042-1062 | An abort clears the plan and holds; the motion becomes HOLD or WAITING as asked. |
| `StreamingControl.Controller.Begin` | Legacy/old_simulator_main.c:1209-1218 | A validated plan starts with all counters and marks cleared. |
| `StreamingControl.Controller.RingFull` | Legacy/old_simulator_main.c:1230-1240 | The check before the next sample says whether the ring is full; while it is not, no publication is refused. |
| `StreamingControl.Controller.Publish` | Legacy/old_simulator_main.c:1264-1318 | A generated sample is appended, marks start and end, and announces readiness at prefill or at the end; refused exactly when the ring is full. |
| `StreamingControl.Controller.FinishProducer` | Legacy/old_simulator_main.c:1344-1365 | A short stream is announced late, and the planner is free again. |
| `StreamingControl.Controller.PeekOrUnderrun` | Legacy/old_simulator_main.c:1632-1666 | The next sample without removing it, or a held underrun when generation is not finished. |
| `StreamingControl.Controller.Consume` | Legacy/old_simulator_main.c:1822-1847 | Removes exactly the oldest sample, counts it, and recognises the last one. |
| `StateMachine.Supervisor.HandleEvent` | StateMachine/state_machine.c:228-1062 | One event changes the context and yields a result exactly as the transition function says, about which the rows below are proved. |
| `StateMachine.Supervisor.constructor` | StateMachine/state_machine.c:7-55 | The initial context is BOOT with no program and nothing healthy. |
| `StateMachine.Supervisor.UpdateSafety` | StateMachine/state_machine.c:86-108 | A snapshot replaces all seven health conditions and nothing else. |
| `StateMachine.Supervisor.MayMove` | StateMachine/state_machine.c:136-168 | Motion is allowed exactly outside FAULT and EMERGENCY_STOP with every health condition met. |
| `StateMachine.Supervisor.HandleProtectiveStop` | StateMachine/state_machine.c:267-296 | A protective stop goes to FAULT, also from EMERGENCY_STOP. |
| `StateMachine.Supervisor.HandleEstop` | StateMachine/state_machine.c:327-347 | An emergency stop latches, drops both release and acknowledgement, and cancels execution. |
| `StateMachine.Supervisor.HandleFaultDetected` | StateMachine/state_machine.c:372-411 | A detected fault blocks globally and chooses FAULT or EMERGENCY_STOP by severity. |
| `StateMachine.Supervisor.HandlePauseResume` | StateMachine/state_machine.c:413-466 | Pausing remembers a pausable state; resuming returns to it only when motion is permitted. |
| `StateMachine.Supervisor.HandleFailure` | StateMachine/state_machine.c:473-513 | A failed state classifies its severity and stops. |
| `StateMachine.Supervisor.HandleReset` | StateMachine/state_machine.c:569-661 | Reset recovers, acknowledges or clears the program, in the order of the code, also when it is then rejected. |
| `StateMachine.Supervisor.HandleHome` | StateMachine/state_machine.c:669-713 | Home starts homing from IDLE when motion is permitted, repeats harmlessly in HOMING, and leaves EMERGENCY_STOP only under the unified policy with release, acknowledgement and all seven health conditions. |
| `StateMachine.Supervisor.HandleIdle` | StateMachine/state_machine.c:740-842 | From IDLE, teaching drops the program, and preview and replay demand the flags they need. |
| `StateMachine.Supervisor.HandleComplete` | StateMachine/state_machine.c:716-1054 | Completion of a state settles the program flags and moves on exactly where it is expected. |
| `SupervisorTask.SupervisorTask.EnterActiveState` | StateMachine/supervisor_task.c:91-243 | Entering a state afresh or resuming it: Approach is resumed only from a pause and once initialised, otherwise entered with its requests cleared; the same for path execution; entering TEACHING drops a pending event. |
| `SupervisorTask.SupervisorTask.HandlePolicyEvent` | StateMachine/supervisor_task.c:245-288 | HOME and RESET become requests to a moving module, any other event reaches the state machine, and a changed state is entered. |
| `SupervisorTask.SupervisorTask.HandleHmiCommand` | StateMachine/supervisor_task.c:290-346 | A command may start teaching, leaves its teaching event exactly in TEACHING, and raises its policy event from the state reached by then. |
| `SupervisorTask.SupervisorTask.HandleMessage` | StateMachine/supervisor_task.c:348-392 | Each kind of message changes exactly its part of the context: machine, entered module, pending teaching event, or a whole request record. |
| `SupervisorTask.SupervisorTask.RunActiveState` | StateMachine/supervisor_task.c:419-656 | One step hands the pending teaching event or the requests to the active module, clears them, and raises exactly the event its outcome stands for. |
| `SupervisorTask.SupervisorTask.Drain` | StateMachine/supervisor_task.c:677-691 | The loop over the queue leaves context and queue as the recursive definition of the message loop says. |
| `SupervisorTask.DrainedTakes` | StateMachine/supervisor_task.c:677-691 | The message loop takes messages from the front, in order, at most sixteen, and fewer only when the queue ran empty or a teaching event is pending. |
| `SupervisorTask.SupervisorTask.Cycle` | StateMachine/supervisor_task.c:658-703 | A cycle is the message loop followed by one step of the active module. |
| `SupervisorTask.SupervisorTask.Post` | StateMachine/supervisor_task.c:790-797 | A message is queued exactly when there is room, and changes nothing otherwise. |
| `SupervisorTask.HmiTask.Submit` | HMI/hmi_task.c:55-58 | An event is queued exactly when it is one and there is room. |
| `SupervisorTask.HmiTask.Fetch` | HMI/hmi_task.c:24-45 | A new event is taken exactly when none is retained, from the queue before the transport. |
| `SupervisorTask.HmiTask.Forward` | HMI/hmi_task.c:24-45 | The retained event is handed over once, or stays retained while the supervisor queue is full. |
| `SupervisorTask.HmiTask.Turn` | HMI/hmi_task.c:24-45 | One pass takes an event if none is retained and hands it to the supervisor's queue exactly when that has room. |

## Left out

- Floating-point rounding, NaN and infinities: arithmetic is exact, so the finiteness checks never fail here.
- NULL-pointer and allocation-failure branches: references are never null.
- SCurveProfile.SCurveProfile.Init: the profile's stored peak values and duration report, which come from the same formulas, are not kept.
- SCurveProfile.SCurveProfile.Evaluate: the segment number is not part of the sample.
- LineStream.SingleLineStream.Init: clears a previous motion by taking a fresh profile object where the code zeroes the embedded record; error texts are not kept.
- LineStream.TargetStep: carries the explicit slack of the lookup tolerance and of the gap guard, which the code has and the plain bound does not.
- LinearSolve.Solve: one method with the pivot threshold as a parameter stands for both the 6x6 and the 3x3 solver, which differ only in size and in the comparison at the threshold.
- Singularity.SigmaMin: the bound above the true smallest singular value depends on how far from diagonal the iteration stopped; after 120 iterations that is an explicit contraction, not a constant.
- Adls.Ik: forward kinematics, Jacobian and the pose error with its rotation logarithm are arbitrary functions of the configuration; convergence of the iteration is not claimed, and the configuration after iteration 1000 is returned without a further check, as in the code.
- CircularWaypoints.GenerateFullCircle: the forced last point is proved equal to the sampled one, so its overwrite is not visible in the samples.
- WorkspaceMonitor.Monitor.Init: the random sampling and forward kinematics that produce the points are inputs; the largest representable number is a parameter.
- StreamingRuns.CommittedInEveryRun: one drive cycle and each critical section are atomic; a plan's sample sequence, its limits and whether it initialises are arbitrary inputs, and its validation reports exactly these unless a cancellation cuts it short.
- StreamingStart.MotionBegins: the start position in encoder units is a whole number without the 32-bit bound of the drive's word.
- StreamingValidation.ValidateLine: written for the line stream; the circular stream has the same structure. The other maxima of the report (TCP speed, pose errors, iterations) are kept by the stream itself.
- SupervisorRuns.CommandsInEveryRun: assumes that only the HMI task posts HMI commands; everything else may be posted by anyone at any time.
- SupervisorRuns.FreshInEveryRun: an entered module counts as initialised, since the state modules themselves are not modelled.
- StreamingValidation.CommittedWasChecked: one robot, one set of limits and one buffer capacity serve all requests of a run.
- SupervisorTask.SupervisorTask.RunActiveState: outcomes of the state modules are arbitrary; of the input records of the moving modules only the HOME and RESET requests are kept; program identifiers, digital inputs and outputs, timestamps and telemetry are not kept, and the state machine is held as a value.
- ArcLength.FillKnots: the defensive branch for an empty list of knots cannot be reached, since 0 is always generated, and is not modelled.
- SupervisorTask.HmiTask.Submit: a caller that waits for room in the queue is modelled as calling again.
- `math3d.c`: matrix products, Euler angles, the rotation logarithm and rotation error are plain formulas and not modelled.
- `singularity_analyze`, the batch line planner outside its gradient and limit passes, and the peak-value loops of the quintic: they add only reports.
- `single_segment_circular.c` and `single_segment_circular_stream.c`: the same structure as the line pipeline.
- User interfaces, UDP packets, EtherCAT and SOEM wrappers, printing, robot configuration data and FreeRTOS internals.
