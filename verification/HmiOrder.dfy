/** Every event submitted to the HMI task is taken once, in order, and before anything from the transport. */
module HmiOrder {
  import opened SupervisorTask
  import opened SupervisorRuns

  predicate Real(e: HmiEvent) { e != NoHmiEvent && e != UnknownEvent }

  /** The submissions that were accepted: real events, while fewer than 32 were waiting. */
  function Submissions(steps: seq<Step>): seq<HmiEvent> {
    if steps == [] then []
    else
      var early, last := steps[..|steps| - 1], steps[|steps| - 1];
      var rest := Submissions(early);
      if last.SubmitStep? && Real(last.event) && |RunFrom(Start, early).hmi.queue| < 32 then rest + [last.event]
      else rest
  }

  /** In this pass the slot is empty and gets its event from the queue, or from the transport. */
  predicate Takes(s: System, step: Step, queued: bool) {
    step.FetchStep? && s.hmi.retained == NoHmiEvent && (s.hmi.queue != []) == queued
  }

  /** The events that the slot held right after such passes. */
  function Slots(steps: seq<Step>, queued: bool): seq<HmiEvent> {
    if steps == [] then []
    else
      var early := steps[..|steps| - 1];
      var rest := Slots(early, queued);
      if Takes(RunFrom(Start, early), steps[|steps| - 1], queued) then rest + [RunFrom(Start, steps).hmi.retained]
      else rest
  }

  /** What the transport offered in the passes that asked it. */
  function Offers(steps: seq<Step>): seq<HmiEvent> {
    if steps == [] then []
    else
      var early, last := steps[..|steps| - 1], steps[|steps| - 1];
      if Takes(RunFrom(Start, early), last, false) then Offers(early) + [last.received] else Offers(early)
  }

  lemma StepTakes(s: System, step: Step)
    ensures var t := Apply(s, step);
            && (Takes(s, step, true) ==> s.hmi.queue == [t.hmi.retained] + t.hmi.queue
                                         && t.taken == s.taken + [t.hmi.retained])
            && (Takes(s, step, false) ==> t.hmi.queue == s.hmi.queue && t.hmi.retained == step.received
                                          && t.taken == s.taken + [t.hmi.retained])
            && (step.SubmitStep? && Real(step.event) && |s.hmi.queue| < 32 ==>
                  t.hmi.queue == s.hmi.queue + [step.event] && t.taken == s.taken)
            && (!Takes(s, step, true) && !Takes(s, step, false)
                && !(step.SubmitStep? && Real(step.event) && |s.hmi.queue| < 32) ==>
                  t.hmi.queue == s.hmi.queue && t.taken == s.taken)
  {
    hide AfterStep, AfterMessage, Translate;
  }

  /**
   * In every run: the accepted submissions are those taken from the queue and those still waiting, in order;
   * the transport is asked only when nothing waits, and what it offers is what is taken.
   */
  lemma {:induction false} TakenInEveryRun(steps: seq<Step>)
    ensures var s := RunFrom(Start, steps);
            && Submissions(steps) == Slots(steps, true) + s.hmi.queue
            && Offers(steps) == Slots(steps, false)
            && multiset(s.taken) == multiset(Slots(steps, true)) + multiset(Slots(steps, false))
    decreases |steps|
  {
    hide Apply, Takes, Real;
    if steps == [] {
    } else {
      var early, last := steps[..|steps| - 1], steps[|steps| - 1];
      var s, t := RunFrom(Start, early), RunFrom(Start, steps);
      TakenInEveryRun(early);
      StepTakes(s, last);
      NeverBoth(s, last);
      var was := Slots(early, true);
      assert t == Apply(s, last);
      if Takes(s, last, true) {
        assert Submissions(steps) == Submissions(early);
        assert was + s.hmi.queue == (was + [t.hmi.retained]) + t.hmi.queue;
      } else if Takes(s, last, false) {
        assert Submissions(steps) == Submissions(early);
      } else if last.SubmitStep? && Real(last.event) && |s.hmi.queue| < 32 {
        assert was + (s.hmi.queue + [last.event]) == (was + s.hmi.queue) + [last.event];
      } else {
        assert Submissions(steps) == Submissions(early);
      }
    }
  }

  lemma NeverBoth(s: System, step: Step)
    ensures !(Takes(s, step, true) && Takes(s, step, false))
    ensures step.SubmitStep? ==> !Takes(s, step, true) && !Takes(s, step, false)
  {}
}
