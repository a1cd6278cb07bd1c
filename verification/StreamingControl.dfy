/**
 * The planner / drive-cycle protocol of the streaming controller.
 *
 * The planner may be interrupted anywhere outside its critical sections, so each of its
 * critical sections and local computations is one step; a drive cycle has the higher priority
 * and is one step.  A run is any sequence of such steps and of interrupt signals.
 */
module StreamingControl {
  import B = TrajectoryBuffer

  type Joints = B.Joints

  const CAPACITY := 256
  const PREFILL := 128

  datatype Option<T> = None | Some(value: T)

  datatype MotionState = Waiting | Planning | Preposition | Running | Finished | Hold

  /** The variables both tasks share. */
  datatype Shared = Shared(
    motion: MotionState, hold: bool, busy: bool, cancel: bool,
    ready: bool, generationFinished: bool, underrun: bool,
    start: Option<Joints>, final: Option<Joints>,
    total: nat, executed: nat, index: nat, buffer: seq<Joints>)

  const Initially := Shared(Waiting, true, false, false, false, false, false, None, None, 0, 0, 0, [])

  // ---- the critical sections ----

  function ResetForNewPlan(): Shared {
    Shared(Planning, false, true, false, false, false, false, None, None, 0, 0, 0, [])
  }

  function Stopped(x: Shared): Shared {
    x.(hold := true, cancel := true, ready := false, generationFinished := false, buffer := [], motion := Hold)
  }

  function Aborted(x: Shared, preserveHold: bool): Shared {
    x.(buffer := [], ready := false, generationFinished := false, start := None, final := None,
       total := 0, executed := 0, index := 0, hold := true, busy := false,
       motion := if preserveHold then Hold else Waiting)
  }

  function Begun(x: Shared, total: nat): Shared {
    x.(total := total, executed := 0, index := 0, generationFinished := false,
       start := None, final := None, ready := false, underrun := false)
  }

  function Announced(x: Shared): Shared {
    x.(ready := true, motion := if !x.hold && x.motion != Hold then Preposition else x.motion)
  }

  /** A generated sample reaches the buffer; `None` when it is unexpectedly full. */
  function Published(x: Shared, q: Joints, isFinal: bool): Option<Shared> {
    if |x.buffer| >= CAPACITY then None
    else
      var a := x.(start := if x.start.None? then Some(q) else x.start, buffer := x.buffer + [q]);
      var b := if isFinal then a.(final := Some(q), generationFinished := true) else a;
      Some(if !b.ready && (|b.buffer| >= PREFILL || b.generationFinished) then Announced(b) else b)
  }

  function ProducerDone(x: Shared): Shared {
    (if x.generationFinished && !x.ready && x.start.Some? then Announced(x) else x).(busy := false)
  }

  function Underrun(x: Shared): Shared {
    x.(underrun := true, ready := false, hold := true, cancel := true, motion := Hold)
  }

  function Consumed(x: Shared): Shared
    requires x.buffer != []
  {
    x.(buffer := x.buffer[1..], index := x.executed, executed := x.executed + 1)
  }

  predicate LastConsumed(x: Shared) {
    x.generationFinished && x.buffer == [] && x.executed >= x.total
  }

  function Started(x: Shared): Shared {
    x.(index := 0, executed := 0, motion := Running)
  }

  /** The same sections on the controller's variables and its ring buffer. */
  class Controller {
    const ring: B.TrajectoryBuffer
    var motion: MotionState
    var hold: bool
    var busy: bool
    var cancel: bool
    var ready: bool
    var generationFinished: bool
    var underrun: bool
    var start: Option<Joints>
    var final: Option<Joints>
    var total: nat
    var executed: nat
    var index: nat

    ghost predicate Valid()
      reads this, ring, ring.storage
    {
      ring.Valid() && ring.storage.Length == CAPACITY
    }

    ghost function View(): Shared
      requires Valid()
      reads this, ring, ring.storage
    {
      Shared(motion, hold, busy, cancel, ready, generationFinished, underrun, start, final, total, executed, index,
          ring.Contents())
    }

    constructor ()
      ensures Valid() && View() == Initially
    {
      ring := new B.TrajectoryBuffer(CAPACITY);
      motion, hold, busy, cancel := Waiting, true, false, false;
      ready, generationFinished, underrun := false, false, false;
      start, final, total, executed, index := None, None, 0, 0, 0;
    }

    method Reset()
      requires Valid()
      modifies this, ring
      ensures Valid() && View() == ResetForNewPlan()
    {
      cancel := false;
      ring.Reset();
      ready, generationFinished, underrun := false, false, false;
      start, final := None, None;
      total, executed, index := 0, 0, 0;
      hold, busy, motion := false, true, Planning;
    }

    method Stop()
      requires Valid()
      modifies this, ring
      ensures Valid() && View() == Stopped(old(View()))
    {
      hold, cancel, ready, generationFinished := true, true, false, false;
      ring.Reset();
      motion := Hold;
    }

    method Abort(preserveHold: bool)
      requires Valid()
      modifies this, ring
      ensures Valid() && View() == Aborted(old(View()), preserveHold)
    {
      ring.Reset();
      ready, generationFinished := false, false;
      start, final := None, None;
      total, executed, index := 0, 0, 0;
      hold, busy := true, false;
      motion := if preserveHold then Hold else Waiting;
    }

    method Begin(totalSamples: nat)
      requires Valid()
      modifies this
      ensures Valid() && View() == Begun(old(View()), totalSamples)
    {
      total, executed, index := totalSamples, 0, 0;
      generationFinished, start, final, ready, underrun := false, None, None, false, false;
    }

    method Announce()
      requires Valid()
      modifies this
      ensures Valid() && View() == Announced(old(View()))
    {
      ready := true;
      if !hold && motion != Hold {
        motion := Preposition;
      }
    }

    /** The producer asks before it computes the next sample; while there is room nothing published is refused. */
    method RingFull() returns (full: bool)
      requires Valid()
      ensures full == (|View().buffer| >= CAPACITY)
      ensures !full ==> forall q, isFinal :: Published(View(), q, isFinal).Some?
    {
      full := ring.IsFull();
    }

    method Publish(q: Joints, isFinal: bool) returns (ok: bool)
      requires Valid()
      modifies this, ring, ring.storage
      ensures Valid() && ok == Published(old(View()), q, isFinal).Some?
      ensures ok ==> View() == Published(old(View()), q, isFinal).value
    {
      if start.None? {
        start := Some(q);
      }
      ok := ring.Push(q);
      if !ok {
        return;
      }
      if isFinal {
        final, generationFinished := Some(q), true;
      }
      if !ready && start.Some? && (ring.count >= PREFILL || generationFinished) {
        Announce();
      }
    }

    method FinishProducer()
      requires Valid()
      modifies this
      ensures Valid() && View() == ProducerDone(old(View()))
    {
      if generationFinished && !ready && start.Some? {
        Announce();
      }
      busy := false;
    }

    /** The next sample without removing it, or an underrun. */
    method PeekOrUnderrun() returns (has: bool, q: Joints)
      requires Valid()
      modifies this
      ensures Valid() && has == (old(View()).buffer != []) && (has ==> q == old(View()).buffer[0])
      ensures View() == if has || old(View()).generationFinished then old(View()) else Underrun(old(View()))
    {
      has, q := ring.Peek();
      if !has && !generationFinished {
        underrun, ready, hold, cancel := true, false, true, true;
        motion := Hold;
      }
    }

    method Consume() returns (ok: bool, last: bool)
      requires Valid()
      modifies this, ring
      ensures Valid() && ok == (old(View()).buffer != [])
      ensures ok ==> View() == Consumed(old(View())) && last == LastConsumed(View())
      ensures !ok ==> View() == old(View()) && !last
    {
      last := false;
      var q;
      ok, q := ring.Pop();
      if ok {
        index := executed;
        executed := executed + 1;
        last := generationFinished && ring.IsEmpty() && executed >= total;
      }
    }
  }
}
