/**
  * The thread-support classes of osal: Stoppable, ConditionVariable and EventQueue, each as one
  * thread sees it.  How several threads interleave inside them is the matter of QueueProtocol.
  */
module Osal {

  datatype Option<+T> = None | Some(value: T)

  // ------------------------------------------------------------------ Stoppable

  datatype RunState = Running | Stopping | Stopped

  /** The transition of `stopStarted`: a thread that is not running is left alone. */
  function StopRequested(state: RunState): RunState
  {
    if state == Running then Stopping else state
  }

  class Stoppable {
    var state: RunState

    constructor ()
      ensures state == Running
    {
      state := Running;
    }

    method RunStarted()
      modifies this
      ensures state == Running
    {
      state := Running;
    }

    method StopStarted()
      modifies this
      ensures state == StopRequested(old(state))
    {
      if state == Running {
        state := Stopping;
      }
    }

    method StopCompleted()
      modifies this
      ensures state == Stopped
    {
      state := Stopped;
    }

    predicate IsRunning() reads this { state == Running }
    predicate IsStopped() reads this { state == Stopped }
  }

  // ------------------------------------------------------------------ ConditionVariable

  const NANOS_PER_SECOND: nat := 1_000_000_000
  const NANOS_PER_MILLI: nat := 1_000_000

  datatype TimeSpec = TimeSpec(seconds: nat, nanos: nat)

  /** Absolute time in nanoseconds. */
  function Nanos(t: TimeSpec): nat
  {
    t.seconds * NANOS_PER_SECOND + t.nanos
  }

  class ConditionVariable {
    var isSet: bool

    constructor ()
      ensures !isSet
    {
      isSet := false;
    }

    method Set()
      modifies this
      ensures isSet
    {
      isSet := true;
    }

    method Reset()
      modifies this
      ensures !isSet
    {
      isSet := false;
    }

    /** `notifyAll` sets the flag again before it broadcasts. */
    method NotifyAll()
      modifies this
      ensures isSet
    {
      isSet := true;
    }

    /** Comes back at once when the flag is set, else when the sleeper is woken; keeps the flag. */
    method Wait()
    {
    }

    /**
      * The wake time of a timed wait.  The sum of nanoseconds stays below two seconds, so it fits
      * a 32-bit long and one subtraction is enough.  The test against one second is strict, so
      * exactly a sum of one second escapes it and leaves a time that is not normalised.
      */
    method WakeTime(seconds: nat, micros: nat, timeout: nat) returns (wake: TimeSpec, sum: nat)
      requires micros < 1_000_000 && timeout > 0
      ensures Nanos(wake) == 1_000_000_000 * seconds + 1_000 * micros + 1_000_000 * timeout
      ensures sum == micros * 1_000 + timeout % 1_000 * 1_000_000
      ensures sum < 2_000_000_000 < 0x8000_0000
      ensures wake.nanos <= 1_000_000_000
      ensures wake.nanos < 1_000_000_000 <==> sum != 1_000_000_000
    {
      wake := TimeSpec(0, 0);
      wake := wake.(nanos := micros * 1000 + timeout % 1000 * 1000000);
      sum := wake.nanos;
      wake := wake.(seconds := seconds + timeout / 1000);
      if wake.nanos > 1000000000 {
        wake := wake.(nanos := wake.nanos - 1000000000);
        wake := wake.(seconds := wake.seconds + 1);
      }
      assert timeout == timeout / 1000 * 1000 + timeout % 1000;
    }
  }

  /** The wake times that are not normalised: one whole second of nanoseconds from these operands. */
  lemma UnnormalisedWakeTimes(micros: nat, timeout: nat)
    requires micros < 1_000_000
    ensures micros * 1_000 + timeout % 1_000 * 1_000_000 == 1_000_000_000
            <==> micros > 0 && micros % 1000 == 0 && timeout % 1000 == 1000 - micros / 1000
  {
    assert micros == micros / 1000 * 1000 + micros % 1000;
  }

  // ------------------------------------------------------------------ EventQueue

  const CAPACITY: nat := 32

  /** An offer to a full queue is dropped without a word. */
  function Offered<E>(events: seq<E>, e: E): seq<E>
  {
    if |events| >= CAPACITY then events else events + [e]
  }

  class EventQueue<E> {
    const nothing: E  // what a default-constructed element is: the null pointer
    const cond: ConditionVariable
    var events: seq<E>

    /** The flag is sticky: it tells whether there is something to poll. */
    ghost predicate Valid()
      reads this, cond
    {
      |events| <= CAPACITY && (cond.isSet <==> events != [])
    }

    constructor (nothing: E)
      ensures Valid() && events == [] && this.nothing == nothing && fresh(cond)
    {
      this.nothing := nothing;
      cond := new ConditionVariable();
      events := [];
    }

    method Size() returns (n: nat)
      requires Valid()
      ensures n == |events|
    {
      n := |events|;
    }

    method Offer(e: E)
      requires Valid()
      modifies this, cond
      ensures Valid() && events == Offered(old(events), e)
      ensures events == old(events) + if |old(events)| < 32 then [e] else []
    {
      if |events| == CAPACITY {
      } else {
        events := events + [e];
        cond.Set();
        cond.NotifyAll();
      }
    }

    /** Takes the oldest event; a sleeper woken without an event gets nothing and takes nothing. */
    method Poll() returns (front: E)
      requires Valid()
      modifies this, cond
      ensures Valid()
      ensures old(events) == [] ==> front == nothing && events == []
      ensures old(events) != [] ==> front == old(events)[0] && events == old(events)[1..]
    {
      cond.Wait();
      if !cond.isSet || events == [] {
        return nothing;
      }
      front := events[0];
      events := events[1..];
      if events == [] {
        cond.Reset();
      }
    }
  }
}
