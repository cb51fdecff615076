/**
  * The bus as the clients of libccec call it: the synchronous send with its retries, the
  * asynchronous send, start and stop, and the list of frame listeners.
  */
module Buses {
  import opened Osal
  import opened BusProtocol
  import opened Drivers
  import opened Lists

  const RETRY_MILLIS := 250

  /** What the native driver answers to one transmission: its error code and the send result. */
  datatype Reply = Reply(err: int, result: int)

  /** How one attempt to write ends when the driver is in the state `status`. */
  function Attempt(status: Status, frame: Frame, reply: Reply): Outcome
    requires frame != []
  {
    if status == Opened then SendOutcome(frame, reply.err, reply.result) else InvalidState
  }

  /** How many attempts a timeout leaves room for. */
  function Attempts(timeout: int): nat { if timeout <= 0 then 1 else timeout / 250 + 1 }

  class Bus<L(==)> {
    const driver: DriverImpl
    const wQueue: EventQueue<Entry>
    const reader: Stoppable
    const writer: Stoppable
    var started: bool
    var listeners: seq<L>

    /** The objects that belong to the bus. */
    ghost function Parts(): set<object>
    {
      {driver, driver.rQueue, driver.rQueue.cond, wQueue, wQueue.cond, reader, writer}
    }

    ghost predicate Valid()
      reads this, Parts()
    {
      && driver.Valid() && wQueue.Valid() && wQueue.nothing == Sentinel
      && wQueue != driver.rQueue && wQueue.cond != driver.rQueue.cond && reader != writer
    }

    /** Both threads are started at once. */
    constructor ()
      ensures Valid() && !started && listeners == [] && wQueue.events == []
      ensures driver.status == Closed && driver.addresses == [] && driver.native == []
      ensures reader.state == writer.state == Running
      ensures fresh(Parts())
    {
      driver := new DriverImpl();
      wQueue := new EventQueue<Entry>(Sentinel);
      reader := new Stoppable();
      writer := new Stoppable();
      started := false;
      listeners := [];
    }

    /**
      * The i-th attempt on the native driver gets `replies(i)`.  `calls` is how often the driver's
      * write was called and `slept` the milliseconds slept.  The attempts stop with the first that
      * succeeds, or when the timeout has no room for another; the last one gives the outcome.
      * A bus that is not started never calls the driver, yet sleeps the whole time.
      */
    method Send(frame: Frame, timeout: int, replies: nat -> Reply) returns (outcome: Outcome, calls: nat, slept: nat)
      requires Valid() && frame != []
      modifies driver`native
      ensures Valid()
      ensures started ==> 1 <= calls <= Attempts(timeout)
      ensures started ==> outcome == Attempt(driver.status, frame, replies(calls - 1))
      ensures started ==> forall i: nat | i < calls - 1 :: Attempt(driver.status, frame, replies(i)) != Done
      ensures started && calls < Attempts(timeout) ==> outcome == Done
      ensures started ==>
                forall k: nat | k < Attempts(timeout) && Attempt(driver.status, frame, replies(k)) == Done ::
                  calls <= k + 1
      ensures !started ==> outcome == InvalidState && calls == 0
      ensures slept == 250 * ((if started then calls else Attempts(timeout)) - 1)
      ensures timeout <= 0 ==> slept == 0
      ensures timeout > 0 ==> slept <= timeout
      ensures driver.native == old(driver.native) + TxCalls(driver.status, frame, calls)
    {
      outcome, calls, slept := Done, 0, 0;
      if timeout <= 0 {
        if !started {
          return InvalidState, 0, 0;
        }
        outcome := driver.Write(frame, replies(0).err, replies(0).result);
        OneMore(old(driver.native), driver.status, frame, 0);
        return outcome, 1, 0;
      }
      var retry := timeout / RETRY_MILLIS;
      while true
        invariant Valid() && 0 <= retry <= timeout / RETRY_MILLIS
        invariant slept == RETRY_MILLIS * (timeout / RETRY_MILLIS - retry)
        invariant calls == if started then timeout / RETRY_MILLIS - retry else 0
        invariant started ==> forall i: nat | i < calls :: Attempt(driver.status, frame, replies(i)) != Done
        invariant driver.native == old(driver.native) + TxCalls(driver.status, frame, calls)
        decreases retry
      {
        if !started {
          outcome := InvalidState;
        } else {
          outcome := driver.Write(frame, replies(calls).err, replies(calls).result);
          OneMore(old(driver.native), driver.status, frame, calls);
          calls := calls + 1;
        }
        if outcome == Done || retry == 0 {
          return;
        }
        slept := slept + RETRY_MILLIS;
        retry := retry - 1;
      }
    }

    method SendAsync(frame: Frame) returns (outcome: Outcome)
      requires Valid()
      modifies wQueue, wQueue.cond
      ensures Valid()
      ensures outcome == if started then Done else InvalidState
      ensures wQueue.events ==
              old(wQueue.events) + if started && |old(wQueue.events)| < 32 then [Ptr(frame)] else []
      ensures forall sh: Shared | sh.wQueue == old(wQueue.events) ::
                wQueue.events == if started then PutOutgoing(sh, frame).wQueue else sh.wQueue
    {
      if !started {
        return InvalidState;
      }
      wQueue.Offer(Ptr(frame));
      return Done;
    }

    method AddFrameListener(listener: L) returns (outcome: Outcome)
      modifies this`listeners
      ensures outcome == if started then Done else InvalidState
      ensures listeners == if started then old(listeners) + [listener] else old(listeners)
    {
      if !started {
        return InvalidState;
      }
      listeners := listeners + [listener];
      return Done;
    }

    method RemoveFrameListener(listener: L) returns (outcome: Outcome)
      modifies this`listeners
      ensures outcome == if started then Done else InvalidState
      ensures listeners == if started then Without(old(listeners), listener) else old(listeners)
    {
      if !started {
        return InvalidState;
      }
      var kept := RemoveAll(listeners, listener);
      listeners := kept;
      return Done;
    }

    /** A thread that has stopped is created anew, and begins to run; then the driver is opened. */
    method Start(nativeOk: bool) returns (outcome: Outcome)
      requires Valid()
      modifies this`started, driver`status, driver`native, reader, writer
      ensures Valid()
      ensures forall sh :: (driver.In(sh), outcome == Done) == OpenRegion(old(driver.In(sh)), nativeOk)
      ensures outcome == Done || outcome == IOFailure
      ensures driver.status == if old(driver.status) == Closed && nativeOk then Opened else old(driver.status)
      ensures outcome == Done <==> old(driver.status) != Closed || nativeOk
      ensures started == (old(started) || outcome == Done)
      ensures reader.state == if old(reader.state) == Stopped then Running else old(reader.state)
      ensures writer.state == if old(writer.state) == Stopped then Running else old(writer.state)
    {
      if reader.IsStopped() {
        reader.RunStarted();
      }
      if writer.IsStopped() {
        writer.RunStarted();
      }
      outcome := driver.Open(nativeOk);
      if outcome == Done {
        started := true;
      }
    }

    /** The end of the writer's run: what is still queued is deleted, and then the thread has stopped. */
    method DrainAndStop() returns (drained: seq<Entry>)
      requires Valid()
      modifies wQueue, wQueue.cond, writer
      ensures Valid() && writer.state == Stopped
      ensures drained == old(wQueue.events) && wQueue.events == []
    {
      drained := [];
      var n := wQueue.Size();
      while n > 0
        invariant Valid() && n == |wQueue.events|
        invariant drained + wQueue.events == old(wQueue.events)
      {
        MoveOver(drained, wQueue.events);
        var entry := wQueue.Poll();
        drained := drained + [entry];
        n := wQueue.Size();
      }
      writer.StopCompleted();
    }

    /**
      * The stop of the reader closes the driver, and stop does once more.  Where stop waits for a
      * thread, the thread takes the steps it has left; whether the reader's come to an end is the
      * matter of BusFate.  If the native close fails the exception leaves the threads unwaited for.
      */
    method Stop(nativeOk: bool) returns (outcome: Outcome)
      requires Valid()
      modifies this`started, driver`status, driver`native, driver.rQueue, driver.rQueue.cond
      modifies reader, writer, wQueue, wQueue.cond
      ensures Valid() && !started
      ensures outcome == Done || outcome == IOFailure
      ensures outcome == Done <==> old(driver.status) != Opened || nativeOk
      ensures driver.status ==
                if old(driver.status) != Opened then old(driver.status) else if nativeOk then Closed else Closing
      ensures driver.native ==
              old(driver.native) + if old(driver.status) == Opened then [NativeCall.Close(nativeOk)] else []
      ensures outcome == Done ==> reader.state == writer.state == Stopped
      ensures outcome == Done && old(writer.state) != Stopped ==> forall e | e in wQueue.events :: e == Sentinel
      ensures outcome != Done ==>
                reader.state == StopRequested(old(reader.state)) && writer.state == old(writer.state)
                && wQueue.events == old(wQueue.events)
    {
      started := false;
      reader.StopStarted();
      outcome := driver.Close(nativeOk);
      if outcome != Done {
        return;
      }
      if !reader.IsStopped() {
        reader.StopCompleted();
      }
      if writer.IsRunning() {
        writer.StopStarted();
        wQueue.Offer(Sentinel);
      }
      if !writer.IsStopped() {
        var _ := DrainAndStop();
      }
      outcome := driver.Close(nativeOk);
    }
  }

  /** The native calls that `n` calls of Driver::write with this frame make. */
  function TxCalls(status: Status, frame: Frame, n: nat): seq<NativeCall>
  {
    if status == Opened then seq(n, _ => Tx(frame)) else []
  }

  lemma OneMore(before: seq<NativeCall>, status: Status, frame: Frame, n: nat)
    ensures before + TxCalls(status, frame, n + 1) ==
            before + TxCalls(status, frame, n) + if status == Opened then [Tx(frame)] else []
    ensures before + TxCalls(status, frame, 0) == before
  {
  }
}
