/**
  * Who keeps Bus::stop waiting?  It waits for the reader while it holds rMutex and wMutex.  A reader
  * that holds a frame and wants rMutex, or that has crashed, never comes; otherwise the chain of
  * waiting threads that starts at stop ends at a thread that can move, and the waits are bounded.
  * Which of these a stop is to meet is decided earlier: see BusFate.
  */
module BusStop {
  import opened Osal
  import opened BusProtocol
  import opened BusInvariant

  function GoOn(t: Thread): Action
  {
    match t
    case Control => ControlStep(Go)
    case Reader => ReaderStep(Go)
    case Writer => WriterStep(Go)
    case Client(i) => ClientStep(i, Go)
  }

  predicate CanGo(s: State, t: Thread) { Next(s, GoOn(t)).Some? }

  /** The thread that holds the mutex a move needs. */
  function Blocker<P>(s: State, m: Option<Move<P>>): Option<Thread>
  {
    match m
    case None => None
    case Some(m) => if m.r == Acquire && s.r.Some? then s.r else if m.w == Acquire && s.w.Some? then s.w
                    else if m.d == Acquire then s.d else None
  }

  /** Whom `t` waits for: the holder of a mutex, or the thread whose state stop polls. */
  function WaitsFor(s: State, t: Thread): Option<Thread>
  {
    match t
    case Control =>
      if s.control.WaitReader? && s.sh.readerRun != Stopped then Some(Reader)
      else if s.control.WaitWriter? && s.sh.writerRun != Stopped then Some(Writer)
      else Blocker(s, ControlMove(s.control, Go, s.sh))
    case Reader => Blocker(s, ReaderMove(s.reader, Go, s.sh))
    case Writer => Blocker(s, WriterMove(s.writer, Go, s.sh))
    case Client(i) => if i in s.clients then Blocker(s, ClientMove(s.clients[i], Go, s.sh)) else None
  }

  /** Following whom `t` waits for, at most `n` times, ends at a thread that can move. */
  predicate Live(s: State, t: Thread, n: nat)
    decreases n
  {
    CanGo(s, t) || (n > 0 && WaitsFor(s, t).Some? && Live(s, WaitsFor(s, t).value, n - 1))
  }

  /** Stop waits, under rMutex, for a reader that waits for rMutex. */
  predicate Embrace(s: State) { s.control.WaitReader? && s.reader.Have? }

  // ------------------------------------------------------------- progress

  lemma HolderOfDCanGo(s: State, t: Thread)
    requires Inv(s) && s.d == Some(t) && !s.reader.Crashed?
    ensures CanGo(s, t)
  {
    hide DriverOk, WakeOk, QuietOk, FlowOk, ThreadsOk;
    assert HoldsD(s, t);
  }

  /** A thread that needs the driver's mutex next can move, or its holder can. */
  lemma NeedsD(s: State, t: Thread)
    requires Inv(s) && !s.reader.Crashed?
    requires CanGo(s, t) || (WaitsFor(s, t).Some? && WaitsFor(s, t) == s.d)
    ensures Live(s, t, 1)
  {
    if !CanGo(s, t) {
      HolderOfDCanGo(s, s.d.value);
      assert Live(s, s.d.value, 0);
    }
  }

  lemma HolderOfWIsLive(s: State, t: Thread)
    requires Inv(s) && s.w == Some(t) && t != Control && !s.reader.Crashed?
    ensures Live(s, t, 1)
  {
    hide DriverOk, WakeOk, QuietOk, FlowOk, ThreadsOk;
    assert HoldsW(s, t);
    NeedsD(s, t);
  }

  lemma HolderOfRIsLive(s: State, t: Thread)
    requires Inv(s) && s.r == Some(t) && t != Control && !s.reader.Crashed?
    ensures Live(s, t, 2)
  {
    hide DriverOk, WakeOk, QuietOk, FlowOk, ThreadsOk;
    assert HoldsR(s, t);
    if s.w == Some(t) {
      HolderOfWIsLive(s, t);
    } else if !CanGo(s, t) {
      assert !HoldsW(s, t);
      assert !ControlW(s.control) by { ControlWNeedsR(s); }
      HolderOfWIsLive(s, s.w.value);
    }
  }

  lemma ControlWNeedsR(s: State)
    requires Exclusive(s) && s.r != Some(Control)
    ensures !ControlW(s.control) && s.w != Some(Control)
  {
    assert HoldsR(s, Control) <==> s.r == Some(Control);
    assert HoldsW(s, Control) <==> s.w == Some(Control);
  }

  lemma LiveLonger(s: State, t: Thread, n: nat)
    requires Live(s, t, n)
    ensures Live(s, t, n + 1)
    decreases n
  {
    if !CanGo(s, t) {
      LiveLonger(s, WaitsFor(s, t).value, n - 1);
    }
  }

  /** While stop polls the reader's state, the reader is neither asleep nor in a listener. */
  lemma WaitedReaderIsLive(s: State)
    requires Inv(s) && s.control.WaitReader? && s.sh.readerRun != Stopped && !s.reader.Crashed? && !s.reader.Have?
    ensures Live(s, Reader, 1)
  {
    hide FlowOk, QuietOk;
    assert HoldsR(s, Control);
    assert !HoldsR(s, Reader);
    NeedsD(s, Reader);
  }

  lemma WaitedWriterIsLive(s: State)
    requires Inv(s) && s.control.WaitWriter? && s.sh.writerRun != Stopped && !s.reader.Crashed?
    ensures Live(s, Writer, 1)
  {
    hide FlowOk, QuietOk, DriverOk;
    NeedsD(s, Writer);
  }

  lemma ControlIsLive(s: State)
    requires Inv(s) && !s.control.ControlIdle? && !s.reader.Crashed? && !Embrace(s)
    ensures Live(s, Control, 3)
  {
    hide ThreadsOk, DriverOk, WakeOk, QuietOk, FlowOk;
    if !CanGo(s, Control) {
      if s.control.WaitReader? {
        WaitedReaderIsLive(s);
        LiveLonger(s, Reader, 1);
      } else if s.control.WaitWriter? {
        WaitedWriterIsLive(s);
        LiveLonger(s, Writer, 1);
      } else {
        ControlWaitsForAMutex(s);
      }
    }
  }

  lemma ControlWaitsForAMutex(s: State)
    requires Inv(s) && !s.control.ControlIdle? && !s.reader.Crashed? && !CanGo(s, Control)
    requires !s.control.WaitReader? && !s.control.WaitWriter?
    ensures Live(s, Control, 3)
  {
    hide ThreadsOk, DriverOk, WakeOk, QuietOk, FlowOk;
    var t := WaitsFor(s, Control);
    assert t.Some? && (t == s.r || t == s.w || t == s.d) && t.value != Control by { ControlNeeds(s); }
    if t == s.r {
      HolderOfRIsLive(s, t.value);
    } else if t == s.w {
      HolderOfWIsLive(s, t.value);
      LiveLonger(s, t.value, 1);
    } else {
      HolderOfDCanGo(s, t.value);
      assert Live(s, t.value, 0);
      LiveLonger(s, t.value, 0);
      LiveLonger(s, t.value, 1);
    }
  }

  lemma ControlNeeds(s: State)
    requires Exclusive(s) && !s.control.ControlIdle? && !CanGo(s, Control)
    requires !s.control.WaitReader? && !s.control.WaitWriter?
    ensures var t := WaitsFor(s, Control);
            t.Some? && (t == s.r || t == s.w || t == s.d) && t.value != Control
  {
    var m := ControlMove(s.control, Go, s.sh);
    assert m.Some? && !MayMove(s, m.value);
    ControlBalanced(s.control, Go, s.sh);
    assert HoldsR(s, Control) <==> s.r == Some(Control);
    assert HoldsW(s, Control) <==> s.w == Some(Control);
    assert HoldsD(s, Control) <==> s.d == Some(Control);
  }

  /**
    * Once stop has closed the driver the reader is never asleep on an empty queue, though a full
    * queue drops the sentinel; and once stop has asked the writer, neither is the writer.
    */
  lemma NobodySleepsThroughStop(clients: set<nat>, actions: seq<Action>)
    requires Run(Initial(clients), actions).Some?
    ensures var s := Run(Initial(clients), actions).value;
            && (s.control.WaitReader? && s.reader.ReaderPoll? ==> s.sh.rQueue != [])
            && (s.control.WaitWriter? && s.writer.WriterPoll? ==> s.sh.wQueue != [])
  {
    hide Run, Exclusive, FlowOk, QuietOk;
    ReachableInv(clients, actions);
  }

  // ------------------------------------------------------------- the embrace

  /** Stop waits for a reader that is in the embrace with it, or has crashed. */
  predicate Blocked(s: State) { s.control.WaitReader? && (s.reader.Have? || s.reader.Crashed?) }

  lemma {:induction false} BlockedIsNotLive(s: State, t: Thread, n: nat)
    requires Inv(s) && Blocked(s) && (t == Control || t == Reader)
    ensures !Live(s, t, n)
    decreases n
  {
    hide DriverOk, WakeOk, QuietOk, FlowOk;
    assert HoldsR(s, Control);
    assert s.r == Some(Control);
    if n > 0 {
      BlockedIsNotLive(s, Control, n - 1);
      BlockedIsNotLive(s, Reader, n - 1);
    }
  }

  /**
    * Who keeps init or term from moving now.  Unless stop waits for a reader that holds a frame or
    * has crashed, the threads it waits for, one for the other, end at one that can move.  (A crashed
    * reader keeps the driver's mutex; of the other places that want it nothing is said.)
    */
  lemma StopProgress(clients: set<nat>, actions: seq<Action>)
    requires Run(Initial(clients), actions).Some?
    ensures var s := Run(Initial(clients), actions).value;
            !s.control.ControlIdle? && (s.reader.Crashed? ==> s.control.WaitReader?) ==>
              (Live(s, Control, 3) <==> !Blocked(s)) && (Blocked(s) ==> forall n: nat :: !Live(s, Control, n))
  {
    hide Inv, Live, Run, Blocked, Embrace;
    ReachableInv(clients, actions);
    var s := Run(Initial(clients), actions).value;
    if !s.control.ControlIdle? && (s.reader.Crashed? ==> s.control.WaitReader?) {
      if Blocked(s) {
        forall n: nat
          ensures !Live(s, Control, n)
        {
          BlockedIsNotLive(s, Control, n);
        }
      } else {
        NotBlocked(s);
        ControlIsLive(s);
      }
    }
  }

  lemma NotBlocked(s: State)
    requires !Blocked(s) && (s.reader.Crashed? ==> s.control.WaitReader?)
    ensures !Embrace(s) && !s.reader.Crashed?
  {
  }

  lemma EmbraceStep(s: State, a: Action)
    requires Inv(s) && Embrace(s) && Next(s, a).Some?
    ensures Embrace(Next(s, a).value)
  {
    hide DriverOk, WakeOk, QuietOk, FlowOk, StageOk;
    hide ClientMove, WriterMove;
    assert HoldsR(s, Control);
    assert s.r == Some(Control);
  }

  /** And from the embrace there is no way out: no run leads from it to a finished stop. */
  lemma {:induction false} EmbraceIsForever(s: State, actions: seq<Action>)
    requires Inv(s) && Embrace(s) && Run(s, actions).Some?
    ensures Embrace(Run(s, actions).value)
    decreases |actions|
  {
    if actions != [] {
      hide Inv, Embrace, Next;
      EmbraceStep(s, actions[0]);
      NextInv(s, actions[0]);
      EmbraceIsForever(Next(s, actions[0]).value, actions[1..]);
    }
  }

  // ------------------------------------------------------------- how long stop waits

  /** Steps before the reader has exited, not counting the entries it has to flush. */
  function ReaderDistance(pc: ReaderPc): nat
  {
    match pc
    case ReaderLeaving => 1
    case ReaderLoop => 2
    case ReadTest => 3
    case Flush => 3
    case ReadD => 4
    case NullTest => 4
    case NullD => 5
    case ReaderPoll => 6
    case _ => 0
  }

  function ReaderMeasure(s: State): nat
  {
    ReaderDistance(s.reader) + |s.sh.rQueue| + |s.sh.inFlight|
  }

  function WriterDistance(pc: WriterPc): nat
  {
    match pc
    case WriterExited => 0
    case WriterLeaving => 1
    case Drain => 2
    case DrainDelete(_) => 3
    case WriterLoop => 3
    case Delete(_) => 4
    case WriteTx(_) => 5
    case WriteD(_) => 6
    case WriterPoll => 7
  }

  function WriterMeasure(s: State): nat
  {
    WriterDistance(s.writer) + 2 * |s.sh.wQueue|
  }

  lemma ReaderStepShortens(s: State, choice: Choice)
    requires Inv(s) && s.control.WaitReader? && !Embrace(s) && Next(s, ReaderStep(choice)).Some?
    ensures ReaderMeasure(Next(s, ReaderStep(choice)).value) < ReaderMeasure(s)
  {
    hide FlowOk, QuietOk;
    assert HoldsR(s, Control);
    assert !HoldsR(s, Reader);
  }

  lemma OthersDoNotLengthenReader(s: State, a: Action)
    requires Inv(s) && s.control.WaitReader? && Next(s, a).Some? && !a.ControlStep? && !a.ReaderStep?
    ensures ReaderMeasure(Next(s, a).value) <= ReaderMeasure(s)
    ensures Next(s, a).value.control.WaitReader? && Next(s, a).value.reader == s.reader
  {
    hide FlowOk, QuietOk, WakeOk, Exclusive, StageOk, LifeOk, ReaderDistance;
    match a
    case WriterStep(choice) => WriterLeavesIncoming(s.writer, choice, s.sh);
    case ClientStep(id, choice) => ClientStaysInFrame(s.clients[id], choice, s.sh);
    case CallbackSees(_) =>
    case CallbackOffers(_) =>
  }

  lemma WriterLeavesIncoming(w: WriterPc, choice: Choice, sh: Shared)
    requires WriterMove(w, choice, sh).Some?
    ensures var sh' := WriterMove(w, choice, sh).value.sh; sh'.rQueue == sh.rQueue && sh'.inFlight == sh.inFlight
  {
  }

  function ReaderSteps(actions: seq<Action>): nat
  {
    if actions == [] then 0 else (if actions[0].ReaderStep? then 1 else 0) + ReaderSteps(actions[1..])
  }

  function WriterSteps(actions: seq<Action>): nat
  {
    if actions == [] then 0 else (if actions[0].WriterStep? then 1 else 0) + WriterSteps(actions[1..])
  }

  predicate WithoutControl(actions: seq<Action>) { forall i | 0 <= i < |actions| :: !actions[i].ControlStep? }

  /**
    * While stop polls the reader's state the reader takes no more steps than its measure, whatever
    * everybody else does in between; with StopProgress, after them it is STOPPED, in the embrace, or
    * has crashed.
    */
  lemma {:induction false} ReaderStopsInBoundedSteps(s: State, actions: seq<Action>)
    requires Inv(s) && s.control.WaitReader? && WithoutControl(actions) && Run(s, actions).Some?
    ensures var s' := Run(s, actions).value;
            Embrace(s') || ReaderSteps(actions) + ReaderMeasure(s') <= ReaderMeasure(s)
    decreases |actions|
  {
    if actions != [] {
      hide Inv, Next, ReaderMeasure;
      var s1 := Next(s, actions[0]).value;
      NextInv(s, actions[0]);
      if Embrace(s) {
        EmbraceIsForever(s, actions);
      } else {
        if actions[0].ReaderStep? {
          ReaderStepShortens(s, actions[0].choice);
          assert s1.control.WaitReader? by { ReaderStepKeepsControl(s, actions[0].choice); }
        } else {
          OthersDoNotLengthenReader(s, actions[0]);
        }
        ReaderStopsInBoundedSteps(s1, actions[1..]);
      }
    }
  }

  lemma ReaderStepKeepsControl(s: State, choice: Choice)
    requires Next(s, ReaderStep(choice)).Some?
    ensures Next(s, ReaderStep(choice)).value.control == s.control
  {
  }

  lemma WriterStepShortens(s: State, choice: Choice)
    requires Inv(s) && s.control.WaitWriter? && Next(s, WriterStep(choice)).Some?
    ensures WriterMeasure(Next(s, WriterStep(choice)).value) < WriterMeasure(s)
    ensures Next(s, WriterStep(choice)).value.control == s.control
  {
    hide FlowOk, QuietOk, Exclusive, DriverOk;
  }

  lemma OthersDoNotLengthenWriter(s: State, a: Action)
    requires Inv(s) && s.control.WaitWriter? && Next(s, a).Some? && !a.ControlStep? && !a.WriterStep?
    ensures WriterMeasure(Next(s, a).value) <= WriterMeasure(s)
    ensures Next(s, a).value.control.WaitWriter?
  {
    hide FlowOk, WakeOk, Exclusive, StageOk, LifeOk, DriverOk, WriterDistance;
    match a
    case ReaderStep(choice) => ReaderLeavesOutgoing(s.reader, choice, s.sh);
    case ClientStep(id, choice) => ClientStaysInFrame(s.clients[id], choice, s.sh);
    case CallbackSees(_) =>
    case CallbackOffers(_) =>
  }

  lemma ReaderLeavesOutgoing(r: ReaderPc, choice: Choice, sh: Shared)
    requires ReaderMove(r, choice, sh).Some?
    ensures ReaderMove(r, choice, sh).value.sh.wQueue == sh.wQueue
  {
  }

  /** While stop polls the writer's state the writer takes no more steps than its measure. */
  lemma {:induction false} WriterStopsInBoundedSteps(s: State, actions: seq<Action>)
    requires Inv(s) && s.control.WaitWriter? && WithoutControl(actions) && Run(s, actions).Some?
    ensures WriterSteps(actions) + WriterMeasure(Run(s, actions).value) <= WriterMeasure(s)
    decreases |actions|
  {
    if actions != [] {
      hide Inv, Next, WriterMeasure;
      NextInv(s, actions[0]);
      if actions[0].WriterStep? {
        WriterStepShortens(s, actions[0].choice);
      } else {
        OthersDoNotLengthenWriter(s, actions[0]);
      }
      WriterStopsInBoundedSteps(Next(s, actions[0]).value, actions[1..]);
    }
  }
}
