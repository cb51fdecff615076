/**
  * What becomes of a stop is decided when it puts the sentinel into the incoming queue: where the
  * reader then is, and what then is in the queue, tell whether stop ends, hangs, or has the reader
  * dereference null, in every run from there.
  */
module BusFate {
  import opened Osal
  import opened BusProtocol
  import opened BusInvariant
  import opened BusStop
  import opened BusFaults

  datatype Fate = Ends | Hangs | Crashes

  /** The fate of a stop with the reader at `r` and the incoming queue `q`, the sentinel already in it. */
  function FateOf(r: ReaderPc, q: seq<Entry>): Fate
  {
    match r
    case Have(_) => Hangs
    case ReaderPoll =>
      if q == [] then Ends else if q[0].Ptr? then Hangs else if Sentinel in q[1..] then Crashes else Ends
    case NullD | NullTest | Flush => if Sentinel in q then Crashes else Ends
    case Crashed => Crashes
    case _ => Ends
  }

  function Fated(s: State): Fate { FateOf(s.reader, s.sh.rQueue) }

  /** From the offer of the sentinel to the end of the wait for the reader. */
  predicate Deciding(c: ControlPc) { c == CloseNative(InReaderStop) || c.WaitReader? }

  // ------------------------------------------------------------- the fate never changes

  lemma AppendKeepsFate(r: ReaderPc, q: seq<Entry>, f: Frame)
    requires r.ReaderPoll? ==> q != []
    ensures FateOf(r, q + [Ptr(f)]) == FateOf(r, q)
  {
    if q != [] {
      assert (q + [Ptr(f)])[1..] == q[1..] + [Ptr(f)];
    }
  }

  lemma HeadOrRest(q: seq<Entry>)
    requires q != []
    ensures Sentinel in q <==> q[0] == Sentinel || Sentinel in q[1..]
  {
    assert q == [q[0]] + q[1..];
  }

  lemma ReaderKeepsFate(r: ReaderPc, choice: Choice, sh: Shared)
    requires ReaderMove(r, choice, sh).Some?
    requires sh.status != Opened && sh.readerRun != Running && !sh.readerPending
    requires (r.ReaderPoll? ==> sh.rQueue != []) && !r.Have? && !ReaderR(r)
    ensures var m := ReaderMove(r, choice, sh).value; FateOf(m.pc, m.sh.rQueue) == FateOf(r, sh.rQueue)
  {
    if sh.rQueue != [] {
      HeadOrRest(sh.rQueue);
    }
  }

  /** Apart from the reader and the offer of the sentinel, a step appends a frame to the queue or leaves it. */
  lemma OthersOnlyAppend(s: State, a: Action)
    requires Next(s, a).Some? && !a.ReaderStep? && !(a.ControlStep? && s.control.CloseOffer?)
    ensures var s' := Next(s, a).value;
            && s'.reader == s.reader
            && (s'.sh.rQueue == s.sh.rQueue || exists f :: s'.sh.rQueue == s.sh.rQueue + [Ptr(f)])
  {
    hide ControlMove, WriterMove, ClientMove;
    match a
    case ControlStep(choice) => ControlLeavesIncoming(s.control, choice, s.sh);
    case WriterStep(choice) => WriterLeavesIncoming(s.writer, choice, s.sh);
    case ClientStep(id, choice) => ClientStaysInFrame(s.clients[id], choice, s.sh);
    case CallbackSees(_) =>
    case CallbackOffers(_) =>
  }

  lemma ControlLeavesIncoming(c: ControlPc, choice: Choice, sh: Shared)
    requires ControlMove(c, choice, sh).Some? && !c.CloseOffer?
    ensures ControlMove(c, choice, sh).value.sh.rQueue == sh.rQueue
  {
    hide OpenRegion, StopRequested, Offered;
    if c.ControlIdle? {
    } else if InInit(c) {
      InitLeavesIncoming(c, choice.Go?, sh);
    } else if InClose(c) {
      hide InitGo, TermGo;
    } else {
      hide InitGo, CloseGo;
    }
  }

  lemma InitLeavesIncoming(c: ControlPc, nativeOk: bool, sh: Shared)
    requires InInit(c) && InitGo(c, nativeOk, sh).Some?
    ensures InitGo(c, nativeOk, sh).value.sh.rQueue == sh.rQueue
  {
  }

  /** What is known of the reader while a stop's fate is being met. */
  lemma DecidingReader(s: State)
    requires Inv(s) && Deciding(s.control)
    ensures s.sh.status != Opened && s.sh.readerRun != Running && !s.sh.readerPending
    ensures (s.reader.ReaderPoll? ==> s.sh.rQueue != []) && !ReaderR(s.reader) && s.r == Some(Control)
  {
    hide FlowOk, QuietOk, LifeOk;
    assert HoldsR(s, Control) <==> s.r == Some(Control);
    assert HoldsR(s, Reader) <==> s.r == Some(Reader);
  }

  lemma HaveIsBlocked(s: State, choice: Choice)
    requires s.reader.Have? && s.r.Some?
    ensures Next(s, ReaderStep(choice)).None?
  {
  }

  lemma FateStep(s: State, a: Action)
    requires Inv(s) && Deciding(s.control) && Next(s, a).Some?
    ensures Fated(Next(s, a).value) == Fated(s)
  {
    DecidingReader(s);
    hide Inv, ReaderMove, FateOf, ReaderR;
    if a.ReaderStep? {
      if s.reader.Have? {
        HaveIsBlocked(s, a.choice);
      } else {
        ReaderKeepsFate(s.reader, a.choice, s.sh);
      }
    } else {
      OthersOnlyAppend(s, a);
      var s' := Next(s, a).value;
      if s'.sh.rQueue != s.sh.rQueue {
        var f :| s'.sh.rQueue == s.sh.rQueue + [Ptr(f)];
        AppendKeepsFate(s.reader, s.sh.rQueue, f);
      }
    }
  }

  // ------------------------------------------------------------- which stops can end

  predicate NoFailedClose(actions: seq<Action>) { ControlStep(NativeFails) !in actions }

  predicate Finished(s: State) { s.control == Unlock(FinishTerm) }

  /** Some run, in which no native call fails, takes the stop to its end. */
  ghost predicate StopCanEnd(s: State)
  {
    exists actions :: NoFailedClose(actions) && Run(s, actions).Some? && Finished(Run(s, actions).value)
  }

  /** Stop after its wait for the reader. */
  predicate InTail(c: ControlPc)
  {
    c.WriterTest? || c.WriterOffer? || c.WaitWriter? || c == CloseD(InBusStop) || c == CloseTest(InBusStop)
  }

  predicate OnItsWay(s: State) { (Deciding(s.control) && Fated(s) == Ends) || InTail(s.control) }

  lemma DecidingControl(c: ControlPc, choice: Choice, sh: Shared)
    requires Deciding(c) && ControlMove(c, choice, sh).Some? && !choice.NativeFails?
    ensures var c' := ControlMove(c, choice, sh).value.pc;
            Deciding(c') || (c.WaitReader? && sh.readerRun == Stopped && c'.WriterTest?)
  {
  }

  lemma TailControl(c: ControlPc, choice: Choice, sh: Shared)
    requires InTail(c) && ControlMove(c, choice, sh).Some? && sh.status != Opened
    ensures var c' := ControlMove(c, choice, sh).value.pc; InTail(c') || c' == Unlock(FinishTerm)
  {
  }

  lemma ControlStays(s: State, a: Action)
    requires Next(s, a).Some? && !a.ControlStep?
    ensures Next(s, a).value.control == s.control
  {
    hide ReaderMove, WriterMove, ClientMove;
  }

  lemma OnItsWayStep(s: State, a: Action)
    requires Inv(s) && OnItsWay(s) && Next(s, a).Some? && a != ControlStep(NativeFails)
    ensures var s' := Next(s, a).value; OnItsWay(s') || Finished(s')
  {
    if Deciding(s.control) {
      FateStep(s, a);
    }
    if a.ControlStep? {
      if Deciding(s.control) {
        hide Inv, ControlMove, FateOf;
        DecidingControl(s.control, a.choice, s.sh);
      } else {
        assert s.sh.status != Opened by { hide ThreadsOk, Exclusive, WakeOk, QuietOk, FlowOk; }
        hide Inv, ControlMove, FateOf;
        TailControl(s.control, a.choice, s.sh);
      }
    } else {
      hide Inv, FateOf, Next;
      ControlStays(s, a);
    }
  }

  lemma DoomedStep(s: State, a: Action)
    requires Inv(s) && Deciding(s.control) && Fated(s) != Ends && Next(s, a).Some? && a != ControlStep(NativeFails)
    ensures var s' := Next(s, a).value; Deciding(s'.control) && Fated(s') == Fated(s)
  {
    FateStep(s, a);
    if a.ControlStep? {
      assert s.sh.readerRun != Stopped by { hide Exclusive, StageOk, DriverOk, WakeOk, QuietOk, FlowOk; }
      hide Inv, ControlMove, FateOf;
      DecidingControl(s.control, a.choice, s.sh);
    } else {
      hide Inv, FateOf, Next;
      ControlStays(s, a);
    }
  }

  /** A stop that is to hang, or to see the reader crash, is never left by any run. */
  lemma {:induction false} DoomedForever(s: State, actions: seq<Action>)
    requires Inv(s) && Deciding(s.control) && Fated(s) != Ends && Run(s, actions).Some? && NoFailedClose(actions)
    ensures var s' := Run(s, actions).value; Deciding(s'.control) && Fated(s') == Fated(s)
    decreases |actions|
  {
    if actions != [] {
      hide Inv, Next, Deciding, FateOf;
      DoomedStep(s, actions[0]);
      NextInv(s, actions[0]);
      DoomedForever(Next(s, actions[0]).value, actions[1..]);
    }
  }

  /** A stop that is to end has ended at some point of the run, or is still on its way there. */
  lemma {:induction false} OnItsWayAlong(s: State, actions: seq<Action>)
    requires Inv(s) && OnItsWay(s) && Run(s, actions).Some? && NoFailedClose(actions)
    ensures Inv(Run(s, actions).value)
    ensures OnItsWay(Run(s, actions).value)
            || exists k | 0 <= k <= |actions| :: Run(s, actions[..k]).Some? && Finished(Run(s, actions[..k]).value)
    decreases |actions|
  {
    RunInv(s, actions);
    if actions != [] {
      hide Inv, Next, OnItsWay;
      var s1 := Next(s, actions[0]).value;
      OnItsWayStep(s, actions[0]);
      NextInv(s, actions[0]);
      if Finished(s1) {
        RunFirst(s, actions, 1);
        assert Run(s1, []) == Some(s1);
      } else {
        OnItsWayAlong(s1, actions[1..]);
        if !OnItsWay(Run(s, actions).value) {
          var k :| 0 <= k <= |actions| - 1 && Run(s1, actions[1..][..k]).Some?
                   && Finished(Run(s1, actions[1..][..k]).value);
          RunFirst(s, actions, k + 1);
        }
      }
    }
  }

  lemma RunFirst(s: State, actions: seq<Action>, k: nat)
    requires 0 < k <= |actions| && Next(s, actions[0]).Some?
    ensures Run(s, actions[..k]) == Run(Next(s, actions[0]).value, actions[1..][..k - 1])
  {
    hide Next;
    assert actions[..k][1..] == actions[1..][..k - 1];
  }

  // ------------------------------------------------------------- a run that meets the fate

  /** The reader has done what its fate was, as far as stop can see. */
  predicate Settled(r: ReaderPc) { r.Have? || r.Crashed? || r.ReaderExited? }

  lemma Goes(s0: State, s: State, a: Action) returns (s': State)
    requires Leads(s0, s) && Inv(s) && CalmAction(a) && Next(s, a).Some?
    ensures s' == Next(s, a).value && Leads(s0, s') && Inv(s')
  {
    hide Leads, Inv, Next;
    NextInv(s, a);
    s' := Then(s0, s, a);
  }

  /** Whoever holds the driver's mutex while stop waits gives it up with its next step. */
  lemma HolderReleases(s: State, t: Thread)
    requires Inv(s) && s.d == Some(t) && (t.Writer? || t.Client?)
    ensures Next(s, GoOn(t)).Some?
    ensures var s' := Next(s, GoOn(t)).value; s'.d == None && s'.control == s.control && s'.reader == s.reader
  {
    hide ThreadsOk, DriverOk, WakeOk, QuietOk, FlowOk, FlushOk;
    assert HoldsD(s, t);
    if t.Client? {
      assert HoldsR(s, t) <==> s.r == Some(t);
      assert HoldsW(s, t) <==> s.w == Some(t);
    }
  }

  lemma UnsettledReader(s: State)
    requires Inv(s) && s.control.WaitReader? && !Settled(s.reader)
    ensures s.d == None ==> Next(s, ReaderStep(Go)).Some?
    ensures s.d.Some? && Next(s, ReaderStep(Go)).None? ==> s.d.value.Writer? || s.d.value.Client?
  {
    DecidingReader(s);
    assert HoldsD(s, Reader) <==> s.d == Some(Reader);
    assert HoldsD(s, Control) <==> s.d == Some(Control);
    hide Inv;
  }

  lemma ReaderSettlesNext(s: State)
    requires Inv(s) && s.control.WaitReader? && !Settled(s.reader) && Next(s, ReaderStep(Go)).Some?
    ensures var s' := Next(s, ReaderStep(Go)).value; s'.control.WaitReader? && ReaderMeasure(s') < ReaderMeasure(s)
  {
    ReaderStepShortens(s, Go);
    hide Inv, Next;
    ReaderStepKeepsControl(s, Go);
  }

  /** From any wait for the reader a calm run leads to the end of it, the embrace, or the crash. */
  lemma {:induction false} ReaderSettles(s0: State, s: State) returns (s': State)
    requires Leads(s0, s) && Inv(s) && s.control.WaitReader?
    ensures Leads(s0, s') && Inv(s') && s'.control.WaitReader? && Settled(s'.reader) && Fated(s') == Fated(s)
    decreases ReaderMeasure(s), s.d.Some?
  {
    s' := s;
    if !Settled(s.reader) {
      hide Leads, Inv, Next, FateOf, ReaderMeasure;
      UnsettledReader(s);
      if Next(s, ReaderStep(Go)).Some? {
        s' := Goes(s0, s, ReaderStep(Go));
        ReaderSettlesNext(s);
        FateStep(s, ReaderStep(Go)) by { assert Deciding(s.control); }
      } else {
        var a := GoOn(s.d.value);
        HolderReleases(s, s.d.value);
        s' := Goes(s0, s, a);
        OthersDoNotLengthenReader(s, a);
        FateStep(s, a) by { assert Deciding(s.control); }
      }
      s' := ReaderSettles(s0, s');
    }
  }

  lemma UnsettledWriter(s: State)
    requires Inv(s) && s.control.WaitWriter? && !s.writer.WriterExited?
    ensures s.d == None || s.d == Some(Writer) ==> Next(s, WriterStep(Go)).Some?
    ensures s.d.Some? ==> s.d.value.Writer? || s.d.value.Client?
  {
    assert HoldsD(s, Reader) <==> s.d == Some(Reader);
    assert HoldsD(s, Control) <==> s.d == Some(Control);
    assert HoldsD(s, Writer) <==> s.d == Some(Writer);
    hide FlowOk, QuietOk, Exclusive;
  }

  /** From any wait for the writer a calm run leads to the writer's end. */
  lemma {:induction false} WriterSettles(s0: State, s: State) returns (s': State)
    requires Leads(s0, s) && Inv(s) && s.control.WaitWriter?
    ensures Leads(s0, s') && Inv(s') && s'.control.WaitWriter? && s'.writer.WriterExited?
    decreases WriterMeasure(s), s.d.Some?
  {
    s' := s;
    if !s.writer.WriterExited? {
      hide Leads, Inv, Next, WriterMeasure;
      UnsettledWriter(s);
      if s.d == None || s.d == Some(Writer) {
        s' := Goes(s0, s, WriterStep(Go));
        WriterStepShortens(s, Go);
      } else {
        HolderReleases(s, s.d.value);
        s' := Goes(s0, s, GoOn(s.d.value));
        OthersDoNotLengthenWriter(s, GoOn(s.d.value));
      }
      s' := WriterSettles(s0, s');
    }
  }

  lemma TailEnds(s0: State, s: State) returns (s': State)
    requires Leads(s0, s) && Inv(s) && InTail(s.control)
    ensures Leads(s0, s') && Finished(s')
  {
    hide Leads, Inv, Next;
    s' := s;
    if s'.control.WriterTest? {
      TestGoes(s');
      s' := Goes(s0, s', ControlStep(Go));
    }
    if s'.control.WriterOffer? {
      TestGoes(s');
      s' := Goes(s0, s', ControlStep(Go));
    }
    if s'.control.WaitWriter? {
      s' := WriterSettles(s0, s');
      WaitGoes(s');
      s' := Goes(s0, s', ControlStep(Go));
    }
    if s'.control.CloseD? && s'.d.Some? {
      OnlyClientsHold(s');
      HolderReleases(s', s'.d.value);
      s' := Goes(s0, s', GoOn(s'.d.value));
    }
    if s'.control.CloseD? {
      CloseGoes(s');
      s' := Goes(s0, s', ControlStep(Go));
    }
    LastGoes(s');
    s' := Goes(s0, s', ControlStep(Go));
  }

  lemma TestGoes(s: State)
    requires s.control.WriterTest? || s.control.WriterOffer?
    ensures Next(s, ControlStep(Go)).Some?
    ensures var c := Next(s, ControlStep(Go)).value.control; c.WaitWriter? || (s.control.WriterTest? && c.WriterOffer?)
  {
  }

  lemma WaitGoes(s: State)
    requires Inv(s) && s.control.WaitWriter? && s.writer.WriterExited?
    ensures Next(s, ControlStep(Go)).Some? && Next(s, ControlStep(Go)).value.control == CloseD(InBusStop)
  {
    hide Exclusive, StageOk, DriverOk, WakeOk, QuietOk, FlowOk, FlushOk;
  }

  lemma OnlyClientsHold(s: State)
    requires Inv(s) && s.control == CloseD(InBusStop) && s.d.Some?
    ensures s.d.value.Client?
  {
    assert HoldsD(s, s.d.value);
    hide Exclusive, DriverOk, WakeOk, QuietOk, FlowOk, FlushOk;
  }

  lemma CloseGoes(s: State)
    requires s.control == CloseD(InBusStop) && s.d == None
    ensures Next(s, ControlStep(Go)).Some? && Next(s, ControlStep(Go)).value.control == CloseTest(InBusStop)
  {
  }

  lemma LastGoes(s: State)
    requires Inv(s) && s.control == CloseTest(InBusStop)
    ensures Next(s, ControlStep(Go)).Some? && Finished(Next(s, ControlStep(Go)).value)
  {
    hide Exclusive, ThreadsOk, WakeOk, QuietOk, FlowOk, FlushOk;
  }

  // ------------------------------------------------------------- the theorems

  /** A calm run from the wait for the reader meets each fate, and no run meets another. */
  lemma FateIsMet(s: State) returns (s': State)
    requires Inv(s) && s.control.WaitReader?
    ensures Leads(s, s') && Inv(s') && s'.control.WaitReader?
    ensures match Fated(s)
            case Ends => s'.sh.readerRun == Stopped
            case Hangs => Embrace(s')
            case Crashes => s'.reader.Crashed?
  {
    Stay(s);
    s' := ReaderSettles(s, s);
    hide Leads, Exclusive, StageOk, DriverOk, WakeOk, QuietOk, FlowOk;
  }

  /** The embrace, the crash and a stopped reader each tell what the fate was all along. */
  lemma {:induction false} FateIsKept(s: State, actions: seq<Action>)
    requires Inv(s) && s.control.WaitReader? && WithoutControl(actions) && Run(s, actions).Some?
    ensures var s' := Run(s, actions).value;
            && Fated(s') == Fated(s)
            && (Embrace(s') ==> Fated(s) == Hangs)
            && (s'.reader.Crashed? ==> Fated(s) == Crashes)
            && (s'.sh.readerRun == Stopped ==> Fated(s) == Ends)
    decreases |actions|
  {
    if actions == [] {
      hide Exclusive, StageOk, DriverOk, WakeOk, QuietOk, FlowOk;
    } else {
      hide Inv, Next, FateOf;
      FateStep(s, actions[0]);
      NextInv(s, actions[0]);
      ControlStays(s, actions[0]);
      FateIsKept(Next(s, actions[0]).value, actions[1..]);
    }
  }

  /**
    * No schedule puts the fate off: while stop waits, either it has been met, or the reader or whom it
    * waits for can move, and the reader has only so many steps to take until then.
    */
  lemma FateIsMetSoon(s: State, actions: seq<Action>)
    requires Inv(s) && s.control.WaitReader? && WithoutControl(actions) && Run(s, actions).Some?
    ensures var s' := Run(s, actions).value;
            && s'.control.WaitReader?
            && (Settled(s'.reader)
                || (Live(s', Reader, 1) && ReaderSteps(actions) + ReaderMeasure(s') <= ReaderMeasure(s)))
  {
    hide Inv, Next, ReaderMeasure, Live;
    RunInv(s, actions);
    WaitGoesOn(s, actions);
    ReaderStopsInBoundedSteps(s, actions);
    var s' := Run(s, actions).value;
    if !Settled(s'.reader) {
      NotYetStopped(s');
      WaitedReaderIsLive(s');
    }
  }

  lemma {:induction false} WaitGoesOn(s: State, actions: seq<Action>)
    requires s.control.WaitReader? && WithoutControl(actions) && Run(s, actions).Some?
    ensures Run(s, actions).value.control.WaitReader?
    decreases |actions|
  {
    if actions != [] {
      hide Next;
      ControlStays(s, actions[0]);
      WaitGoesOn(Next(s, actions[0]).value, actions[1..]);
    }
  }

  lemma NotYetStopped(s: State)
    requires Inv(s) && !Settled(s.reader)
    ensures s.sh.readerRun != Stopped
  {
    hide Exclusive, StageOk, DriverOk, WakeOk, QuietOk, FlowOk, FlushOk;
  }

  lemma LeadsToTheEnd(s: State, s': State)
    requires Leads(s, s') && Finished(s')
    ensures StopCanEnd(s)
  {
    var actions :| Calm(actions) && Run(s, actions) == Some(s');
    assert !CalmAction(ControlStep(NativeFails));
  }

  lemma EndIsReached(s: State)
    requires Inv(s) && OnItsWay(s)
    ensures StopCanEnd(s)
  {
    hide Leads, Inv, Next, StopCanEnd, FateOf;
    Stay(s);
    var s' := s;
    if s'.control.CloseNative? {
      NativeGoes(s');
      s' := Goes(s, s', ControlStep(Go));
      FateStep(s, ControlStep(Go));
    }
    if s'.control.WaitReader? {
      s' := ReaderSettles(s, s');
      EndsGoes(s');
      s' := Goes(s, s', ControlStep(Go));
    }
    s' := TailEnds(s, s');
    LeadsToTheEnd(s, s');
  }

  lemma NativeGoes(s: State)
    requires s.control == CloseNative(InReaderStop)
    ensures Next(s, ControlStep(Go)).Some? && Next(s, ControlStep(Go)).value.control.WaitReader?
  {
  }

  lemma EndsGoes(s: State)
    requires Inv(s) && s.control.WaitReader? && Settled(s.reader) && Fated(s) == Ends
    ensures Next(s, ControlStep(Go)).Some? && Next(s, ControlStep(Go)).value.control.WriterTest?
  {
    hide Exclusive, StageOk, DriverOk, WakeOk, QuietOk, FlowOk, FlushOk;
  }

  /**
    * A stop that has put its sentinel into the queue can end if and only if its fate is to end.  If
    * it is, every run either has come past the end or can still get there; if it is not, no run does.
    */
  lemma StopEndsExactly(s: State, actions: seq<Action>)
    requires Inv(s) && Deciding(s.control)
    requires NoFailedClose(actions) && Run(s, actions).Some?
    ensures StopCanEnd(s) <==> Fated(s) == Ends
    ensures Fated(s) == Ends ==>
              StopCanEnd(Run(s, actions).value)
              || exists k | 0 <= k <= |actions| :: Run(s, actions[..k]).Some? && Finished(Run(s, actions[..k]).value)
    ensures Fated(s) != Ends ==> !StopCanEnd(Run(s, actions).value)
  {
    hide Inv, Next, FateOf;
    if Fated(s) == Ends {
      EndIsReached(s);
      OnItsWayAlong(s, actions);
      if OnItsWay(Run(s, actions).value) {
        EndIsReached(Run(s, actions).value);
      }
    } else {
      DoomedCannotEnd(s);
      RunInv(s, actions);
      DoomedForever(s, actions);
      DoomedCannotEnd(Run(s, actions).value);
    }
  }

  lemma DoomedCannotEnd(s: State)
    requires Inv(s) && Deciding(s.control) && Fated(s) != Ends
    ensures !StopCanEnd(s)
  {
    hide Inv, Next, FateOf;
    if StopCanEnd(s) {
      var actions :| NoFailedClose(actions) && Run(s, actions).Some? && Finished(Run(s, actions).value);
      DoomedForever(s, actions);
    }
  }

  /**
    * Seen from the moment before, when stop holds all three mutexes: where the reader is and what
    * is in the queue decide whether the stop ends, if its native close succeeds.
    */
  lemma StopIsDecidedAtTheOffer(clients: set<nat>, actions: seq<Action>, s: State)
    requires Run(Initial(clients), actions) == Some(s) && s.control == CloseOffer(InReaderStop)
    ensures Next(s, ControlStep(Go)).Some?
    ensures var s' := Next(s, ControlStep(Go)).value;
            && Inv(s') && Deciding(s'.control)
            && Fated(s') == FateOf(s.reader, Offered(s.sh.rQueue, Sentinel))
            && (StopCanEnd(s') <==> FateOf(s.reader, Offered(s.sh.rQueue, Sentinel)) == Ends)
  {
    hide Run, Inv, Next, FateOf;
    ReachableInv(clients, actions);
    OfferGoes(s);
    var s' := Next(s, ControlStep(Go)).value;
    NextInv(s, ControlStep(Go));
    RunNothing(s');
    StopEndsExactly(s', []);
  }

  lemma RunNothing(s: State)
    ensures Run(s, []) == Some(s)
  {
  }

  lemma OfferGoes(s: State)
    requires s.control == CloseOffer(InReaderStop)
    ensures Next(s, ControlStep(Go)).Some?
    ensures var s' := Next(s, ControlStep(Go)).value;
            && Deciding(s'.control) && s'.reader == s.reader && s'.sh.rQueue == Offered(s.sh.rQueue, Sentinel)
  {
  }

  // ------------------------------------------------------------- which offers crash the reader

  /** The driver is not open and the reader will dereference null if it goes on. */
  predicate Doomed(s: State) { s.sh.status != Opened && !s.control.CloseOffer? && Fated(s) == Crashes }

  /** A step that offers the sentinel where the reader will meet it, or another, in a flush. */
  predicate FatalStep(s: State, a: Action)
  {
    a.ControlStep? && s.control.CloseOffer? && FateOf(s.reader, Offered(s.sh.rQueue, Sentinel)) == Crashes
  }

  /** Before an init the reader has exited, or it never had anything to read. */
  ghost predicate FreshOk(c: ControlPc, r: ReaderPc, sh: Shared)
  {
    c.InitD? || c.InitOpen? || (c.ControlIdle? && !sh.initialized) ==>
      || (r.ReaderExited? && !sh.readerPending)
      || ((r.ReaderLoop? || r.ReadD? || r.ReadTest?) && sh.rQueue == [] && sh.inFlight == [] && sh.status == Closed)
  }

  lemma InitKeepsFresh(c: ControlPc, nativeOk: bool, r: ReaderPc, sh: Shared)
    requires FreshOk(c, r, sh) && InInit(c) && !sh.initialized && InitGo(c, nativeOk, sh).Some?
    ensures var m := InitGo(c, nativeOk, sh).value; FreshOk(m.pc, r, m.sh)
  {
  }

  lemma TermKeepsFresh(c: ControlPc, r: ReaderPc, w: WriterPc, sh: Shared)
    requires StageOk(c, r, w, sh) && LifeOk(r, w, sh)
    requires !c.ControlIdle? && !InInit(c) && !InClose(c) && TermGo(c, sh).Some?
    ensures var m := TermGo(c, sh).value; FreshOk(m.pc, r, m.sh)
  {
    hide Offered, StopRequested;
  }

  lemma ControlKeepsFresh(c: ControlPc, choice: Choice, r: ReaderPc, w: WriterPc, sh: Shared)
    requires FreshOk(c, r, sh) && StageOk(c, r, w, sh) && LifeOk(r, w, sh) && ControlMove(c, choice, sh).Some?
    ensures var m := ControlMove(c, choice, sh).value; FreshOk(m.pc, r, m.sh)
  {
    WhenInitialized(c, r, w, sh);
    hide StageOk, LifeOk, InitGo, TermGo, Offered;
    if c.ControlIdle? {
    } else if InInit(c) {
      InitKeepsFresh(c, choice.Go?, r, sh);
    } else if InClose(c) {
    } else {
      TermKeepsFresh(c, r, w, sh);
    }
  }

  lemma WhenInitialized(c: ControlPc, r: ReaderPc, w: WriterPc, sh: Shared)
    requires StageOk(c, r, w, sh)
    ensures InInit(c) ==> !sh.initialized
    ensures InClose(c) || c == Unlock(Fail) ==> sh.initialized
  {
  }

  lemma ReaderKeepsFresh(c: ControlPc, r: ReaderPc, choice: Choice, w: WriterPc, sh: Shared)
    requires FreshOk(c, r, sh) && StageOk(c, r, w, sh) && LifeOk(r, w, sh) && ReaderMove(r, choice, sh).Some?
    ensures var m := ReaderMove(r, choice, sh).value; FreshOk(c, m.pc, m.sh)
  {
  }

  lemma FreshStep(s: State, a: Action)
    requires Inv(s) && FreshOk(s.control, s.reader, s.sh) && Next(s, a).Some?
    ensures var s' := Next(s, a).value; FreshOk(s'.control, s'.reader, s'.sh)
  {
    hide ControlMove, ReaderMove, WriterMove, ClientMove, Exclusive, DriverOk, WakeOk, QuietOk, FlowOk, FlushOk;
    hide LifeOk, StageOk;
    match a
    case ControlStep(choice) =>
      hide FreshOk;
      ControlKeepsFresh(s.control, choice, s.reader, s.writer, s.sh);
    case ReaderStep(choice) =>
      hide FreshOk;
      ReaderKeepsFresh(s.control, s.reader, choice, s.writer, s.sh);
    case WriterStep(choice) =>
      WriterLeavesIncoming(s.writer, choice, s.sh);
      WriterMoveFlags(s.writer, choice, s.sh);
    case ClientStep(id, choice) => ClientStaysInFrame(s.clients[id], choice, s.sh);
    case CallbackSees(_) =>
    case CallbackOffers(i) => OfferTouches(s.sh, s.sh.inFlight[i]);
  }

  lemma ReaderKeepsDoom(r: ReaderPc, choice: Choice, sh: Shared)
    requires ReaderMove(r, choice, sh).Some? && sh.status != Opened && (r.ReaderPoll? ==> sh.rQueue != [])
    ensures var m := ReaderMove(r, choice, sh).value;
            FateOf(m.pc, m.sh.rQueue) == Crashes <==> FateOf(r, sh.rQueue) == Crashes
  {
    if r.ReaderPoll? || r.Flush? {
      if sh.rQueue != [] {
        HeadOrRest(sh.rQueue);
      }
    } else {
      ReaderLeavesQueue(r, choice, sh);
      hide WriteRegion;
    }
  }

  lemma ReaderLeavesQueue(r: ReaderPc, choice: Choice, sh: Shared)
    requires ReaderMove(r, choice, sh).Some? && !r.ReaderPoll? && !r.Flush?
    ensures ReaderMove(r, choice, sh).value.sh.rQueue == sh.rQueue
  {
  }

  lemma ClosedStep(s: State, a: Action)
    requires Inv(s) && s.sh.status != Opened && !s.control.CloseOffer? && Next(s, a).Some?
    ensures Fated(Next(s, a).value) == Crashes <==> Fated(s) == Crashes
  {
    assert s.reader.ReaderPoll? ==> s.sh.rQueue != [] by { hide Exclusive, ThreadsOk, DriverOk, QuietOk, FlowOk; }
    hide Inv, ReaderMove, FateOf;
    if a.ReaderStep? {
      ReaderKeepsDoom(s.reader, a.choice, s.sh);
    } else {
      OthersOnlyAppend(s, a);
      var s' := Next(s, a).value;
      if s'.sh.rQueue != s.sh.rQueue {
        var f :| s'.sh.rQueue == s.sh.rQueue + [Ptr(f)];
        AppendKeepsFate(s.reader, s.sh.rQueue, f);
      }
    }
  }

  /** The driver's state changes only by control: to open only before an init, and from open only to an offer. */
  lemma StatusStep(s: State, a: Action)
    requires Inv(s) && Next(s, a).Some?
    ensures var s' := Next(s, a).value;
            && (s.sh.status != Opened && s'.sh.status == Opened ==> s.control.InitOpen?)
            && (s.sh.status == Opened && s'.sh.status != Opened ==> s'.control.CloseOffer?)
            && (s'.control.CloseOffer? && !s.control.CloseOffer? ==> s.sh.status == Opened)
            && (s.control.CloseOffer? ==> s'.sh.status == s.sh.status == Closing)
            && (s.control.CloseOffer? && !s'.control.CloseOffer? ==>
                  a.ControlStep? && s'.reader == s.reader && s'.sh.rQueue == Offered(s.sh.rQueue, Sentinel))
  {
    hide Exclusive, ThreadsOk, WakeOk, QuietOk, FlowOk, FlushOk, ReaderMove, WriterMove, ClientMove, DriverUsed;
    match a
    case ControlStep(choice) => ControlStatus(s.control, choice, s.sh);
    case ReaderStep(choice) =>
      ReaderUses(s.reader, choice, s.sh);
      UsedKeepsStatus(s.sh, Next(s, a).value.sh);
    case WriterStep(choice) =>
      WriterUses(s.writer, choice, s.sh);
      UsedKeepsStatus(s.sh, Next(s, a).value.sh);
    case ClientStep(id, choice) =>
      ClientUses(s.clients[id], choice, s.sh);
      UsedKeepsStatus(s.sh, Next(s, a).value.sh);
    case CallbackSees(_) =>
    case CallbackOffers(_) =>
  }

  lemma UsedKeepsStatus(sh: Shared, sh': Shared)
    requires DriverUsed(sh, sh')
    ensures sh'.status == sh.status
  {
  }

  ghost predicate StatusMoved(c: ControlPc, sh: Shared, m: Move<ControlPc>)
  {
    && (sh.status != Opened && m.sh.status == Opened ==> c.InitOpen?)
    && (sh.status == Opened && m.sh.status != Opened ==> m.pc.CloseOffer?)
    && (m.pc.CloseOffer? ==> sh.status == Opened)
    && (c.CloseOffer? ==> m.sh.status == sh.status == Closing && m.sh.rQueue == Offered(sh.rQueue, Sentinel))
  }

  lemma InitStatus(c: ControlPc, nativeOk: bool, sh: Shared)
    requires DriverOk(c, sh) && InInit(c) && InitGo(c, nativeOk, sh).Some?
    ensures StatusMoved(c, sh, InitGo(c, nativeOk, sh).value)
  {
    hide PhaseOf, Offered;
  }

  lemma CloseStatus(c: ControlPc, nativeOk: bool, sh: Shared)
    requires DriverOk(c, sh) && InClose(c) && CloseGo(c, nativeOk, sh).Some?
    ensures StatusMoved(c, sh, CloseGo(c, nativeOk, sh).value)
  {
    hide PhaseOf, Offered;
  }

  lemma ControlStatus(c: ControlPc, choice: Choice, sh: Shared)
    requires DriverOk(c, sh) && ControlMove(c, choice, sh).Some?
    ensures StatusMoved(c, sh, ControlMove(c, choice, sh).value)
  {
    hide DriverOk, Offered, StopRequested, InitGo, CloseGo;
    if c.ControlIdle? {
    } else if InInit(c) {
      hide StatusMoved;
      InitStatus(c, choice.Go?, sh);
    } else if InClose(c) {
      hide StatusMoved;
      CloseStatus(c, choice.Go?, sh);
    }
  }

  /** Only a fatal offer dooms, and doom is for ever. */
  lemma DoomStep(s: State, a: Action)
    requires Inv(s) && FreshOk(s.control, s.reader, s.sh) && Next(s, a).Some?
    ensures Doomed(Next(s, a).value) <==> Doomed(s) || FatalStep(s, a)
  {
    var s' := Next(s, a).value;
    assert s.control.InitOpen? ==> Fated(s) != Crashes;
    hide Inv, Next, FateOf, FreshOk;
    StatusStep(s, a);
    if s.sh.status != Opened && !s.control.CloseOffer? {
      ClosedStep(s, a);
    }
  }

  ghost predicate FatalAt(s: State, actions: seq<Action>, k: nat)
  {
    k < |actions| && Run(s, actions[..k]).Some? && FatalStep(Run(s, actions[..k]).value, actions[k])
  }

  ghost predicate FatalSomewhere(s: State, actions: seq<Action>) { exists k: nat :: FatalAt(s, actions, k) }

  lemma FatalLater(s: State, actions: seq<Action>, k: nat)
    requires actions != [] && Next(s, actions[0]).Some?
    ensures FatalAt(s, actions, k + 1) <==> FatalAt(Next(s, actions[0]).value, actions[1..], k)
  {
    hide Next, Run, FatalStep;
    if k < |actions| - 1 {
      RunFirst(s, actions, k + 1);
    }
  }

  lemma FatalNowOrLater(s: State, actions: seq<Action>)
    requires actions != [] && Next(s, actions[0]).Some?
    ensures FatalSomewhere(s, actions) <==>
              FatalStep(s, actions[0]) || FatalSomewhere(Next(s, actions[0]).value, actions[1..])
  {
    RunNothing(s);
    assert FatalAt(s, actions, 0) <==> FatalStep(s, actions[0]);
    hide Next, Run, FatalStep, FatalAt;
    var s1 := Next(s, actions[0]).value;
    if k: nat :| FatalAt(s, actions, k) {
      if k > 0 {
        FatalLater(s, actions, k - 1);
      }
    }
    if k: nat :| FatalAt(s1, actions[1..], k) {
      FatalLater(s, actions, k);
    }
  }

  lemma NothingIsFatal(s: State)
    ensures !FatalSomewhere(s, [])
  {
  }

  lemma {:induction false} DoomComesFromAnOffer(s: State, actions: seq<Action>)
    requires Inv(s) && FreshOk(s.control, s.reader, s.sh) && Run(s, actions).Some?
    ensures Doomed(Run(s, actions).value) <==> Doomed(s) || FatalSomewhere(s, actions)
    decreases |actions|
  {
    hide Inv, Next, Doomed, FreshOk, FatalStep, FatalSomewhere;
    if actions == [] {
      NothingIsFatal(s);
    } else {
      DoomStep(s, actions[0]);
      FreshStep(s, actions[0]);
      NextInv(s, actions[0]);
      FatalNowOrLater(s, actions);
      DoomComesFromAnOffer(Next(s, actions[0]).value, actions[1..]);
    }
  }

  lemma CrashedIsDoomed(s: State)
    requires Inv(s) && s.reader.Crashed?
    ensures Doomed(s)
  {
    assert HoldsD(s, Reader) <==> s.d == Some(Reader);
    assert HoldsD(s, Control) <==> s.d == Some(Control);
    hide ThreadsOk, DriverOk, WakeOk, QuietOk, FlowOk;
  }

  /** The steps of a doomed reader up to the crash. */
  function DoomDistance(s: State): nat { ReaderDistance(s.reader) + |s.sh.rQueue| }

  lemma DoomedReaderMoves(r: ReaderPc, sh: Shared)
    requires FateOf(r, sh.rQueue) == Crashes && sh.status != Opened && !r.Crashed?
    ensures ReaderMove(r, Go, sh).Some?
    ensures var m := ReaderMove(r, Go, sh).value;
            && m.r == Keep && m.w == Keep && (m.d == Acquire ==> !ReaderD(r))
            && ReaderDistance(m.pc) + |m.sh.rQueue| < ReaderDistance(r) + |sh.rQueue|
  {
  }

  lemma DoomedReaderGoes(s: State)
    requires Inv(s) && Doomed(s) && !s.reader.Crashed?
    ensures s.d == None || s.d == Some(Reader) ==>
              Next(s, ReaderStep(Go)).Some? && DoomDistance(Next(s, ReaderStep(Go)).value) < DoomDistance(s)
  {
    assert HoldsD(s, Reader) <==> s.d == Some(Reader);
    hide Inv, ReaderMove, ReaderD, ReaderDistance, FateOf;
    DoomedReaderMoves(s.reader, s.sh);
  }

  /** Control gives the driver's mutex up with its next step, unless it has an open driver to close. */
  lemma ControlReleases(s: State)
    requires Inv(s) && s.d == Some(Control) && s.sh.status != Opened && !s.control.CloseOffer?
    ensures Next(s, ControlStep(Go)).Some?
    ensures var s' := Next(s, ControlStep(Go)).value;
            s'.d == None && s'.reader == s.reader && s'.sh.rQueue == s.sh.rQueue
  {
    assert HoldsD(s, Control);
    hide Inv;
  }

  lemma ThreadReleases(s: State, t: Thread)
    requires Inv(s) && s.d == Some(t) && (t.Writer? || t.Client?)
    ensures Next(s, GoOn(t)).Some?
    ensures var s' := Next(s, GoOn(t)).value; s'.d == None && s'.reader == s.reader && s'.sh.rQueue == s.sh.rQueue
  {
    HolderReleases(s, t);
    hide Inv;
    if t.Writer? {
      WriterLeavesIncoming(s.writer, Go, s.sh);
    } else {
      ClientStaysInFrame(s.clients[t.id], Go, s.sh);
    }
  }

  /** Wherever control is, a calm run leads from a doomed reader to the crash. */
  lemma {:induction false} DoomedCanCrash(s0: State, s: State) returns (s': State)
    requires Leads(s0, s) && Inv(s) && FreshOk(s.control, s.reader, s.sh) && Doomed(s)
    ensures Leads(s0, s') && s'.reader.Crashed?
    decreases DoomDistance(s), s.d.Some?
  {
    s' := s;
    if !s.reader.Crashed? {
      var a := if s.d.Some? then GoOn(s.d.value) else ReaderStep(Go);
      DoomedReaderGoes(s);
      if s.d.Some? && !s.d.value.Reader? {
        if s.d.value.Control? {
          ControlReleases(s);
        } else {
          ThreadReleases(s, s.d.value);
        }
      }
      hide Leads, Inv, Next, FateOf, FreshOk, ReaderDistance;
      DoomStep(s, a);
      FreshStep(s, a);
      s' := Goes(s0, s, a);
      s' := DoomedCanCrash(s0, s');
    }
  }

  /**
    * Which runs crash: the reader is doomed after a run if and only if some stop in it offered its
    * sentinel where the reader will meet it in a flush.  A reader that crashed was doomed, and a
    * doomed one can go on to crash, wherever control is and whether the native close failed or not.
    */
  lemma CrashIsDecidedAtTheOffers(clients: set<nat>, actions: seq<Action>, s: State)
    requires Run(Initial(clients), actions) == Some(s)
    ensures Doomed(s) <==> exists k: nat :: FatalAt(Initial(clients), actions, k)
    ensures s.reader.Crashed? ==> Doomed(s)
    ensures Doomed(s) ==> exists s' :: Leads(s, s') && s'.reader.Crashed?
  {
    InitialInv(clients);
    assert !Doomed(Initial(clients)) && FreshOk(ControlIdle, ReaderLoop, Initial(clients).sh);
    hide Run, FatalAt, Leads, Inv, FreshOk;
    RunFresh(Initial(clients), actions);
    DoomComesFromAnOffer(Initial(clients), actions);
    if s.reader.Crashed? {
      CrashedIsDoomed(s);
    }
    if Doomed(s) {
      Stay(s);
      var _ := DoomedCanCrash(s, s);
    }
  }

  /** After a crash no stop comes to an end. */
  lemma NoStopEndsAfterCrash(s: State, actions: seq<Action>)
    requires Inv(s) && s.reader.Crashed? && Run(s, actions).Some?
    ensures var s' := Run(s, actions).value; s'.reader.Crashed? && !Finished(s') && s'.sh.readerRun != Stopped
  {
    CrashedStays(s, actions);
    RunInv(s, actions);
    hide Run, Exclusive, DriverOk, WakeOk, QuietOk, FlowOk, FlushOk;
  }

  // ------------------------------------------------------------- a sentinel left over

  lemma {:induction false} RunFresh(s: State, actions: seq<Action>)
    requires Inv(s) && FreshOk(s.control, s.reader, s.sh) && Run(s, actions).Some?
    ensures var s' := Run(s, actions).value; Inv(s') && FreshOk(s'.control, s'.reader, s'.sh)
    decreases |actions|
  {
    if actions != [] {
      hide Inv, Next, FreshOk;
      FreshStep(s, actions[0]);
      NextInv(s, actions[0]);
      RunFresh(Next(s, actions[0]).value, actions[1..]);
    }
  }

  lemma LeadsInv(s0: State, s: State)
    requires Inv(s0) && Leads(s0, s)
    ensures Inv(s)
  {
    hide Inv, Next;
    var actions :| Calm(actions) && Run(s0, actions) == Some(s);
    RunInv(s0, actions);
  }

  /** At rest with the bus started, both threads running, and a sentinel in the queue. */
  predicate Ready(s: State)
  {
    && Idle(s) && s.sh.initialized && s.sh.status == Opened && s.sh.readerRun == Running
    && !s.sh.readerPending && !s.sh.writerPending && |s.sh.rQueue| <= CAPACITY && Sentinels(s.sh.rQueue) > 0
  }

  lemma PolledAway(q: seq<Entry>)
    requires q != [] && Sentinels(q) > 0 && q[0].Ptr?
    ensures Sentinels(q[1..]) > 0
  {
  }

  /** Left to itself the reader delivers the frames before the first sentinel, and then polls that. */
  lemma {:induction false} ReadsUpToSentinel(s0: State, s: State) returns (s': State)
    requires Leads(s0, s) && Ready(s) && s.reader.ReaderLoop?
    ensures Leads(s0, s') && Idle(s') && s'.reader.NullD? && |s'.sh.rQueue| < CAPACITY
    ensures s'.sh == s.sh.(rQueue := s'.sh.rQueue, rGot := s'.sh.rGot)
    decreases |s.sh.rQueue|
  {
    hide Leads, ControlMove, WriterMove, ClientMove;
    s' := ReaderGoes(s0, s);
    s' := ReaderGoes(s0, s');
    s' := ReaderGoes(s0, s');
    s' := ReaderGoes(s0, s');
    if s'.reader.Have? {
      hide Sentinels;
      PolledAway(s.sh.rQueue);
      s' := ReaderGoes(s0, s');
      s' := ReaderGoes(s0, s');
      s' := ReadsUpToSentinel(s0, s');
    }
  }

  lemma {:induction false} SentinelsCounted(q: seq<Entry>)
    ensures Sentinels(q) > 0 <==> Sentinel in q
  {
    if q != [] {
      SentinelsCounted(q[1..]);
      assert q == [q[0]] + q[1..];
    }
  }

  /** Init, from a rest after a term, and both threads begin to run. */
  lemma Restarts(s0: State, s: State) returns (s': State)
    requires Leads(s0, s) && Inv(s) && Idle(s) && !s.sh.initialized && s.sh.status == Closed
    requires s.reader.ReaderExited? && !s.sh.readerPending && Sentinels(s.sh.rQueue) > 0
    ensures Leads(s0, s') && Ready(s') && s'.reader.ReaderLoop?
  {
    InitLeads(s0, s);
    s' := AfterInit(s);
    assert s.sh.readerRun == Stopped && |s.sh.rQueue| <= CAPACITY
           && (s'.sh.writerPending ==> s.writer.WriterExited?) by {
      hide Exclusive, StageOk, DriverOk, WakeOk, QuietOk, Leads;
    }
    hide Leads, Inv, Sentinels, ControlMove, ClientMove;
    s' := ReaderGoes(s0, s');
    if s'.sh.writerPending {
      s' := WriterGoes(s0, s');
    }
  }

  /** A calm second session with a sentinel left over from the first crashes the reader. */
  lemma LeftoverCrashes(clients: set<nat>, actions: seq<Action>, s: State)
    requires Run(Initial(clients), actions) == Some(s)
    requires Idle(s) && !s.sh.initialized && s.sh.status == Closed && Outstanding(s.reader, s.sh) > 0
    ensures exists s' :: Leads(s, s') && s'.reader.Crashed?
  {
    InitialInv(clients);
    RunFresh(Initial(clients), actions);
    hide Inv, Leads, Run, FateOf, Settled;
    Stay(s);
    var s1 := Restarts(s, s);
    s1 := ReadsUpToSentinel(s, s1);
    StopLeads(s, s1);
    s1 := AfterStopBegins(s1);
    StoppedAtNull(s1);
    LeadsInv(s, s1);
    s1 := ReaderSettles(s, s1);
    CrashSettles(s1);
  }

  lemma StoppedAtNull(s: State)
    requires s.reader.NullD? && s.sh.rQueue != [] && s.sh.rQueue[|s.sh.rQueue| - 1] == Sentinel
    ensures Fated(s) == Crashes
  {
  }

  lemma CrashSettles(s: State)
    requires Settled(s.reader) && Fated(s) == Crashes
    ensures s.reader.Crashed?
  {
  }

  /** Two inits and two terms, no spurious wake-up, no failure: the reader dereferences null. */
  lemma CrashIsReached(clients: set<nat>)
    ensures exists s :: Leads(Initial(clients), s) && s.reader.Crashed?
  {
    var s1 := StaleIsReached(clients);
    var actions :| Calm(actions) && Run(Initial(clients), actions) == Some(s1);
    assert Outstanding(s1.reader, s1.sh) > 0 by {
      hide Leads, Run;
      SentinelsCounted(s1.sh.rQueue);
    }
    hide Run, Inv;
    LeftoverCrashes(clients, actions, s1);
    var s :| Leads(s1, s) && s.reader.Crashed?;
    LeadsOn(Initial(clients), s1, s);
  }

  lemma {:induction false} RunOn(s: State, a: seq<Action>, b: seq<Action>)
    requires Run(s, a).Some?
    ensures Run(s, a + b) == Run(Run(s, a).value, b)
    decreases |a|
  {
    hide Next;
    if a == [] {
      assert a + b == b;
    } else {
      RunOn(Next(s, a[0]).value, a[1..], b);
      assert (a + b)[1..] == a[1..] + b;
    }
  }

  lemma LeadsOn(s0: State, s1: State, s2: State)
    requires Leads(s0, s1) && Leads(s1, s2)
    ensures Leads(s0, s2)
  {
    hide Run;
    var a :| Calm(a) && Run(s0, a) == Some(s1);
    var b :| Calm(b) && Run(s1, b) == Some(s2);
    RunOn(s0, a, b);
    assert Calm(a + b);
  }
}
