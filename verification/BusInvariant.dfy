/** What every step of the bus machine keeps. */
module BusInvariant {
  import opened Osal
  import opened BusProtocol

  // ------------------------------------------------------------- mutual exclusion

  ghost predicate Exclusive(s: State)
  {
    && (forall t: Thread :: HoldsR(s, t) <==> s.r == Some(t))
    && (forall t: Thread :: HoldsW(s, t) <==> s.w == Some(t))
    && (forall t: Thread :: HoldsD(s, t) <==> s.d == Some(t))
  }

  ghost predicate Balanced(lock: Lock, held: bool, holds: bool)
  {
    match lock
    case Keep => held == holds
    case Acquire => !held && holds
    case Release => held && !holds
  }

  ghost predicate ControlMoveBalanced(pc: ControlPc, m: Move<ControlPc>)
  {
    && Balanced(m.r, ControlR(pc), ControlR(m.pc))
    && Balanced(m.w, ControlW(pc), ControlW(m.pc))
    && Balanced(m.d, ControlD(pc), ControlD(m.pc))
  }

  lemma InitBalanced(pc: ControlPc, nativeOk: bool, sh: Shared)
    requires InInit(pc) && InitGo(pc, nativeOk, sh).Some?
    ensures ControlMoveBalanced(pc, InitGo(pc, nativeOk, sh).value)
  {
    hide OpenRegion, CloseRegion, Offered, StopRequested;
  }

  lemma CloseBalanced(pc: ControlPc, nativeOk: bool, sh: Shared)
    requires InClose(pc) && CloseGo(pc, nativeOk, sh).Some?
    ensures ControlMoveBalanced(pc, CloseGo(pc, nativeOk, sh).value)
  {
    hide OpenRegion, CloseRegion, Offered, StopRequested;
  }

  lemma TermBalanced(pc: ControlPc, sh: Shared)
    requires !pc.ControlIdle? && !InInit(pc) && !InClose(pc) && TermGo(pc, sh).Some?
    ensures ControlMoveBalanced(pc, TermGo(pc, sh).value)
  {
    hide OpenRegion, CloseRegion, Offered, StopRequested;
  }

  lemma ControlBalanced(pc: ControlPc, choice: Choice, sh: Shared)
    requires ControlMove(pc, choice, sh).Some?
    ensures ControlMoveBalanced(pc, ControlMove(pc, choice, sh).value)
  {
    hide InitGo, CloseGo, TermGo;
    if !pc.ControlIdle? {
      hide ControlMoveBalanced;
      if InInit(pc) {
        InitBalanced(pc, choice.Go?, sh);
      } else if InClose(pc) {
        CloseBalanced(pc, choice.Go?, sh);
      } else {
        TermBalanced(pc, sh);
      }
    }
  }

  lemma ReaderBalanced(pc: ReaderPc, choice: Choice, sh: Shared)
    requires ReaderMove(pc, choice, sh).Some?
    ensures var m := ReaderMove(pc, choice, sh).value;
            && Balanced(m.r, ReaderR(pc), ReaderR(m.pc))
            && Balanced(m.w, ReaderW(pc), ReaderW(m.pc))
            && Balanced(m.d, ReaderD(pc), ReaderD(m.pc))
  {
  }

  lemma WriterBalanced(pc: WriterPc, choice: Choice, sh: Shared)
    requires WriterMove(pc, choice, sh).Some?
    ensures var m := WriterMove(pc, choice, sh).value;
            m.r == Keep && m.w == Keep && Balanced(m.d, WriterD(pc), WriterD(m.pc))
  {
  }

  lemma ClientBalanced(pc: ClientPc, choice: Choice, sh: Shared)
    requires ClientMove(pc, choice, sh).Some?
    ensures var m := ClientMove(pc, choice, sh).value;
            && Balanced(m.r, ClientR(pc), ClientR(m.pc))
            && Balanced(m.w, ClientW(pc), ClientW(m.pc))
            && Balanced(m.d, ClientD(pc), ClientD(m.pc))
  {
  }

  /** Every other thread is where it was. */
  ghost predicate OthersStay(s: State, t: Thread, s': State)
  {
    && (t != Control ==> s'.control == s.control)
    && (t != Reader ==> s'.reader == s.reader)
    && (t != Writer ==> s'.writer == s.writer)
    && s'.clients.Keys == s.clients.Keys
    && (forall i | i in s.clients && t != Client(i) :: s'.clients[i] == s.clients[i])
  }

  lemma OthersHold(s: State, t: Thread, s': State, u: Thread)
    requires OthersStay(s, t, s') && u != t
    ensures HoldsR(s', u) == HoldsR(s, u) && HoldsW(s', u) == HoldsW(s, u) && HoldsD(s', u) == HoldsD(s, u)
  {
  }

  lemma HandOver<P>(s: State, t: Thread, m: Move<P>, s': State)
    requires Exclusive(s) && MayMove(s, m) && OthersStay(s, t, s')
    requires s'.r == Owner(m.r, s.r, t) && s'.w == Owner(m.w, s.w, t) && s'.d == Owner(m.d, s.d, t)
    requires Balanced(m.r, HoldsR(s, t), HoldsR(s', t))
    requires Balanced(m.w, HoldsW(s, t), HoldsW(s', t))
    requires Balanced(m.d, HoldsD(s, t), HoldsD(s', t))
    ensures Exclusive(s')
  {
    hide HoldsR, HoldsW, HoldsD, OthersStay;
    forall u: Thread
      ensures HoldsR(s', u) <==> s'.r == Some(u)
      ensures HoldsW(s', u) <==> s'.w == Some(u)
      ensures HoldsD(s', u) <==> s'.d == Some(u)
    {
      assert HoldsR(s, u) <==> s.r == Some(u);
      assert HoldsW(s, u) <==> s.w == Some(u);
      assert HoldsD(s, u) <==> s.d == Some(u);
      if u != t {
        OthersHold(s, t, s', u);
      }
    }
  }

  lemma StepExclusive(s: State, a: Action)
    requires Exclusive(s) && Next(s, a).Some?
    ensures Exclusive(Next(s, a).value)
  {
    hide ControlMove, ReaderMove, WriterMove, ClientMove, Exclusive;
    hide ControlR, ControlW, ControlD, ReaderR, ReaderW, ReaderD, WriterD, ClientR, ClientW, ClientD;
    var s' := Next(s, a).value;
    match a
    case ControlStep(choice) =>
      ControlBalanced(s.control, choice, s.sh);
      HandOver(s, Control, ControlMove(s.control, choice, s.sh).value, s');
    case ReaderStep(choice) =>
      ReaderBalanced(s.reader, choice, s.sh);
      HandOver(s, Reader, ReaderMove(s.reader, choice, s.sh).value, s');
    case WriterStep(choice) =>
      WriterBalanced(s.writer, choice, s.sh);
      HandOver(s, Writer, WriterMove(s.writer, choice, s.sh).value, s');
    case ClientStep(id, choice) =>
      ClientBalanced(s.clients[id], choice, s.sh);
      HandOver(s, Client(id), ClientMove(s.clients[id], choice, s.sh).value, s');
    case CallbackSees(_) =>
      HandOver(s, Control, Move(s.control, Keep, Keep, Keep, s.sh), s');
    case CallbackOffers(_) =>
      HandOver(s, Control, Move(s.control, Keep, Keep, Keep, s.sh), s');
  }

  // ------------------------------------------------------------- the two Stoppable threads

  predicate InTerm(c: ControlPc)
  {
    c.StopR? || c.StopW? || c.StopClear? || c.StopReader? || ReaderAsked(c)
  }

  /** From `reader.stopStarted()` to the end of term. */
  predicate ReaderAsked(c: ControlPc)
  {
    c.CloseD? || c.CloseTest? || c.CloseOffer? || c.CloseNative? || c.WaitReader? || ReaderGone(c)
  }

  /** From the point where the reader was seen STOPPED on. */
  predicate ReaderGone(c: ControlPc)
  {
    c.WriterTest? || c.WriterOffer? || c.WaitWriter? || WriterGone(c)
  }

  predicate WriterAsked(c: ControlPc)
  {
    c.WriterOffer? || c.WaitWriter? || WriterGone(c)
  }

  predicate WriterGone(c: ControlPc)
  {
    || (c.CloseD? && c.site != InReaderStop)
    || (c.CloseTest? && c.site != InReaderStop)
    || (c.CloseOffer? && c.site != InReaderStop)
    || (c.CloseNative? && c.site != InReaderStop)
    || c == Unlock(FinishTerm) || c.TermDone?
  }

  ghost predicate LifeOk(r: ReaderPc, w: WriterPc, sh: Shared)
  {
    && (sh.readerRun == Stopped <==> r.ReaderExited?)
    && (sh.writerRun == Stopped <==> w.WriterExited?)
    && (sh.readerPending ==> r.ReaderExited?)
    && (sh.writerPending ==> w.WriterExited?)
    && (r.ReaderLeaving? ==> sh.readerRun == Stopping)
    && (w.Drain? || w.DrainDelete? || w.WriterLeaving? ==> sh.writerRun == Stopping)
  }

  ghost predicate TermStageOk(c: ControlPc, sh: Shared)
  {
    && (InTerm(c) ==> !sh.readerPending && !sh.writerPending)
    && (ReaderAsked(c) ==> sh.readerRun != Running)
    && (ReaderGone(c) ==> sh.readerRun == Stopped)
    && (WriterAsked(c) ==> sh.writerRun != Running)
    && (WriterGone(c) ==> sh.writerRun == Stopped)
  }

  ghost predicate InitStageOk(c: ControlPc, r: ReaderPc, w: WriterPc, sh: Shared)
  {
    && (InTerm(c) || c == Unlock(Fail) ==> sh.initialized)
    && (InInit(c) ==> !sh.initialized)
    && (InInit(c) || (c.ControlIdle? && !sh.initialized) ==> sh.readerRun != Stopping && sh.writerRun != Stopping)
    && (c.SpawnWriter? || c.StartD? || c.StartOpen? || c.StartSet? ==> r.ReaderExited? ==> sh.readerPending)
    && (c.StartD? || c.StartOpen? || c.StartSet? ==> w.WriterExited? ==> sh.writerPending)
  }

  ghost predicate StageOk(c: ControlPc, r: ReaderPc, w: WriterPc, sh: Shared)
  {
    TermStageOk(c, sh) && InitStageOk(c, r, w, sh)
  }

  ghost predicate ThreadsOk(c: ControlPc, r: ReaderPc, w: WriterPc, sh: Shared)
  {
    LifeOk(r, w, sh) && StageOk(c, r, w, sh)
  }

  // ------------------------------------------------------------- the driver

  datatype Phase = PhaseClosed | PhaseOpen | PhaseFailed | PhaseBroken

  /**
    * The protocol of the native calls: open, then any transmissions and address calls, then close.
    * A failed open leaves the device closed, a failed close ends the protocol.
    */
  function PhaseAfter(p: Phase, call: NativeCall): Phase
  {
    match (p, call)
    case (PhaseClosed, Open(true)) => PhaseOpen
    case (PhaseClosed, Open(false)) => PhaseClosed
    case (PhaseOpen, Tx(_)) => PhaseOpen
    case (PhaseOpen, Add(_)) => PhaseOpen
    case (PhaseOpen, Remove(_)) => PhaseOpen
    case (PhaseOpen, Close(true)) => PhaseClosed
    case (PhaseOpen, Close(false)) => PhaseFailed
    case _ => PhaseBroken
  }

  function PhaseOf(calls: seq<NativeCall>): Phase
  {
    if calls == [] then PhaseClosed else PhaseAfter(PhaseOf(calls[..|calls| - 1]), calls[|calls| - 1])
  }

  lemma PhaseOfAppend(calls: seq<NativeCall>, call: NativeCall)
    ensures PhaseOf(calls + [call]) == PhaseAfter(PhaseOf(calls), call)
  {
    assert (calls + [call])[..|calls|] == calls;
  }

  predicate Closing2(c: ControlPc) { c.CloseOffer? || c.CloseNative? }

  ghost predicate DriverOk(c: ControlPc, sh: Shared)
  {
    && (sh.status == Closed ==> PhaseOf(sh.native) == PhaseClosed)
    && (sh.status == Opened ==> PhaseOf(sh.native) == PhaseOpen)
    && (sh.status == Closing ==> PhaseOf(sh.native) == if Closing2(c) then PhaseOpen else PhaseFailed)
    && (Closing2(c) ==> sh.status == Closing && c.site == InReaderStop)
    && (c.WaitReader? || ReaderGone(c) ==> sh.status != Opened)
    && (c.StartR? || c.StartW? || c.SpawnReader? || c.SpawnWriter? || c.StartD? || c.StartOpen? || c.StartSet?
        ==> sh.status != Closed)
  }

  // ------------------------------------------------------------- nobody sleeps through a stop

  ghost predicate WakeOk(c: ControlPc, r: ReaderPc, w: WriterPc, sh: Shared)
  {
    && (r.ReaderPoll? && sh.status != Opened && !c.CloseOffer? ==> sh.rQueue != [])
    && (w.WriterPoll? && sh.writerRun != Running && !c.WriterOffer? ==> sh.wQueue != [])
  }

  /** The driver is not opened while a read flushes: its mutex is held all along. */
  ghost predicate FlushOk(r: ReaderPc, sh: Shared) { r.Flush? || r.Crashed? ==> sh.status != Opened }

  // ------------------------------------------------------------- what a stopped writer leaves behind

  predicate Residue(q: seq<Entry>) { q == [] || q == [Sentinel] }

  ghost predicate QuietOk(c: ControlPc, w: WriterPc, sh: Shared)
  {
    && (c.StopReader? || ReaderAsked(c) ==> !sh.started)
    && (sh.writerRun == Stopping ==> !sh.started)
    && (w.WriterLeaving? || (w.WriterExited? && !sh.writerPending) ==>
          !sh.started && if c.WriterOffer? then sh.wQueue == [] else Residue(sh.wQueue))
  }

  // ------------------------------------------------------------- conservation

  /** The frames in a queue, without the sentinels. */
  function Frames(q: seq<Entry>): seq<Frame>
  {
    if q == [] then [] else FrameOf(q[0]) + Frames(q[1..])
  }

  function FrameOf(e: Entry): seq<Frame> { if e.Ptr? then [e.frame] else [] }

  lemma {:induction false} FramesAppend(q: seq<Entry>, e: Entry)
    ensures Frames(q + [e]) == Frames(q) + FrameOf(e)
  {
    if q == [] {
      assert q + [e] == [e];
      assert [e][1..] == [];
    } else {
      hide FrameOf;
      FramesAppend(q[1..], e);
      assert (q + [e])[1..] == q[1..] + [e];
    }
  }

  function TakenFrames(taken: seq<Taken>): seq<Frame> { seq(|taken|, i requires 0 <= i < |taken| => taken[i].frame) }
  function GoneFrames(gone: seq<Gone>): seq<Frame> { seq(|gone|, i requires 0 <= i < |gone| => gone[i].frame) }

  /** The frame the writer has polled and not yet deleted. */
  function InHand(w: WriterPc): seq<Frame>
  {
    match w
    case WriteD(f) => [f]
    case WriteTx(f) => [f]
    case Delete(e) => FrameOf(e)
    case DrainDelete(e) => FrameOf(e)
    case _ => []
  }

  /** Of the frames deleted, those that a write was attempted for. */
  function WrittenFrames(gone: seq<Gone>): seq<Frame>
  {
    if gone == [] then []
    else WrittenFrames(gone[..|gone| - 1]) + match gone[|gone| - 1] { case Written(f) => [f] case Drained(_) => [] }
  }

  lemma WrittenAppend(gone: seq<Gone>, g: Gone)
    ensures WrittenFrames(gone + [g]) == WrittenFrames(gone) + if g.Written? then [g.frame] else []
  {
    assert (gone + [g])[..|gone|] == gone;
  }

  /** What came into the incoming queue was taken, in order, or is still there. */
  ghost predicate IncomingOk(sh: Shared)
  {
    |sh.rQueue| <= CAPACITY && sh.rPut == TakenFrames(sh.rGot) + Frames(sh.rQueue)
  }

  /** What came into the outgoing queue was deleted, in order, or is in hand, or is still there. */
  ghost predicate OutgoingOk(w: WriterPc, sh: Shared)
  {
    |sh.wQueue| <= CAPACITY && sh.wPut == GoneFrames(sh.wGone) + InHand(w) + Frames(sh.wQueue)
  }

  /** The frames a write was attempted for are, in order, those deleted as written, or in hand. */
  ghost predicate TriedOk(w: WriterPc, sh: Shared)
  {
    sh.wTried == WrittenFrames(sh.wGone) + if w.Delete? then InHand(w) else []
  }

  ghost predicate FlowOk(w: WriterPc, sh: Shared)
  {
    IncomingOk(sh) && OutgoingOk(w, sh) && TriedOk(w, sh)
  }

  ghost predicate Inv(s: State)
  {
    && Exclusive(s)
    && ThreadsOk(s.control, s.reader, s.writer, s.sh)
    && DriverOk(s.control, s.sh)
    && WakeOk(s.control, s.reader, s.writer, s.sh)
    && QuietOk(s.control, s.writer, s.sh)
    && FlowOk(s.writer, s.sh)
    && FlushOk(s.reader, s.sh)
  }

  lemma InitialInv(clients: set<nat>)
    ensures Inv(Initial(clients))
  {
    var s := Initial(clients);
    forall t: Thread
      ensures !HoldsR(s, t) && !HoldsW(s, t) && !HoldsD(s, t)
    {
    }
  }

  // ------------------------------------------------------------- steps of the control thread

  lemma OpenTouches(sh: Shared, nativeOk: bool)
    ensures var (sh', ok) := OpenRegion(sh, nativeOk); sh' == sh.(status := sh'.status, native := sh'.native)
    ensures sh.status != Closed ==> OpenRegion(sh, nativeOk) == (sh, true)
  {
  }

  lemma InitKeepsLife(c: ControlPc, nativeOk: bool, r: ReaderPc, w: WriterPc, sh: Shared)
    requires InInit(c) && LifeOk(r, w, sh) && StageOk(c, r, w, sh) && InitGo(c, nativeOk, sh).Some?
    ensures var m := InitGo(c, nativeOk, sh).value; LifeOk(r, w, m.sh)
  {
    hide PhaseOf, Offered, StageOk;
  }

  lemma OpenKeepsTermStage(c: ControlPc, nativeOk: bool, r: ReaderPc, w: WriterPc, sh: Shared)
    requires (c.InitOpen? || c.StartOpen?) && InitGo(c, nativeOk, sh).Some?
    requires LifeOk(r, w, sh) && StageOk(c, r, w, sh) && DriverOk(c, sh)
    ensures var m := InitGo(c, nativeOk, sh).value; TermStageOk(m.pc, m.sh)
  {
    hide PhaseOf, OpenRegion;
    OpenTouches(sh, nativeOk);
  }

  lemma WalkKeepsTermStage(c: ControlPc, nativeOk: bool, r: ReaderPc, w: WriterPc, sh: Shared)
    requires InInit(c) && !c.InitOpen? && !c.StartOpen? && InitGo(c, nativeOk, sh).Some?
    requires LifeOk(r, w, sh) && StageOk(c, r, w, sh)
    ensures var m := InitGo(c, nativeOk, sh).value; TermStageOk(m.pc, m.sh)
  {
    hide PhaseOf, OpenRegion;
  }

  lemma InitKeepsTermStage(c: ControlPc, nativeOk: bool, r: ReaderPc, w: WriterPc, sh: Shared)
    requires InInit(c) && LifeOk(r, w, sh) && StageOk(c, r, w, sh) && DriverOk(c, sh) && InitGo(c, nativeOk, sh).Some?
    ensures var m := InitGo(c, nativeOk, sh).value; TermStageOk(m.pc, m.sh)
  {
    hide InitGo, TermStageOk;
    if c.InitOpen? || c.StartOpen? {
      OpenKeepsTermStage(c, nativeOk, r, w, sh);
    } else {
      WalkKeepsTermStage(c, nativeOk, r, w, sh);
    }
  }

  lemma OpenKeepsInitStage(c: ControlPc, nativeOk: bool, r: ReaderPc, w: WriterPc, sh: Shared)
    requires (c.InitOpen? || c.StartOpen?) && InitGo(c, nativeOk, sh).Some?
    requires LifeOk(r, w, sh) && StageOk(c, r, w, sh) && DriverOk(c, sh)
    ensures var m := InitGo(c, nativeOk, sh).value; InitStageOk(m.pc, r, w, m.sh)
  {
    hide PhaseOf, OpenRegion;
    OpenTouches(sh, nativeOk);
  }

  lemma WalkKeepsInitStage(c: ControlPc, nativeOk: bool, r: ReaderPc, w: WriterPc, sh: Shared)
    requires InInit(c) && !c.InitOpen? && !c.StartOpen? && InitGo(c, nativeOk, sh).Some?
    requires LifeOk(r, w, sh) && StageOk(c, r, w, sh)
    ensures var m := InitGo(c, nativeOk, sh).value; InitStageOk(m.pc, r, w, m.sh)
  {
    hide PhaseOf, OpenRegion;
  }

  lemma InitKeepsInitStage(c: ControlPc, nativeOk: bool, r: ReaderPc, w: WriterPc, sh: Shared)
    requires InInit(c) && LifeOk(r, w, sh) && StageOk(c, r, w, sh) && DriverOk(c, sh) && InitGo(c, nativeOk, sh).Some?
    ensures var m := InitGo(c, nativeOk, sh).value; InitStageOk(m.pc, r, w, m.sh)
  {
    hide InitGo, InitStageOk;
    if c.InitOpen? || c.StartOpen? {
      OpenKeepsInitStage(c, nativeOk, r, w, sh);
    } else {
      WalkKeepsInitStage(c, nativeOk, r, w, sh);
    }
  }

  lemma InitKeepsStage(c: ControlPc, nativeOk: bool, r: ReaderPc, w: WriterPc, sh: Shared)
    requires InInit(c) && LifeOk(r, w, sh) && StageOk(c, r, w, sh) && DriverOk(c, sh) && InitGo(c, nativeOk, sh).Some?
    ensures var m := InitGo(c, nativeOk, sh).value; StageOk(m.pc, r, w, m.sh)
  {
    hide InitGo, TermStageOk, InitStageOk;
    InitKeepsTermStage(c, nativeOk, r, w, sh);
    InitKeepsInitStage(c, nativeOk, r, w, sh);
  }

  lemma InitKeepsDriver(c: ControlPc, nativeOk: bool, r: ReaderPc, w: WriterPc, sh: Shared)
    requires InInit(c) && StageOk(c, r, w, sh) && DriverOk(c, sh) && InitGo(c, nativeOk, sh).Some?
    ensures var m := InitGo(c, nativeOk, sh).value; DriverOk(m.pc, m.sh)
  {
    hide PhaseOf, StageOk;
    if c.InitOpen? || c.StartOpen? {
      PhaseOfAppend(sh.native, Open(nativeOk));
    } else {
      hide OpenRegion;
    }
  }

  lemma InitKeepsWake(c: ControlPc, nativeOk: bool, r: ReaderPc, w: WriterPc, sh: Shared)
    requires InInit(c) && StageOk(c, r, w, sh) && DriverOk(c, sh) && WakeOk(c, r, w, sh)
    requires InitGo(c, nativeOk, sh).Some?
    ensures var m := InitGo(c, nativeOk, sh).value; WakeOk(m.pc, r, w, m.sh)
  {
    hide PhaseOf;
  }

  lemma InitKeepsQuiet(c: ControlPc, nativeOk: bool, r: ReaderPc, w: WriterPc, sh: Shared)
    requires InInit(c) && LifeOk(r, w, sh) && StageOk(c, r, w, sh) && QuietOk(c, w, sh) && InitGo(c, nativeOk, sh).Some?
    ensures var m := InitGo(c, nativeOk, sh).value; QuietOk(m.pc, w, m.sh)
  {
    hide TermStageOk, OpenRegion;
    OpenTouches(sh, nativeOk);
  }

  lemma CloseKeepsLife(c: ControlPc, nativeOk: bool, r: ReaderPc, w: WriterPc, sh: Shared)
    requires InClose(c) && LifeOk(r, w, sh) && StageOk(c, r, w, sh) && CloseGo(c, nativeOk, sh).Some?
    ensures var m := CloseGo(c, nativeOk, sh).value; LifeOk(r, w, m.sh)
  {
    hide PhaseOf, Offered, StageOk;
  }

  lemma CloseKeepsTermStage(c: ControlPc, nativeOk: bool, r: ReaderPc, w: WriterPc, sh: Shared)
    requires InClose(c) && LifeOk(r, w, sh) && StageOk(c, r, w, sh) && DriverOk(c, sh) && CloseGo(c, nativeOk, sh).Some?
    ensures var m := CloseGo(c, nativeOk, sh).value; TermStageOk(m.pc, m.sh)
  {
    hide PhaseOf, Offered;
  }

  lemma CloseKeepsInitStage(c: ControlPc, nativeOk: bool, r: ReaderPc, w: WriterPc, sh: Shared)
    requires InClose(c) && LifeOk(r, w, sh) && StageOk(c, r, w, sh) && DriverOk(c, sh) && CloseGo(c, nativeOk, sh).Some?
    ensures var m := CloseGo(c, nativeOk, sh).value; InitStageOk(m.pc, r, w, m.sh)
  {
    hide PhaseOf, Offered;
  }

  lemma CloseKeepsStage(c: ControlPc, nativeOk: bool, r: ReaderPc, w: WriterPc, sh: Shared)
    requires InClose(c) && LifeOk(r, w, sh) && StageOk(c, r, w, sh) && DriverOk(c, sh) && CloseGo(c, nativeOk, sh).Some?
    ensures var m := CloseGo(c, nativeOk, sh).value; StageOk(m.pc, r, w, m.sh)
  {
    hide CloseGo, TermStageOk, InitStageOk;
    CloseKeepsTermStage(c, nativeOk, r, w, sh);
    CloseKeepsInitStage(c, nativeOk, r, w, sh);
  }

  lemma CloseKeepsDriver(c: ControlPc, nativeOk: bool, r: ReaderPc, w: WriterPc, sh: Shared)
    requires InClose(c) && StageOk(c, r, w, sh) && DriverOk(c, sh) && CloseGo(c, nativeOk, sh).Some?
    ensures var m := CloseGo(c, nativeOk, sh).value; DriverOk(m.pc, m.sh)
  {
    hide PhaseOf, Offered, StageOk;
    PhaseOfAppend(sh.native, Close(true));
    PhaseOfAppend(sh.native, Close(false));
  }

  lemma CloseKeepsWake(c: ControlPc, nativeOk: bool, r: ReaderPc, w: WriterPc, sh: Shared)
    requires InClose(c) && StageOk(c, r, w, sh) && DriverOk(c, sh) && WakeOk(c, r, w, sh)
    requires CloseGo(c, nativeOk, sh).Some?
    ensures var m := CloseGo(c, nativeOk, sh).value; WakeOk(m.pc, r, w, m.sh)
  {
    hide PhaseOf;
  }

  lemma CloseKeepsQuiet(c: ControlPc, nativeOk: bool, r: ReaderPc, w: WriterPc, sh: Shared)
    requires InClose(c) && LifeOk(r, w, sh) && StageOk(c, r, w, sh) && QuietOk(c, w, sh)
    requires CloseGo(c, nativeOk, sh).Some?
    ensures var m := CloseGo(c, nativeOk, sh).value; QuietOk(m.pc, w, m.sh)
  {
  }

  lemma TermKeepsLife(c: ControlPc, r: ReaderPc, w: WriterPc, sh: Shared)
    requires !c.ControlIdle? && !InInit(c) && !InClose(c) && LifeOk(r, w, sh)
    requires StageOk(c, r, w, sh) && TermGo(c, sh).Some?
    ensures var m := TermGo(c, sh).value; LifeOk(r, w, m.sh)
  {
    hide PhaseOf, Offered;
  }

  lemma TermKeepsTermStage(c: ControlPc, r: ReaderPc, w: WriterPc, sh: Shared)
    requires !c.ControlIdle? && !InInit(c) && !InClose(c) && StageOk(c, r, w, sh) && TermGo(c, sh).Some?
    ensures var m := TermGo(c, sh).value; TermStageOk(m.pc, m.sh)
  {
    hide Offered;
  }

  lemma TermKeepsInitStage(c: ControlPc, r: ReaderPc, w: WriterPc, sh: Shared)
    requires !c.ControlIdle? && !InInit(c) && !InClose(c) && LifeOk(r, w, sh)
    requires StageOk(c, r, w, sh) && TermGo(c, sh).Some?
    ensures var m := TermGo(c, sh).value; InitStageOk(m.pc, r, w, m.sh)
  {
    hide Offered;
  }

  lemma TermKeepsStage(c: ControlPc, r: ReaderPc, w: WriterPc, sh: Shared)
    requires !c.ControlIdle? && !InInit(c) && !InClose(c) && LifeOk(r, w, sh) && StageOk(c, r, w, sh)
    requires DriverOk(c, sh) && TermGo(c, sh).Some?
    ensures var m := TermGo(c, sh).value; StageOk(m.pc, r, w, m.sh)
  {
    hide TermGo, TermStageOk, InitStageOk;
    TermKeepsTermStage(c, r, w, sh);
    TermKeepsInitStage(c, r, w, sh);
  }

  lemma TermKeepsDriver(c: ControlPc, r: ReaderPc, w: WriterPc, sh: Shared)
    requires !c.ControlIdle? && !InInit(c) && !InClose(c) && StageOk(c, r, w, sh)
    requires DriverOk(c, sh) && TermGo(c, sh).Some?
    ensures var m := TermGo(c, sh).value; DriverOk(m.pc, m.sh)
  {
    hide PhaseOf, Offered, StageOk;
  }

  lemma TermKeepsWake(c: ControlPc, r: ReaderPc, w: WriterPc, sh: Shared)
    requires !c.ControlIdle? && !InInit(c) && !InClose(c) && StageOk(c, r, w, sh) && DriverOk(c, sh)
    requires WakeOk(c, r, w, sh) && TermGo(c, sh).Some?
    ensures var m := TermGo(c, sh).value; WakeOk(m.pc, r, w, m.sh)
  {
    hide PhaseOf;
  }

  lemma TermKeepsQuiet(c: ControlPc, r: ReaderPc, w: WriterPc, sh: Shared)
    requires !c.ControlIdle? && !InInit(c) && !InClose(c) && LifeOk(r, w, sh) && StageOk(c, r, w, sh)
    requires QuietOk(c, w, sh) && TermGo(c, sh).Some?
    ensures var m := TermGo(c, sh).value; QuietOk(m.pc, w, m.sh)
  {
  }

  lemma InitKeepsFlow(c: ControlPc, nativeOk: bool, w: WriterPc, sh: Shared)
    requires InInit(c) && FlowOk(w, sh) && InitGo(c, nativeOk, sh).Some?
    ensures FlowOk(w, InitGo(c, nativeOk, sh).value.sh)
  {
    hide Frames, TakenFrames, GoneFrames, InHand, WrittenFrames, StopRequested;
  }

  lemma CloseKeepsFlow(c: ControlPc, nativeOk: bool, w: WriterPc, sh: Shared)
    requires InClose(c) && FlowOk(w, sh) && CloseGo(c, nativeOk, sh).Some?
    ensures FlowOk(w, CloseGo(c, nativeOk, sh).value.sh)
  {
    hide Frames, TakenFrames, GoneFrames, InHand, WrittenFrames, StopRequested;
    FramesAppend(sh.rQueue, Sentinel);
  }

  lemma TermKeepsFlow(c: ControlPc, w: WriterPc, sh: Shared)
    requires !c.ControlIdle? && !InInit(c) && !InClose(c) && FlowOk(w, sh) && TermGo(c, sh).Some?
    ensures FlowOk(w, TermGo(c, sh).value.sh)
  {
    hide Frames, TakenFrames, GoneFrames, InHand, WrittenFrames, StopRequested;
    FramesAppend(sh.wQueue, Sentinel);
  }

  // ------------------------------------------------------------- steps of the reader

  lemma ReaderKeepsLife(r: ReaderPc, choice: Choice, w: WriterPc, sh: Shared)
    requires LifeOk(r, w, sh) && ReaderMove(r, choice, sh).Some?
    ensures var m := ReaderMove(r, choice, sh).value; LifeOk(m.pc, w, m.sh)
  {
  }

  /** The reader begins to run, completes its stop, or leaves every flag alone. */
  ghost predicate ReaderFlags(r: ReaderPc, sh: Shared, r': ReaderPc, sh': Shared)
  {
    || (SameFlags(sh, sh') && r'.ReaderExited? == r.ReaderExited?)
    || (r.ReaderExited? && sh.readerPending && !r'.ReaderExited?
        && sh'.readerRun == Running && !sh'.readerPending
        && SameFlags(sh.(readerRun := Running, readerPending := false), sh'))
    || (r.ReaderLeaving? && r'.ReaderExited? && SameFlags(sh.(readerRun := Stopped), sh'))
  }

  lemma ReaderMoveFlags(r: ReaderPc, choice: Choice, sh: Shared)
    requires ReaderMove(r, choice, sh).Some?
    ensures var m := ReaderMove(r, choice, sh).value; ReaderFlags(r, sh, m.pc, m.sh)
  {
  }

  lemma ReaderKeepsTermStage(c: ControlPc, r: ReaderPc, choice: Choice, w: WriterPc, sh: Shared)
    requires LifeOk(r, w, sh) && StageOk(c, r, w, sh) && ReaderMove(r, choice, sh).Some?
    ensures var m := ReaderMove(r, choice, sh).value; TermStageOk(c, m.sh)
  {
    hide ReaderMove;
    ReaderMoveFlags(r, choice, sh);
  }

  lemma ReaderKeepsInitStage(c: ControlPc, r: ReaderPc, choice: Choice, w: WriterPc, sh: Shared)
    requires LifeOk(r, w, sh) && StageOk(c, r, w, sh) && ReaderMove(r, choice, sh).Some?
    ensures var m := ReaderMove(r, choice, sh).value; InitStageOk(c, m.pc, w, m.sh)
  {
    hide ReaderMove;
    ReaderMoveFlags(r, choice, sh);
  }

  lemma ReaderKeepsStage(c: ControlPc, r: ReaderPc, choice: Choice, w: WriterPc, sh: Shared)
    requires LifeOk(r, w, sh) && StageOk(c, r, w, sh) && ReaderMove(r, choice, sh).Some?
    ensures var m := ReaderMove(r, choice, sh).value; StageOk(c, m.pc, w, m.sh)
  {
    hide ReaderMove, TermStageOk, InitStageOk;
    ReaderKeepsTermStage(c, r, choice, w, sh);
    ReaderKeepsInitStage(c, r, choice, w, sh);
  }

  /** What a thread other than control does to the driver: nothing, or a call while it is open. */
  ghost predicate DriverUsed(sh: Shared, sh': Shared)
  {
    && sh'.status == sh.status
    && (sh'.native == sh.native
        || (sh.status == Opened
            && exists call: NativeCall | !call.Open? && !call.Close? :: sh'.native == sh.native + [call]))
  }

  lemma UseKeepsDriver(c: ControlPc, sh: Shared, sh': Shared)
    requires DriverOk(c, sh) && DriverUsed(sh, sh')
    ensures DriverOk(c, sh')
  {
    hide PhaseOf;
    if sh'.native != sh.native {
      var call: NativeCall :| !call.Open? && !call.Close? && sh'.native == sh.native + [call];
      PhaseOfAppend(sh.native, call);
    }
  }

  lemma ReaderUses(r: ReaderPc, choice: Choice, sh: Shared)
    requires ReaderMove(r, choice, sh).Some?
    ensures DriverUsed(sh, ReaderMove(r, choice, sh).value.sh)
  {
    if r.ListenerTx? && sh.status == Opened {
      assert ReaderMove(r, choice, sh).value.sh.native == sh.native + [Tx(r.frame)];
    }
  }

  lemma WriterUses(w: WriterPc, choice: Choice, sh: Shared)
    requires WriterMove(w, choice, sh).Some?
    ensures DriverUsed(sh, WriterMove(w, choice, sh).value.sh)
  {
    if w.WriteTx? && sh.status == Opened {
      assert WriterMove(w, choice, sh).value.sh.native == sh.native + [Tx(w.frame)];
    }
  }

  lemma ReaderKeepsDriver(c: ControlPc, r: ReaderPc, choice: Choice, sh: Shared)
    requires DriverOk(c, sh) && ReaderMove(r, choice, sh).Some?
    ensures var m := ReaderMove(r, choice, sh).value; DriverOk(c, m.sh)
  {
    hide ReaderMove, DriverOk, DriverUsed;
    ReaderUses(r, choice, sh);
    UseKeepsDriver(c, sh, ReaderMove(r, choice, sh).value.sh);
  }

  /** The reader goes to poll only after it saw the driver open under the driver's mutex. */
  lemma ReaderKeepsWake(c: ControlPc, r: ReaderPc, choice: Choice, w: WriterPc, sh: Shared)
    requires WakeOk(c, r, w, sh) && ReaderMove(r, choice, sh).Some?
    ensures var m := ReaderMove(r, choice, sh).value; WakeOk(c, m.pc, w, m.sh)
  {
  }

  lemma ReaderKeepsQuiet(c: ControlPc, r: ReaderPc, choice: Choice, w: WriterPc, sh: Shared)
    requires QuietOk(c, w, sh) && ReaderMove(r, choice, sh).Some?
    ensures var m := ReaderMove(r, choice, sh).value; QuietOk(c, w, m.sh)
  {
  }

  lemma FramesPop(taken: seq<Taken>, t: Taken, q: seq<Entry>)
    requires q != [] && q[0] == Ptr(t.frame)
    ensures TakenFrames(taken) + Frames(q) == TakenFrames(taken + [t]) + Frames(q[1..])
  {
    assert TakenFrames(taken + [t]) == TakenFrames(taken) + [t.frame];
  }

  lemma ReaderKeepsIncoming(r: ReaderPc, choice: Choice, sh: Shared)
    requires IncomingOk(sh) && ReaderMove(r, choice, sh).Some?
    ensures IncomingOk(ReaderMove(r, choice, sh).value.sh)
  {
    hide TakenFrames, Frames;
    if sh.rQueue != [] && sh.rQueue[0].Ptr? {
      FramesPop(sh.rGot, Delivered(sh.rQueue[0].frame), sh.rQueue);
      FramesPop(sh.rGot, Flushed(sh.rQueue[0].frame), sh.rQueue);
    } else if sh.rQueue != [] {
      SentinelPop(sh.rQueue);
    }
  }

  lemma SentinelPop(q: seq<Entry>)
    requires q != [] && q[0] == Sentinel
    ensures Frames(q[1..]) == Frames(q)
  {
  }

  lemma ReaderKeepsOutgoing(r: ReaderPc, choice: Choice, w: WriterPc, sh: Shared)
    requires OutgoingOk(w, sh) && TriedOk(w, sh) && ReaderMove(r, choice, sh).Some?
    ensures var m := ReaderMove(r, choice, sh).value; OutgoingOk(w, m.sh) && TriedOk(w, m.sh)
  {
    hide GoneFrames, Frames, InHand, WrittenFrames;
  }

  lemma ReaderKeepsFlush(r: ReaderPc, choice: Choice, sh: Shared)
    requires FlushOk(r, sh) && ReaderMove(r, choice, sh).Some?
    ensures var m := ReaderMove(r, choice, sh).value; FlushOk(m.pc, m.sh)
  {
  }

  // ------------------------------------------------------------- steps of the writer

  lemma WriterKeepsLife(r: ReaderPc, w: WriterPc, choice: Choice, sh: Shared)
    requires LifeOk(r, w, sh) && WriterMove(w, choice, sh).Some?
    ensures var m := WriterMove(w, choice, sh).value; LifeOk(r, m.pc, m.sh)
  {
  }

  /** The writer begins to run, completes its stop, or leaves every flag alone. */
  ghost predicate WriterFlags(w: WriterPc, sh: Shared, w': WriterPc, sh': Shared)
  {
    || (SameFlags(sh, sh') && w'.WriterExited? == w.WriterExited?)
    || (w.WriterExited? && sh.writerPending && !w'.WriterExited?
        && sh'.writerRun == Running && !sh'.writerPending
        && SameFlags(sh.(writerRun := Running, writerPending := false), sh'))
    || (w.WriterLeaving? && w'.WriterExited? && SameFlags(sh.(writerRun := Stopped), sh'))
  }

  lemma WriterMoveFlags(w: WriterPc, choice: Choice, sh: Shared)
    requires WriterMove(w, choice, sh).Some?
    ensures var m := WriterMove(w, choice, sh).value; WriterFlags(w, sh, m.pc, m.sh)
  {
  }

  lemma WriterKeepsTermStage(c: ControlPc, r: ReaderPc, w: WriterPc, choice: Choice, sh: Shared)
    requires LifeOk(r, w, sh) && StageOk(c, r, w, sh) && WriterMove(w, choice, sh).Some?
    ensures var m := WriterMove(w, choice, sh).value; TermStageOk(c, m.sh)
  {
    hide WriterMove;
    WriterMoveFlags(w, choice, sh);
  }

  lemma WriterKeepsInitStage(c: ControlPc, r: ReaderPc, w: WriterPc, choice: Choice, sh: Shared)
    requires LifeOk(r, w, sh) && StageOk(c, r, w, sh) && WriterMove(w, choice, sh).Some?
    ensures var m := WriterMove(w, choice, sh).value; InitStageOk(c, r, m.pc, m.sh)
  {
    hide WriterMove;
    WriterMoveFlags(w, choice, sh);
  }

  lemma WriterKeepsStage(c: ControlPc, r: ReaderPc, w: WriterPc, choice: Choice, sh: Shared)
    requires LifeOk(r, w, sh) && StageOk(c, r, w, sh) && WriterMove(w, choice, sh).Some?
    ensures var m := WriterMove(w, choice, sh).value; StageOk(c, r, m.pc, m.sh)
  {
    hide WriterMove, TermStageOk, InitStageOk;
    WriterKeepsTermStage(c, r, w, choice, sh);
    WriterKeepsInitStage(c, r, w, choice, sh);
  }

  lemma WriterKeepsDriver(c: ControlPc, w: WriterPc, choice: Choice, sh: Shared)
    requires DriverOk(c, sh) && WriterMove(w, choice, sh).Some?
    ensures var m := WriterMove(w, choice, sh).value; DriverOk(c, m.sh)
  {
    hide WriterMove, DriverOk, DriverUsed;
    WriterUses(w, choice, sh);
    UseKeepsDriver(c, sh, WriterMove(w, choice, sh).value.sh);
  }

  lemma WriterKeepsWake(c: ControlPc, r: ReaderPc, w: WriterPc, choice: Choice, sh: Shared)
    requires WakeOk(c, r, w, sh) && WriterMove(w, choice, sh).Some?
    ensures var m := WriterMove(w, choice, sh).value; WakeOk(c, r, m.pc, m.sh)
  {
  }

  lemma WriterKeepsQuiet(c: ControlPc, r: ReaderPc, w: WriterPc, choice: Choice, sh: Shared)
    requires LifeOk(r, w, sh) && StageOk(c, r, w, sh) && QuietOk(c, w, sh) && WriterMove(w, choice, sh).Some?
    ensures var m := WriterMove(w, choice, sh).value; QuietOk(c, m.pc, m.sh)
  {
  }

  lemma PollIntoHand(gone: seq<Frame>, q: seq<Entry>)
    requires q != []
    ensures gone + [] + Frames(q) == gone + FrameOf(q[0]) + Frames(q[1..])
  {
  }

  lemma DeleteFromHand(gone: seq<Gone>, g: Gone, rest: seq<Frame>)
    ensures GoneFrames(gone) + [g.frame] + rest == GoneFrames(gone + [g]) + [] + rest
  {
    assert GoneFrames(gone + [g]) == GoneFrames(gone) + [g.frame];
  }

  /** The writer polls one entry into an empty hand, deletes what it holds, or does neither. */
  ghost predicate WriterHandles(w: WriterPc, sh: Shared, w': WriterPc, sh': Shared)
  {
    || (sh'.wQueue == sh.wQueue && sh'.wGone == sh.wGone && InHand(w') == InHand(w))
    || (sh.wQueue != [] && sh'.wQueue == sh.wQueue[1..] && sh'.wGone == sh.wGone
        && InHand(w) == [] && InHand(w') == FrameOf(sh.wQueue[0]))
    || (sh'.wQueue == sh.wQueue && InHand(w') == []
        && exists g :: sh'.wGone == sh.wGone + [g] && InHand(w) == [g.frame])
  }

  lemma WriterMoveHandles(w: WriterPc, choice: Choice, sh: Shared)
    requires WriterMove(w, choice, sh).Some?
    ensures var m := WriterMove(w, choice, sh).value; WriterHandles(w, sh, m.pc, m.sh) && m.sh.wPut == sh.wPut
  {
    var m := WriterMove(w, choice, sh).value;
    if w.Delete? && w.entry.Ptr? {
      assert m.sh.wGone == sh.wGone + [Written(w.entry.frame)];
    } else if w.DrainDelete? && w.entry.Ptr? {
      assert m.sh.wGone == sh.wGone + [Drained(w.entry.frame)];
    }
  }

  lemma WriterKeepsOutgoing(w: WriterPc, choice: Choice, sh: Shared)
    requires OutgoingOk(w, sh) && WriterMove(w, choice, sh).Some?
    ensures var m := WriterMove(w, choice, sh).value; OutgoingOk(m.pc, m.sh)
  {
    hide WriterMove, Frames, GoneFrames, InHand, FrameOf;
    WriterMoveHandles(w, choice, sh);
    var sh' := WriterMove(w, choice, sh).value.sh;
    if sh'.wQueue != sh.wQueue {
      PollIntoHand(GoneFrames(sh.wGone), sh.wQueue);
    } else if sh'.wGone != sh.wGone {
      var g :| sh'.wGone == sh.wGone + [g] && InHand(w) == [g.frame];
      DeleteFromHand(sh.wGone, g, Frames(sh.wQueue));
    }
  }

  lemma WriterKeepsTried(w: WriterPc, choice: Choice, sh: Shared)
    requires TriedOk(w, sh) && WriterMove(w, choice, sh).Some?
    ensures var m := WriterMove(w, choice, sh).value; TriedOk(m.pc, m.sh)
  {
    hide WrittenFrames;
    if (w.Delete? || w.DrainDelete?) && w.entry.Ptr? {
      WrittenAppend(sh.wGone, if w.Delete? then Written(w.entry.frame) else Drained(w.entry.frame));
    }
  }

  lemma WriterKeepsIncoming(w: WriterPc, choice: Choice, sh: Shared)
    requires IncomingOk(sh) && WriterMove(w, choice, sh).Some?
    ensures IncomingOk(WriterMove(w, choice, sh).value.sh)
  {
    hide Frames, TakenFrames;
  }

  // ------------------------------------------------------------- steps of clients and callbacks

  lemma ClientUses(pc: ClientPc, choice: Choice, sh: Shared)
    requires ClientMove(pc, choice, sh).Some?
    ensures DriverUsed(sh, ClientMove(pc, choice, sh).value.sh)
  {
    if sh.status == Opened {
      match pc
      case SendTx(f, _) => assert ClientMove(pc, choice, sh).value.sh.native == sh.native + [Tx(f)];
      case AddressTest(add, a) =>
        assert ClientMove(pc, choice, sh).value.sh.native == sh.native + [if add then Add(a) else Remove(a)];
      case _ =>
    }
  }

  lemma ClientKeepsDriver(c: ControlPc, pc: ClientPc, choice: Choice, sh: Shared)
    requires DriverOk(c, sh) && ClientMove(pc, choice, sh).Some?
    ensures DriverOk(c, ClientMove(pc, choice, sh).value.sh)
  {
    hide ClientMove, DriverOk, DriverUsed;
    ClientUses(pc, choice, sh);
    UseKeepsDriver(c, sh, ClientMove(pc, choice, sh).value.sh);
  }

  ghost predicate Grown(sh: Shared, sh': Shared)
  {
    exists f :: |sh.wQueue| < CAPACITY && sh'.wQueue == sh.wQueue + [Ptr(f)] && sh'.wPut == sh.wPut + [f]
  }

  /** Everything a client leaves alone. */
  ghost predicate ClientFrame(sh: Shared, sh': Shared)
  {
    && sh' == sh.(native := sh'.native, wQueue := sh'.wQueue, wPut := sh'.wPut)
    && (!sh.started ==> sh'.wQueue == sh.wQueue && sh'.wPut == sh.wPut)
    && ((sh'.wQueue == sh.wQueue && sh'.wPut == sh.wPut) || Grown(sh, sh'))
  }

  lemma ClientStaysInFrame(pc: ClientPc, choice: Choice, sh: Shared)
    requires ClientMove(pc, choice, sh).Some?
    ensures ClientFrame(sh, ClientMove(pc, choice, sh).value.sh)
  {
  }

  /** The fields the stop protocol looks at. */
  ghost predicate SameFlags(sh: Shared, sh': Shared)
  {
    && sh'.initialized == sh.initialized && sh'.started == sh.started && sh'.status == sh.status
    && sh'.readerRun == sh.readerRun && sh'.readerPending == sh.readerPending
    && sh'.writerRun == sh.writerRun && sh'.writerPending == sh.writerPending
  }

  lemma FlagsKeepLife(r: ReaderPc, w: WriterPc, sh: Shared, sh': Shared)
    requires LifeOk(r, w, sh) && SameFlags(sh, sh')
    ensures LifeOk(r, w, sh')
  {
  }

  lemma FlagsKeepTermStage(c: ControlPc, sh: Shared, sh': Shared)
    requires TermStageOk(c, sh) && SameFlags(sh, sh')
    ensures TermStageOk(c, sh')
  {
    hide InTerm, ReaderAsked, ReaderGone, WriterAsked, WriterGone;
  }

  lemma FlagsKeepInitStage(c: ControlPc, r: ReaderPc, w: WriterPc, sh: Shared, sh': Shared)
    requires InitStageOk(c, r, w, sh) && SameFlags(sh, sh')
    ensures InitStageOk(c, r, w, sh')
  {
    hide InTerm, InInit;
  }

  lemma FlagsKeepThreads(c: ControlPc, r: ReaderPc, w: WriterPc, sh: Shared, sh': Shared)
    requires LifeOk(r, w, sh) && StageOk(c, r, w, sh) && SameFlags(sh, sh')
    ensures LifeOk(r, w, sh') && StageOk(c, r, w, sh')
  {
    hide TermStageOk, InitStageOk, LifeOk;
    FlagsKeepLife(r, w, sh, sh');
    FlagsKeepTermStage(c, sh, sh');
    FlagsKeepInitStage(c, r, w, sh, sh');
  }

  lemma GrowthKeepsWake(c: ControlPc, r: ReaderPc, w: WriterPc, sh: Shared, sh': Shared)
    requires WakeOk(c, r, w, sh) && SameFlags(sh, sh')
    requires |sh.rQueue| <= |sh'.rQueue| && |sh.wQueue| <= |sh'.wQueue|
    ensures WakeOk(c, r, w, sh')
  {
  }

  lemma ClientKeepsQuiet(c: ControlPc, r: ReaderPc, w: WriterPc, sh: Shared, sh': Shared)
    requires QuietOk(c, w, sh) && ClientFrame(sh, sh')
    ensures QuietOk(c, w, sh')
  {
  }

  lemma ClientKeepsFlow(w: WriterPc, sh: Shared, sh': Shared)
    requires FlowOk(w, sh) && ClientFrame(sh, sh')
    ensures FlowOk(w, sh')
  {
    hide Frames, TakenFrames, GoneFrames, InHand, WrittenFrames;
    if !(sh'.wQueue == sh.wQueue && sh'.wPut == sh.wPut) {
      var f :| |sh.wQueue| < CAPACITY && sh'.wQueue == sh.wQueue + [Ptr(f)] && sh'.wPut == sh.wPut + [f];
      FramesAppend(sh.wQueue, Ptr(f));
      AppendLast(GoneFrames(sh.wGone) + InHand(w), Frames(sh.wQueue), f);
    }
  }

  lemma AppendLast(a: seq<Frame>, b: seq<Frame>, f: Frame)
    ensures a + b + [f] == a + (b + [f])
  {
  }

  lemma CallbackKeepsFlow(w: WriterPc, sh: Shared, f: Frame)
    requires FlowOk(w, sh)
    ensures FlowOk(w, PutIncoming(sh, f))
  {
    hide Frames, TakenFrames, GoneFrames, InHand, WrittenFrames;
    FramesAppend(sh.rQueue, Ptr(f));
    AppendLast(TakenFrames(sh.rGot), Frames(sh.rQueue), f);
  }

  /** The two steps of a callback: neither the fields of the protocol nor the trace are touched. */
  lemma CallbackKeeps(s: State, sh': Shared)
    requires Inv(s) && FlowOk(s.writer, sh')
    requires SameFlags(s.sh, sh') && sh'.native == s.sh.native && sh'.wQueue == s.sh.wQueue
    requires |s.sh.rQueue| <= |sh'.rQueue|
    ensures Inv(s.(sh := sh'))
  {
    hide FlowOk, LifeOk, StageOk, WakeOk, PhaseOf;
    FlagsKeepThreads(s.control, s.reader, s.writer, s.sh, sh');
    GrowthKeepsWake(s.control, s.reader, s.writer, s.sh, sh');
    assert Exclusive(s.(sh := sh')) by {
      hide DriverOk, QuietOk;
      HandOver(s, Control, Move(s.control, Keep, Keep, Keep, sh'), s.(sh := sh'));
    }
  }

  // ------------------------------------------------------------- one step, any run

  lemma ControlKeepsFlush(s: State, choice: Choice)
    requires Exclusive(s) && FlushOk(s.reader, s.sh) && Next(s, ControlStep(choice)).Some?
    ensures FlushOk(s.reader, Next(s, ControlStep(choice)).value.sh)
  {
    assert HoldsD(s, Control) <==> s.d == Some(Control);
    assert HoldsD(s, Reader) <==> s.d == Some(Reader);
    if !s.control.ControlIdle? && !ControlD(s.control) {
      OnlyOpenOpens(s.control, choice.Go?, s.sh);
    }
  }

  lemma OnlyOpenOpens(c: ControlPc, nativeOk: bool, sh: Shared)
    requires !c.ControlIdle? && ControlGo(c, nativeOk, sh).Some? && !ControlD(c)
    ensures ControlGo(c, nativeOk, sh).value.sh.status == sh.status
  {
  }

  /** The invariant without the mutexes and the flush. */
  ghost predicate CoreOk(c: ControlPc, r: ReaderPc, w: WriterPc, sh: Shared)
  {
    && LifeOk(r, w, sh) && StageOk(c, r, w, sh) && DriverOk(c, sh)
    && WakeOk(c, r, w, sh) && QuietOk(c, w, sh) && FlowOk(w, sh)
  }

  lemma InitKeepsCore(c: ControlPc, nativeOk: bool, r: ReaderPc, w: WriterPc, sh: Shared)
    requires InInit(c) && CoreOk(c, r, w, sh) && InitGo(c, nativeOk, sh).Some?
    ensures var m := InitGo(c, nativeOk, sh).value; CoreOk(m.pc, r, w, m.sh)
  {
    hide InitGo, InInit, LifeOk, StageOk, DriverOk, WakeOk, QuietOk, FlowOk;
    InitKeepsLife(c, nativeOk, r, w, sh);
    InitKeepsStage(c, nativeOk, r, w, sh);
    InitKeepsDriver(c, nativeOk, r, w, sh);
    InitKeepsWake(c, nativeOk, r, w, sh);
    InitKeepsQuiet(c, nativeOk, r, w, sh);
    InitKeepsFlow(c, nativeOk, w, sh);
  }

  lemma CloseKeepsCore(c: ControlPc, nativeOk: bool, r: ReaderPc, w: WriterPc, sh: Shared)
    requires InClose(c) && CoreOk(c, r, w, sh) && CloseGo(c, nativeOk, sh).Some?
    ensures var m := CloseGo(c, nativeOk, sh).value; CoreOk(m.pc, r, w, m.sh)
  {
    hide CloseGo, InClose, LifeOk, StageOk, DriverOk, WakeOk, QuietOk, FlowOk;
    CloseKeepsLife(c, nativeOk, r, w, sh);
    CloseKeepsStage(c, nativeOk, r, w, sh);
    CloseKeepsDriver(c, nativeOk, r, w, sh);
    CloseKeepsWake(c, nativeOk, r, w, sh);
    CloseKeepsQuiet(c, nativeOk, r, w, sh);
    CloseKeepsFlow(c, nativeOk, w, sh);
  }

  lemma TermKeepsCore(c: ControlPc, r: ReaderPc, w: WriterPc, sh: Shared)
    requires !c.ControlIdle? && !InInit(c) && !InClose(c) && CoreOk(c, r, w, sh) && TermGo(c, sh).Some?
    ensures var m := TermGo(c, sh).value; CoreOk(m.pc, r, w, m.sh)
  {
    hide TermGo, InInit, InClose, LifeOk, StageOk, DriverOk, WakeOk, QuietOk, FlowOk;
    TermKeepsLife(c, r, w, sh);
    TermKeepsStage(c, r, w, sh);
    TermKeepsDriver(c, r, w, sh);
    TermKeepsWake(c, r, w, sh);
    TermKeepsQuiet(c, r, w, sh);
    TermKeepsFlow(c, w, sh);
  }

  lemma IdleKeepsStage(c: ControlPc, r: ReaderPc, w: WriterPc, sh: Shared)
    requires StageOk(ControlIdle, r, w, sh)
    requires if c == StopR then sh.initialized && !sh.readerPending && !sh.writerPending
             else c == InitD && !sh.initialized
    ensures StageOk(c, r, w, sh)
  {
  }

  lemma IdleKeepsDriver(c: ControlPc, sh: Shared)
    requires DriverOk(ControlIdle, sh) && (c == StopR || c == InitD)
    ensures DriverOk(c, sh)
  {
    hide PhaseOf;
  }

  lemma IdleKeepsQuiet(c: ControlPc, r: ReaderPc, w: WriterPc, sh: Shared)
    requires WakeOk(ControlIdle, r, w, sh) && QuietOk(ControlIdle, w, sh) && (c == StopR || c == InitD)
    ensures WakeOk(c, r, w, sh) && QuietOk(c, w, sh)
  {
  }

  lemma IdleMoves(choice: Choice, sh: Shared)
    requires ControlMove(ControlIdle, choice, sh).Some?
    ensures var m := ControlMove(ControlIdle, choice, sh).value;
            && m.sh == sh
            && if m.pc == StopR then sh.initialized && !sh.readerPending && !sh.writerPending
               else m.pc == InitD && !sh.initialized
  {
    hide ControlGo;
  }

  /** Control leaves its rest. */
  lemma IdleKeepsCore(choice: Choice, r: ReaderPc, w: WriterPc, sh: Shared)
    requires CoreOk(ControlIdle, r, w, sh) && ControlMove(ControlIdle, choice, sh).Some?
    ensures var m := ControlMove(ControlIdle, choice, sh).value; m.sh == sh && CoreOk(m.pc, r, w, sh)
  {
    hide ControlMove, FlowOk, LifeOk, StageOk, DriverOk, WakeOk, QuietOk;
    IdleMoves(choice, sh);
    var c := ControlMove(ControlIdle, choice, sh).value.pc;
    IdleKeepsStage(c, r, w, sh);
    IdleKeepsDriver(c, sh);
    IdleKeepsQuiet(c, r, w, sh);
  }

  lemma ControlKeepsCore(c: ControlPc, choice: Choice, r: ReaderPc, w: WriterPc, sh: Shared)
    requires CoreOk(c, r, w, sh) && ControlMove(c, choice, sh).Some?
    ensures var m := ControlMove(c, choice, sh).value; CoreOk(m.pc, r, w, m.sh)
  {
    hide CoreOk;
    if c.ControlIdle? {
      IdleKeepsCore(choice, r, w, sh);
    } else {
      hide InitGo, CloseGo, TermGo, InInit, InClose;
      if InInit(c) {
        InitKeepsCore(c, choice.Go?, r, w, sh);
      } else if InClose(c) {
        CloseKeepsCore(c, choice.Go?, r, w, sh);
      } else {
        TermKeepsCore(c, r, w, sh);
      }
    }
  }

  lemma ControlKeeps(s: State, choice: Choice)
    requires Inv(s) && Next(s, ControlStep(choice)).Some?
    ensures Inv(Next(s, ControlStep(choice)).value)
  {
    hide ControlMove, Exclusive, FlushOk, LifeOk, StageOk, DriverOk, WakeOk, QuietOk, FlowOk;
    StepExclusive(s, ControlStep(choice));
    ControlKeepsFlush(s, choice);
    ControlKeepsCore(s.control, choice, s.reader, s.writer, s.sh);
  }

  lemma NextInv(s: State, a: Action)
    requires Inv(s) && Next(s, a).Some?
    ensures Inv(Next(s, a).value)
  {
    hide ControlMove, ReaderMove, WriterMove, ClientMove;
    hide Exclusive, IncomingOk, OutgoingOk, TriedOk, LifeOk, StageOk, DriverOk, WakeOk, QuietOk, PutIncoming;
    var c, r, w, sh := s.control, s.reader, s.writer, s.sh;
    match a
    case ControlStep(choice) =>
      ControlKeeps(s, choice);
    case ReaderStep(choice) =>
      StepExclusive(s, a);
      ReaderKeepsLife(r, choice, w, sh);
      ReaderKeepsStage(c, r, choice, w, sh);
      ReaderKeepsDriver(c, r, choice, sh);
      ReaderKeepsWake(c, r, choice, w, sh);
      ReaderKeepsQuiet(c, r, choice, w, sh);
      ReaderKeepsIncoming(r, choice, sh);
      ReaderKeepsOutgoing(r, choice, w, sh);
      ReaderKeepsFlush(r, choice, sh);
    case WriterStep(choice) =>
      StepExclusive(s, a);
      WriterKeepsLife(r, w, choice, sh);
      WriterKeepsStage(c, r, w, choice, sh);
      WriterKeepsDriver(c, w, choice, sh);
      WriterKeepsWake(c, r, w, choice, sh);
      WriterKeepsQuiet(c, r, w, choice, sh);
      WriterKeepsOutgoing(w, choice, sh);
      WriterKeepsTried(w, choice, sh);
      WriterKeepsIncoming(w, choice, sh);
      WriterMoveFlags(w, choice, sh);
    case ClientStep(id, choice) =>
      StepExclusive(s, a);
      ClientKeepsDriver(c, s.clients[id], choice, sh);
      ClientStaysInFrame(s.clients[id], choice, sh);
      var sh' := ClientMove(s.clients[id], choice, sh).value.sh;
      FlagsKeepThreads(c, r, w, sh, sh');
      GrowthKeepsWake(c, r, w, sh, sh');
      ClientKeepsQuiet(c, r, w, sh, sh');
      ClientKeepsFlow(w, sh, sh');
    case CallbackSees(f) =>
      FlightIsFree(w, sh, sh.inFlight + [f]);
      CallbackKeeps(s, sh.(inFlight := sh.inFlight + [f]));
    case CallbackOffers(i) =>
      OfferKeeps(s, i);
  }

  lemma OfferKeeps(s: State, i: nat)
    requires Inv(s) && i < |s.sh.inFlight|
    ensures Inv(Next(s, CallbackOffers(i)).value)
  {
    hide Exclusive, IncomingOk, OutgoingOk, TriedOk, LifeOk, StageOk, DriverOk, WakeOk, QuietOk, PutIncoming;
    var f, rest := s.sh.inFlight[i], s.sh.inFlight[..i] + s.sh.inFlight[i + 1..];
    CallbackKeepsFlow(s.writer, s.sh, f);
    FlightIsFree(s.writer, PutIncoming(s.sh, f), rest);
    OfferTouches(s.sh, f);
    CallbackKeeps(s, PutIncoming(s.sh, f).(inFlight := rest));
  }

  lemma OfferTouches(sh: Shared, f: Frame)
    ensures var sh' := PutIncoming(sh, f);
            && SameFlags(sh, sh') && sh'.native == sh.native && sh'.wQueue == sh.wQueue && |sh.rQueue| <= |sh'.rQueue|
  {
  }

  lemma FlightIsFree(w: WriterPc, sh: Shared, inFlight: seq<Frame>)
    requires FlowOk(w, sh)
    ensures FlowOk(w, sh.(inFlight := inFlight))
  {
    hide Frames, TakenFrames, GoneFrames, InHand, WrittenFrames;
  }

  lemma {:induction false} RunInv(s: State, actions: seq<Action>)
    requires Inv(s) && Run(s, actions).Some?
    ensures Inv(Run(s, actions).value)
    decreases |actions|
  {
    if actions != [] {
      hide Inv, Next;
      NextInv(s, actions[0]);
      RunInv(Next(s, actions[0]).value, actions[1..]);
    }
  }

  lemma ReachableInv(clients: set<nat>, actions: seq<Action>)
    requires Run(Initial(clients), actions).Some?
    ensures Inv(Run(Initial(clients), actions).value)
  {
    InitialInv(clients);
    RunInv(Initial(clients), actions);
  }
}
