/**
  * The two ways a run of the bus machine goes wrong, with runs that do, and the exact conditions.
  * Stop and a reader that holds a frame can block each other for good; and a read that flushes the
  * queue dereferences a null pointer when a sentinel is in it.
  */
module BusFaults {
  import opened Osal
  import opened BusProtocol
  import opened BusInvariant
  import opened BusStop

  // ------------------------------------------------------------- calm runs

  /** No thread wakes for no reason and no native call fails. */
  predicate Calm(actions: seq<Action>)
  {
    forall a | a in actions :: CalmAction(a)
  }

  predicate CalmAction(a: Action)
  {
    match a
    case ControlStep(choice) => !choice.NativeFails?
    case ReaderStep(choice) => !choice.WakeSpuriously?
    case WriterStep(choice) => !choice.WakeSpuriously?
    case ClientStep(_, choice) => !choice.NativeFails?
    case _ => true
  }

  ghost predicate Leads(s: State, s': State)
  {
    exists actions :: Calm(actions) && Run(s, actions) == Some(s')
  }

  lemma {:induction false} RunAppend(s: State, actions: seq<Action>, a: Action)
    requires Run(s, actions).Some?
    ensures Run(s, actions + [a]) == Next(Run(s, actions).value, a)
    decreases |actions|
  {
    hide Next;
    if actions == [] {
      assert ([a])[1..] == [];
    } else {
      RunAppend(Next(s, actions[0]).value, actions[1..], a);
      assert (actions + [a])[1..] == actions[1..] + [a];
    }
  }

  lemma Stay(s: State)
    ensures Leads(s, s)
  {
    assert Calm([]) && Run(s, []) == Some(s);
  }

  lemma Then(s0: State, s: State, a: Action) returns (s': State)
    requires Leads(s0, s) && CalmAction(a) && Next(s, a).Some?
    ensures s' == Next(s, a).value && Leads(s0, s')
  {
    hide Next;
    var actions :| Calm(actions) && Run(s0, actions) == Some(s);
    RunAppend(s0, actions, a);
    s' := Next(s, a).value;
    assert Calm(actions + [a]);
  }

  lemma ControlGoes(s0: State, s: State) returns (s': State)
    requires Leads(s0, s) && Next(s, ControlStep(Go)).Some?
    ensures s' == Next(s, ControlStep(Go)).value && Leads(s0, s')
  {
    s' := Then(s0, s, ControlStep(Go));
  }

  lemma ReaderGoes(s0: State, s: State) returns (s': State)
    requires Leads(s0, s) && Next(s, ReaderStep(Go)).Some?
    ensures s' == Next(s, ReaderStep(Go)).value && Leads(s0, s')
  {
    s' := Then(s0, s, ReaderStep(Go));
  }

  lemma WriterGoes(s0: State, s: State) returns (s': State)
    requires Leads(s0, s) && Next(s, WriterStep(Go)).Some?
    ensures s' == Next(s, WriterStep(Go)).value && Leads(s0, s')
  {
    s' := Then(s0, s, WriterStep(Go));
  }

  predicate Idle(s: State) { s.control.ControlIdle? && s.r == None && s.w == None && s.d == None }

  function AfterInit(s: State): State
  {
    s.(sh := s.sh.(initialized := true, started := true, status := Opened, native := s.sh.native + [Open(true)],
                   readerPending := s.sh.readerPending || s.sh.readerRun == Stopped,
                   writerPending := s.sh.writerPending || s.sh.writerRun == Stopped))
  }

  function AfterSpawns(s: State): State
  {
    s.(control := StartD, r := Some(Control), w := Some(Control),
       sh := s.sh.(status := Opened, native := s.sh.native + [Open(true)],
                   readerPending := s.sh.readerPending || s.sh.readerRun == Stopped,
                   writerPending := s.sh.writerPending || s.sh.writerRun == Stopped))
  }

  lemma SpawnsLead(s0: State, s: State)
    requires Leads(s0, s) && Idle(s) && !s.sh.initialized && s.sh.status == Closed
    ensures Leads(s0, AfterSpawns(s))
  {
    hide Leads, CloseGo, TermGo, ReaderMove, WriterMove, ClientMove;
    var s1 := Then(s0, s, ControlStep(Init));
    s1 := ControlGoes(s0, s1);
    s1 := ControlGoes(s0, s1);
    s1 := ControlGoes(s0, s1);
    s1 := ControlGoes(s0, s1);
    s1 := ControlGoes(s0, s1);
    s1 := ControlGoes(s0, s1);
    assert s1 == AfterSpawns(s);
  }

  function AfterStart(s: State): State
  {
    s.(control := Unlock(FinishInit), r := Some(Control), w := Some(Control),
       sh := AfterSpawns(s).sh.(started := true))
  }

  lemma StartLeads(s0: State, s: State)
    requires Leads(s0, s) && Idle(s) && !s.sh.initialized && s.sh.status == Closed
    ensures Leads(s0, AfterStart(s))
  {
    hide Leads, CloseGo, TermGo, ReaderMove, WriterMove, ClientMove;
    SpawnsLead(s0, s);
    var s1 := AfterSpawns(s);
    s1 := ControlGoes(s0, s1);
    s1 := ControlGoes(s0, s1);
    s1 := ControlGoes(s0, s1);
    assert s1 == AfterStart(s);
  }

  /** LibCCEC::init alone, from rest to rest. */
  lemma InitLeads(s0: State, s: State)
    requires Leads(s0, s) && Idle(s) && !s.sh.initialized && s.sh.status == Closed
    ensures Leads(s0, AfterInit(s))
  {
    hide Leads, InitGo, CloseGo, ReaderMove, WriterMove, ClientMove;
    StartLeads(s0, s);
    var s1 := AfterStart(s);
    s1 := ControlGoes(s0, s1);
    s1 := ControlGoes(s0, s1);
    assert s1 == AfterInit(s);
  }

  function AfterStopBegins(s: State): State
  {
    s.(control := WaitReader, r := Some(Control), w := Some(Control),
       sh := s.sh.(started := false, status := Closed, native := s.sh.native + [Close(true)],
                   readerRun := StopRequested(s.sh.readerRun), rQueue := Offered(s.sh.rQueue, Sentinel)))
  }

  function AfterAsking(s: State): State
  {
    s.(control := CloseD(InReaderStop), r := Some(Control), w := Some(Control),
       sh := s.sh.(started := false, readerRun := StopRequested(s.sh.readerRun)))
  }

  lemma AskingLeads(s0: State, s: State)
    requires Leads(s0, s) && Idle(s) && s.sh.initialized && !s.sh.readerPending && !s.sh.writerPending
    ensures Leads(s0, AfterAsking(s))
  {
    hide Leads, InitGo, CloseGo, ReaderMove, WriterMove, ClientMove;
    var s1 := Then(s0, s, ControlStep(Term));
    s1 := ControlGoes(s0, s1);
    s1 := ControlGoes(s0, s1);
    s1 := ControlGoes(s0, s1);
    s1 := ControlGoes(s0, s1);
    assert s1 == AfterAsking(s);
  }

  /** LibCCEC::term alone, from rest to the loop that polls the reader's state. */
  lemma StopLeads(s0: State, s: State)
    requires Leads(s0, s) && Idle(s) && s.sh.initialized && s.sh.status == Opened
    requires !s.sh.readerPending && !s.sh.writerPending
    ensures Leads(s0, AfterStopBegins(s))
  {
    hide Leads, InitGo, TermGo, ReaderMove, WriterMove, ClientMove;
    AskingLeads(s0, s);
    var s1 := AfterAsking(s);
    s1 := ControlGoes(s0, s1);
    s1 := ControlGoes(s0, s1);
    s1 := ControlGoes(s0, s1);
    s1 := ControlGoes(s0, s1);
    assert s1 == AfterStopBegins(s);
  }

  // ------------------------------------------------------------- the embrace is reached

  /** One init, one frame received, one term, and no failure of any kind. */
  lemma EmbraceIsReached(clients: set<nat>, f: Frame)
    ensures exists s :: Leads(Initial(clients), s) && Embrace(s) && s.reader.frame == f
  {
    hide Leads;
    var s0 := Initial(clients);
    Stay(s0);
    InitLeads(s0, s0);
    var s := AfterInit(s0);
    s := ReaderGoes(s0, s);
    s := ReaderGoes(s0, s);
    s := ReaderGoes(s0, s);
    assert s.reader == ReaderPoll;
    s := Then(s0, s, CallbackSees(f));
    s := Then(s0, s, CallbackOffers(0));
    s := ReaderGoes(s0, s);
    StopLeads(s0, s);
  }

  // ------------------------------------------------------------- the crash is reached

  /** At rest after one session that left its sentinel in the queue: the reader never polled. */
  ghost predicate Stale(s: State)
  {
    && Idle(s) && !s.sh.initialized && s.sh.status == Closed
    && s.reader.ReaderExited? && s.writer.WriterExited?
    && s.sh.readerRun == Stopped && s.sh.writerRun == Stopped
    && s.sh.rQueue == [Sentinel] && s.sh.wQueue == []
  }

  lemma FirstReaderLeaves(clients: set<nat>) returns (s: State)
    ensures Leads(Initial(clients), s)
    ensures s == AfterStopBegins(AfterInit(Initial(clients))).(reader := ReaderExited, sh := s.sh)
    ensures s.sh == AfterStopBegins(AfterInit(Initial(clients))).sh.(readerRun := Stopped)
  {
    hide Leads, ControlMove, WriterMove, ClientMove;
    var s0 := Initial(clients);
    Stay(s0);
    InitLeads(s0, s0);
    StopLeads(s0, AfterInit(s0));
    s := AfterStopBegins(AfterInit(s0));
    s := ReaderGoes(s0, s);
    s := ReaderGoes(s0, s);
  }

  lemma FirstStopLeads(clients: set<nat>) returns (s: State)
    ensures Leads(Initial(clients), s)
    ensures s.control == WaitWriter && s.reader == ReaderExited && s.writer == WriterPoll
    ensures s.r == s.w == Some(Control) && s.d == None
    ensures s.sh.initialized && s.sh.status == Closed && s.sh.rQueue == [Sentinel] && s.sh.wQueue == [Sentinel]
    ensures s.sh.readerRun == Stopped && s.sh.writerRun == Stopping
  {
    hide Leads, InitGo, CloseGo, ReaderMove, WriterMove, ClientMove;
    var s0 := Initial(clients);
    s := FirstReaderLeaves(clients);
    s := ControlGoes(s0, s);
    s := ControlGoes(s0, s);
    s := ControlGoes(s0, s);
  }

  lemma FirstWriterLeaves(clients: set<nat>) returns (s: State)
    ensures Leads(Initial(clients), s)
    ensures s.control == WaitWriter && s.reader == ReaderExited && s.writer == WriterExited
    ensures s.r == s.w == Some(Control) && s.d == None
    ensures s.sh.initialized && s.sh.status == Closed && s.sh.rQueue == [Sentinel] && s.sh.wQueue == []
    ensures s.sh.readerRun == Stopped && s.sh.writerRun == Stopped
  {
    hide Leads, ControlMove, ReaderMove, ClientMove;
    var s0 := Initial(clients);
    s := FirstStopLeads(clients);
    s := WriterGoes(s0, s);
    s := WriterGoes(s0, s);
    s := WriterGoes(s0, s);
    s := WriterGoes(s0, s);
    s := WriterGoes(s0, s);
  }

  lemma DriverIsClosedAgain(clients: set<nat>) returns (s: State)
    ensures Leads(Initial(clients), s)
    ensures s.control == CloseTest(InBusStop) && s.reader == ReaderExited && s.writer == WriterExited
    ensures s.r == s.w == s.d == Some(Control)
    ensures s.sh.status == Closed && s.sh.rQueue == [Sentinel] && s.sh.wQueue == []
    ensures s.sh.readerRun == Stopped && s.sh.writerRun == Stopped
  {
    hide Leads, InitGo, ReaderMove, WriterMove, ClientMove;
    var s0 := Initial(clients);
    s := FirstWriterLeaves(clients);
    s := ControlGoes(s0, s);
    s := ControlGoes(s0, s);
  }

  lemma BusIsStopped(clients: set<nat>) returns (s: State)
    ensures Leads(Initial(clients), s)
    ensures s.control == CloseD(InTerm) && s.reader == ReaderExited && s.writer == WriterExited
    ensures s.r == s.w == s.d == None
    ensures s.sh.status == Closed && s.sh.rQueue == [Sentinel] && s.sh.wQueue == []
    ensures s.sh.readerRun == Stopped && s.sh.writerRun == Stopped
  {
    hide Leads, InitGo, ReaderMove, WriterMove, ClientMove;
    var s0 := Initial(clients);
    s := DriverIsClosedAgain(clients);
    s := ControlGoes(s0, s);
    s := ControlGoes(s0, s);
  }

  lemma StaleIsReached(clients: set<nat>) returns (s: State)
    ensures Leads(Initial(clients), s) && Stale(s)
  {
    hide Leads, InitGo, ReaderMove, WriterMove, ClientMove;
    var s0 := Initial(clients);
    s := BusIsStopped(clients);
    s := ControlGoes(s0, s);
    s := ControlGoes(s0, s);
    s := ControlGoes(s0, s);
  }

  // ------------------------------------------------------------- when a flush crashes

  /** What the others do to the queue while a read flushes it: they put frames at its end. */
  lemma OthersAppendFrames(s: State, a: Action)
    requires Inv(s) && s.reader.Flush? && Next(s, a).Some? && !a.ReaderStep?
    ensures var s' := Next(s, a).value;
            && s'.reader == s.reader
            && (s'.sh.rQueue == s.sh.rQueue || exists f :: s'.sh.rQueue == s.sh.rQueue + [Ptr(f)])
  {
    hide ThreadsOk, WakeOk, QuietOk, FlowOk, DriverOk, FlushOk;
    assert HoldsD(s, Reader) <==> s.d == Some(Reader);
    assert HoldsD(s, Control) <==> s.d == Some(Control);
    hide Exclusive;
    match a
    case ControlStep(choice) =>
      if !s.control.ControlIdle? {
        OnlyCloseOffersSentinel(s.control, choice.Go?, s.sh);
      }
    case WriterStep(choice) => WriterLeavesIncoming(s.writer, choice, s.sh);
    case ClientStep(id, choice) => ClientStaysInFrame(s.clients[id], choice, s.sh);
    case CallbackSees(_) =>
    case CallbackOffers(_) =>
  }

  /** The first sentinel in the queue is its i-th entry. */
  predicate SentinelAt(q: seq<Entry>, i: nat)
  {
    i < |q| && q[i] == Sentinel && forall j | 0 <= j < i :: q[j].Ptr?
  }

  lemma FlushPops(s: State, choice: Choice)
    requires s.reader.Flush? && Next(s, ReaderStep(choice)).Some?
    ensures var s' := Next(s, ReaderStep(choice)).value;
            if s.sh.rQueue == [] then s'.reader.ReaderLoop?
            else s'.sh.rQueue == s.sh.rQueue[1..] && s'.reader == if s.sh.rQueue[0] == Sentinel then Crashed else Flush
  {
  }

  lemma {:induction false} CrashedStays(s: State, actions: seq<Action>)
    requires s.reader.Crashed? && Run(s, actions).Some?
    ensures Run(s, actions).value.reader.Crashed? && ReaderSteps(actions) == 0
    decreases |actions|
  {
    if actions != [] {
      hide ControlMove, WriterMove, ClientMove;
      CrashedStays(Next(s, actions[0]).value, actions[1..]);
    }
  }

  lemma SentinelAtMoves(q: seq<Entry>, i: nat, f: Frame)
    requires SentinelAt(q, i)
    ensures SentinelAt(q + [Ptr(f)], i)
    ensures q != [] && (q[0] == Sentinel <==> i == 0) && (i > 0 ==> SentinelAt(q[1..], i - 1))
  {
  }

  /**
    * A flush with the first sentinel at index i of the queue dereferences null at its step i + 1, and
    * leaves the read in no other way, whatever the other threads do.
    */
  lemma {:induction false} FlushMeetsSentinel(s: State, actions: seq<Action>, i: nat)
    requires Inv(s) && s.reader.Flush? && SentinelAt(s.sh.rQueue, i) && Run(s, actions).Some?
    ensures var s' := Run(s, actions).value;
            && ReaderSteps(actions) <= i + 1
            && s'.reader == if ReaderSteps(actions) == i + 1 then Crashed else Flush
    decreases |actions|
  {
    if actions != [] {
      hide Inv, Next, SentinelAt;
      var a, s1 := actions[0], Next(s, actions[0]).value;
      NextInv(s, a);
      if a.ReaderStep? {
        FlushPops(s, a.choice);
        SentinelAtMoves(s.sh.rQueue, i, []);
        if i == 0 {
          CrashedStays(s1, actions[1..]);
        } else {
          FlushMeetsSentinel(s1, actions[1..], i - 1);
        }
      } else {
        OthersAppendFrames(s, a);
        if s1.sh.rQueue != s.sh.rQueue {
          var f :| s1.sh.rQueue == s.sh.rQueue + [Ptr(f)];
          SentinelAtMoves(s.sh.rQueue, i, f);
        }
        FlushMeetsSentinel(s1, actions[1..], i);
      }
    }
  }

  /** A flush of a queue without a sentinel goes on, or has ended in the exception. */
  lemma FlushWithoutSentinel(s: State, a: Action)
    requires Inv(s) && s.reader.Flush? && Sentinel !in s.sh.rQueue && Next(s, a).Some?
    ensures var s' := Next(s, a).value; s'.reader.ReaderLoop? || (s'.reader.Flush? && Sentinel !in s'.sh.rQueue)
  {
    hide Inv, Next;
    if a.ReaderStep? {
      FlushPops(s, a.choice);
    } else {
      OthersAppendFrames(s, a);
    }
  }

  lemma OnlyCloseOffersSentinel(c: ControlPc, nativeOk: bool, sh: Shared)
    requires !c.ControlIdle? && ControlGo(c, nativeOk, sh).Some? && !ControlD(c)
    ensures ControlGo(c, nativeOk, sh).value.sh.rQueue == sh.rQueue
  {
    hide OpenRegion, CloseRegion, StopRequested;
  }

  // ------------------------------------------------------------- the discipline that avoids it

  function Sentinels(q: seq<Entry>): nat
  {
    if q == [] then 0 else (if q[0] == Sentinel then 1 else 0) + Sentinels(q[1..])
  }

  lemma {:induction false} SentinelsAppend(q: seq<Entry>, e: Entry)
    ensures Sentinels(q + [e]) == Sentinels(q) + if e == Sentinel then 1 else 0
  {
    if q == [] {
      assert (q + [e])[1..] == [];
    } else {
      SentinelsAppend(q[1..], e);
      assert (q + [e])[1..] == q[1..] + [e];
    }
  }

  /** Sentinels queued, and the one whose null the reader is about to look into. */
  function Outstanding(r: ReaderPc, sh: Shared): nat
  {
    Sentinels(sh.rQueue) + if r.NullD? || r.NullTest? then 1 else 0
  }

  /** The reader does not wake for nothing, and the driver is opened only when no sentinel is left over. */
  predicate Disciplined(s: State, a: Action)
  {
    && a != ReaderStep(WakeSpuriously)
    && (a == ControlStep(Go) && OpensNow(s) ==> Outstanding(s.reader, s.sh) == 0)
  }

  predicate OpensNow(s: State) { (s.control.InitOpen? || s.control.StartOpen?) && s.sh.status == Closed }

  predicate DisciplinedRun(s: State, actions: seq<Action>)
    decreases |actions|
  {
    actions == []
    || (Disciplined(s, actions[0])
        && (Next(s, actions[0]).Some? ==> DisciplinedRun(Next(s, actions[0]).value, actions[1..])))
  }

  ghost predicate AtMostOne(c: ControlPc, r: ReaderPc, sh: Shared)
  {
    && !r.Crashed?
    && Outstanding(r, sh) <= 1
    && (sh.status == Opened || c.CloseOffer? || r.Flush? ==> Sentinels(sh.rQueue) == 0)
    && (sh.status == Opened || c.CloseOffer? ==> Outstanding(r, sh) == 0)
  }

  lemma InitKeepsOne(c: ControlPc, nativeOk: bool, r: ReaderPc, sh: Shared)
    requires InInit(c) && AtMostOne(c, r, sh) && InitGo(c, nativeOk, sh).Some?
    requires nativeOk && (c.InitOpen? || c.StartOpen?) && sh.status == Closed ==> Outstanding(r, sh) == 0
    ensures var m := InitGo(c, nativeOk, sh).value; AtMostOne(m.pc, r, m.sh)
  {
    hide Sentinels;
  }

  lemma CloseKeepsOne(c: ControlPc, nativeOk: bool, r: ReaderPc, sh: Shared)
    requires InClose(c) && AtMostOne(c, r, sh) && CloseGo(c, nativeOk, sh).Some?
    requires c.CloseOffer? ==> !r.Flush? && sh.status == Closing
    ensures var m := CloseGo(c, nativeOk, sh).value; AtMostOne(m.pc, r, m.sh)
  {
    hide Sentinels;
    SentinelsAppend(sh.rQueue, Sentinel);
  }

  lemma TermKeepsOne(c: ControlPc, r: ReaderPc, sh: Shared)
    requires !c.ControlIdle? && !InInit(c) && !InClose(c) && AtMostOne(c, r, sh) && TermGo(c, sh).Some?
    ensures var m := TermGo(c, sh).value; AtMostOne(m.pc, r, m.sh)
  {
    hide Sentinels, Offered, StopRequested;
  }

  lemma SentinelsPop(q: seq<Entry>)
    requires q != []
    ensures Sentinels(q) == Sentinels(q[1..]) + if q[0] == Sentinel then 1 else 0
  {
  }

  lemma ReaderKeepsOne(c: ControlPc, r: ReaderPc, choice: Choice, sh: Shared)
    requires AtMostOne(c, r, sh) && FlushOk(r, sh) && ReaderMove(r, choice, sh).Some? && !choice.WakeSpuriously?
    ensures var m := ReaderMove(r, choice, sh).value; AtMostOne(c, m.pc, m.sh)
  {
    hide Sentinels;
    if sh.rQueue != [] {
      SentinelsPop(sh.rQueue);
    }
  }

  lemma OneStep(s: State, a: Action)
    requires Inv(s) && AtMostOne(s.control, s.reader, s.sh) && Disciplined(s, a) && Next(s, a).Some?
    ensures var s' := Next(s, a).value; AtMostOne(s'.control, s'.reader, s'.sh)
  {
    hide ThreadsOk, WakeOk, QuietOk, FlowOk, InitGo, CloseGo, TermGo, ReaderMove, WriterMove, ClientMove, Outstanding;
    match a
    case ControlStep(choice) =>
      assert s.control.CloseOffer? ==> !s.reader.Flush? by {
        assert HoldsD(s, Reader) <==> s.d == Some(Reader);
        assert HoldsD(s, Control) <==> s.d == Some(Control);
      }
      hide Exclusive;
      var c := s.control;
      if c.ControlIdle? {
      } else {
        hide AtMostOne;
        if InInit(c) {
          InitKeepsOne(c, choice.Go?, s.reader, s.sh);
        } else if InClose(c) {
          CloseKeepsOne(c, choice.Go?, s.reader, s.sh);
        } else {
          TermKeepsOne(c, s.reader, s.sh);
        }
      }
    case ReaderStep(choice) =>
      hide Exclusive, AtMostOne;
      ReaderKeepsOne(s.control, s.reader, choice, s.sh);
    case WriterStep(choice) =>
      WriterLeavesIncoming(s.writer, choice, s.sh);
      WriterUses(s.writer, choice, s.sh);
      SameQueueKeepsOne(s.control, s.reader, s.sh, Next(s, a).value.sh);
    case ClientStep(id, choice) =>
      ClientStaysInFrame(s.clients[id], choice, s.sh);
      SameQueueKeepsOne(s.control, s.reader, s.sh, Next(s, a).value.sh);
    case CallbackSees(_) => SameQueueKeepsOne(s.control, s.reader, s.sh, Next(s, a).value.sh);
    case CallbackOffers(i) =>
      OfferKeepsOne(s.control, s.reader, s.sh, s.sh.inFlight[i]);
      SameQueueKeepsOne(s.control, s.reader, PutIncoming(s.sh, s.sh.inFlight[i]), Next(s, a).value.sh);
  }

  lemma SameQueueKeepsOne(c: ControlPc, r: ReaderPc, sh: Shared, sh': Shared)
    requires AtMostOne(c, r, sh) && sh'.rQueue == sh.rQueue && sh'.status == sh.status
    ensures AtMostOne(c, r, sh')
  {
  }

  lemma OfferKeepsOne(c: ControlPc, r: ReaderPc, sh: Shared, f: Frame)
    requires AtMostOne(c, r, sh)
    ensures AtMostOne(c, r, PutIncoming(sh, f))
  {
    hide Sentinels;
    SentinelsAppend(sh.rQueue, Ptr(f));
  }

  lemma {:induction false} OneRun(s: State, actions: seq<Action>)
    requires Inv(s) && AtMostOne(s.control, s.reader, s.sh) && DisciplinedRun(s, actions) && Run(s, actions).Some?
    ensures var s' := Run(s, actions).value; AtMostOne(s'.control, s'.reader, s'.sh)
    decreases |actions|
  {
    if actions != [] {
      hide Inv, Next, AtMostOne, Disciplined;
      OneStep(s, actions[0]);
      NextInv(s, actions[0]);
      OneRun(Next(s, actions[0]).value, actions[1..]);
    }
  }

  /** No disciplined run crashes, and no read in it flushes past a sentinel. */
  lemma DisciplinedRunsDoNotCrash(clients: set<nat>, actions: seq<Action>)
    requires Run(Initial(clients), actions).Some? && DisciplinedRun(Initial(clients), actions)
    ensures var s := Run(Initial(clients), actions).value;
            !s.reader.Crashed? && Sentinels(s.sh.rQueue) <= 1 && (s.reader.Flush? ==> Sentinels(s.sh.rQueue) == 0)
  {
    InitialInv(clients);
    OneRun(Initial(clients), actions);
  }
}
