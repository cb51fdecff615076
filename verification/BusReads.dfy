/**
  * A whole call of Driver::read, from its start to the place it leaves by, with every other thread
  * at work in between: which frame it returns, when it throws, and that its flush does not wait.
  * What becomes of every frame that a receive callback brings.
  */
module BusReads {
  import opened Osal
  import opened BusProtocol
  import opened BusInvariant
  import opened BusStop
  import opened BusTraffic
  import Q = QueueProtocol

  predicate InRead(r: ReaderPc) { r.ReadD? || r.ReadTest? || r.ReaderPoll? || r.NullD? || r.NullTest? || r.Flush? }

  function FlushedAll(frames: seq<Frame>): seq<Taken>
  {
    seq(|frames|, i requires 0 <= i < |frames| => Flushed(frames[i]))
  }

  /** What was taken is what was taken before the call, and then frames that the call flushed. */
  ghost predicate OnlyFlushed(entry: seq<Taken>, got: seq<Taken>)
  {
    exists frames :: got == entry + FlushedAll(frames)
  }

  lemma FlushOne(entry: seq<Taken>, got: seq<Taken>, f: Frame)
    requires OnlyFlushed(entry, got)
    ensures OnlyFlushed(entry, got + [Flushed(f)])
  {
    var frames :| got == entry + FlushedAll(frames);
    assert got + [Flushed(f)] == entry + FlushedAll(frames + [f]);
  }

  lemma FlushNone(entry: seq<Taken>)
    ensures OnlyFlushed(entry, entry)
  {
    assert entry == entry + FlushedAll([]);
  }

  /** Inside a call that found `entry` taken. */
  ghost predicate Reading(entry: seq<Taken>, r: ReaderPc, sh: Shared)
  {
    InRead(r) && if r.Flush? then OnlyFlushed(entry, sh.rGot) else sh.rGot == entry
  }

  /** The call left its place `r` for `r'`. */
  ghost predicate ReadLeft(entry: seq<Taken>, r: ReaderPc, r': ReaderPc, sh': Shared)
  {
    match r'
    case Have(f) =>
      // it returns: its frame is the one it took, and it took no other
      r.ReaderPoll? && sh'.rGot == entry + [Delivered(f)]
    case ReaderLoop =>
      // it throws InvalidStateException: at once, or after it emptied the queue
      && sh'.status != Opened
      && if r.Flush? then sh'.rQueue == [] && OnlyFlushed(entry, sh'.rGot) else r.ReadTest? && sh'.rGot == entry
    case Crashed => sh'.status != Opened && r.Flush? && OnlyFlushed(entry, sh'.rGot)
    case _ => false
  }

  lemma ReaderReads(entry: seq<Taken>, r: ReaderPc, choice: Choice, sh: Shared)
    requires Reading(entry, r, sh) && FlushOk(r, sh) && ReaderMove(r, choice, sh).Some?
    ensures var m := ReaderMove(r, choice, sh).value;
            if InRead(m.pc) then Reading(entry, m.pc, m.sh) else ReadLeft(entry, r, m.pc, m.sh)
  {
    hide OnlyFlushed;
    FlushNone(entry);
    if r.Flush? && sh.rQueue != [] && sh.rQueue[0].Ptr? {
      FlushOne(entry, sh.rGot, sh.rQueue[0].frame);
    }
  }

  lemma ControlLeavesGot(c: ControlPc, choice: Choice, sh: Shared)
    requires ControlMove(c, choice, sh).Some?
    ensures ControlMove(c, choice, sh).value.sh.rGot == sh.rGot
  {
    hide Offered, StopRequested;
    if c.ControlIdle? {
    } else if InInit(c) {
      hide CloseGo, TermGo;
    } else if InClose(c) {
      hide InitGo, TermGo;
    } else {
      hide InitGo, CloseGo;
    }
  }

  lemma WriterLeavesGot(w: WriterPc, choice: Choice, sh: Shared)
    requires WriterMove(w, choice, sh).Some?
    ensures WriterMove(w, choice, sh).value.sh.rGot == sh.rGot
  {
    hide WriteRegion;
    WriteLeavesGot(sh, if w.WriteTx? then w.frame else []);
  }

  lemma WriteLeavesGot(sh: Shared, f: Frame)
    ensures WriteRegion(sh, f).rGot == sh.rGot
  {
  }

  lemma OthersLeaveGot(s: State, a: Action)
    requires Next(s, a).Some? && !a.ReaderStep?
    ensures Next(s, a).value.sh.rGot == s.sh.rGot && Next(s, a).value.reader == s.reader
  {
    hide ControlMove, WriterMove, ClientMove;
    match a
    case ControlStep(choice) => ControlLeavesGot(s.control, choice, s.sh);
    case WriterStep(choice) => WriterLeavesGot(s.writer, choice, s.sh);
    case ClientStep(id, choice) => ClientStaysInFrame(s.clients[id], choice, s.sh);
    case CallbackSees(_) =>
    case CallbackOffers(_) =>
  }

  lemma ReadStep(entry: seq<Taken>, s: State, a: Action)
    requires Inv(s) && Reading(entry, s.reader, s.sh) && Next(s, a).Some?
    ensures var s' := Next(s, a).value;
            if InRead(s'.reader) then Reading(entry, s'.reader, s'.sh) else ReadLeft(entry, s.reader, s'.reader, s'.sh)
  {
    hide OnlyFlushed, ReadLeft, InRead;
    if a.ReaderStep? {
      hide Exclusive, ThreadsOk, DriverOk, WakeOk, QuietOk, FlowOk, FlushOk, Reading, ReaderMove;
      ReaderReads(entry, s.reader, a.choice, s.sh);
    } else {
      hide Inv, Next;
      OthersLeaveGot(s, a);
    }
  }

  /** Every state of the run is inside the read. */
  predicate StaysInRead(s: State, actions: seq<Action>)
    decreases |actions|
  {
    InRead(s.reader)
    && (actions != [] && Next(s, actions[0]).Some? ==> StaysInRead(Next(s, actions[0]).value, actions[1..]))
  }

  lemma {:induction false} ReadRun(entry: seq<Taken>, s: State, actions: seq<Action>)
    requires Inv(s) && Reading(entry, s.reader, s.sh) && StaysInRead(s, actions) && Run(s, actions).Some?
    ensures var s' := Run(s, actions).value; Inv(s') && Reading(entry, s'.reader, s'.sh)
    decreases |actions|
  {
    if actions != [] {
      hide Inv, Next, Reading, InRead;
      var s1 := Next(s, actions[0]).value;
      assert InRead(s1.reader);
      ReadStep(entry, s, actions[0]);
      NextInv(s, actions[0]);
      ReadRun(entry, s1, actions[1..]);
    }
  }

  /** The oldest frame not taken when the call began is the next in the order of acceptance. */
  lemma NextIsOldest(entry: seq<Taken>, f: Frame, sh: Shared)
    requires IncomingOk(sh) && sh.rGot == entry + [Delivered(f)]
    ensures |entry| < |sh.rPut| && sh.rPut[|entry|] == f
  {
    hide Frames;
    assert sh.rPut[|entry|] == TakenFrames(sh.rGot)[|entry|];
  }

  /**
    * A whole call of read, from its start in `s`, through any run inside it, to the step that leaves
    * it.  It returns the oldest frame that was accepted and not taken, and takes no other.  Or it
    * throws while the driver is not open: having taken nothing, or having emptied the queue.  Or it
    * dereferenced null while it emptied it.  There is no other way out.
    */
  lemma ReadCall(s: State, actions: seq<Action>, last: Action)
    requires Inv(s) && s.reader.ReadD? && StaysInRead(s, actions) && Run(s, actions).Some?
    requires Next(Run(s, actions).value, last).Some? && !InRead(Next(Run(s, actions).value, last).value.reader)
    ensures var s1 := Run(s, actions).value; var s' := Next(s1, last).value;
            && ReadLeft(s.sh.rGot, s1.reader, s'.reader, s'.sh)
            && (s'.reader.Have? ==> |s.sh.rGot| < |s'.sh.rPut| && s'.sh.rPut[|s.sh.rGot|] == s'.reader.frame)
  {
    hide Run, StaysInRead, ReadLeft;
    ReadRun(s.sh.rGot, s, actions);
    var s1 := Run(s, actions).value;
    hide Next, InRead, Reading, Exclusive, ThreadsOk, DriverOk, WakeOk, QuietOk, FlushOk;
    hide OutgoingOk, TriedOk, IncomingOk;
    ReadStep(s.sh.rGot, s1, last);
    NextInv(s1, last);
    var s' := Next(s1, last).value;
    if s'.reader.Have? {
      ReturnTookOne(s.sh.rGot, s1.reader, s'.reader, s'.sh);
      NextIsOldest(s.sh.rGot, s'.reader.frame, s'.sh);
    }
  }

  lemma ReturnTookOne(entry: seq<Taken>, r: ReaderPc, r': ReaderPc, sh': Shared)
    requires ReadLeft(entry, r, r', sh') && r'.Have?
    ensures sh'.rGot == entry + [Delivered(r'.frame)]
  {
  }

  // ------------------------------------------------------------- the flush does not wait

  /** The reader alone takes from the incoming queue: for all others what is in front stays there. */
  lemma OnlyReaderTakes(s: State, a: Action)
    requires Next(s, a).Some? && !a.ReaderStep?
    ensures s.sh.rQueue <= Next(s, a).value.sh.rQueue
  {
    hide ControlMove, WriterMove, ClientMove;
    match a
    case ControlStep(choice) => ControlOnlyOffers(s.control, choice, s.sh);
    case WriterStep(choice) => WriterLeavesIncoming(s.writer, choice, s.sh);
    case ClientStep(id, choice) => ClientStaysInFrame(s.clients[id], choice, s.sh);
    case CallbackSees(_) =>
    case CallbackOffers(_) =>
  }

  lemma ControlOnlyOffers(c: ControlPc, choice: Choice, sh: Shared)
    requires ControlMove(c, choice, sh).Some?
    ensures sh.rQueue <= ControlMove(c, choice, sh).value.sh.rQueue
  {
    hide StopRequested;
    if c.ControlIdle? {
    } else if InInit(c) {
      hide CloseGo, TermGo;
    } else if InClose(c) {
      hide InitGo, TermGo;
    } else {
      hide InitGo, CloseGo;
    }
  }

  /**
    * The poll of a flush, mutex by mutex.  The reader, which alone polls, has just read a positive
    * size under the driver's mutex.  Whatever producers do, it does not sleep: it takes the entry
    * that the machine's one step takes, or has made fewer than ten steps and is about to.
    */
  lemma FlushDoesNotWait(s: State, q: Q.State<Entry>, reader: Q.Tid, steps: seq<(Q.Tid, Q.Choice<Entry>)>)
    requires s.reader.Flush? && s.sh.rQueue != []
    requires Q.Inv(q) && q.events == s.sh.rQueue && Q.OnlyConsumer(q, reader) && q.pcs[reader].SizeRead?
    requires Q.OnlyPolls(steps, reader)
    ensures Next(s, ReaderStep(Go)).Some? && s.sh.rQueue == [q.events[0]] + Next(s, ReaderStep(Go)).value.sh.rQueue
    ensures Q.Next(q, reader, Q.Go).Some?
    ensures var sized := Q.Next(q, reader, Q.Go).value;
            && sized.events == q.events
            && (Q.Run(sized, steps).Some? ==>
                  Q.TookFront(sized, steps)
                  || (Q.WillTake(Q.Run(sized, steps).value, reader) && Q.OwnSteps(steps, reader) < 10))
  {
    hide Q.Inv, Q.Next, Q.Run, Q.WillTake, Q.OnlyPolls, Q.OnlyConsumer, Q.OwnSteps;
    FlushGoes(s);
    SizeIsRead(q, reader);
    var sized := Q.Next(q, reader, Q.Go).value;
    if Q.Run(sized, steps).Some? {
      Q.SizedPollTakes(sized, steps, reader);
      if Q.WillTake(Q.Run(sized, steps).value, reader) {
        AboutToTake(Q.Run(sized, steps).value, reader);
      }
    }
  }

  /** In the machine a flush has a step wherever a call of read has got to it. */
  lemma FlushGoes(s: State)
    requires s.reader.Flush?
    ensures Next(s, ReaderStep(Go)).Some?
    ensures s.sh.rQueue != [] ==> s.sh.rQueue == [s.sh.rQueue[0]] + Next(s, ReaderStep(Go)).value.sh.rQueue
  {
  }

  lemma SizeIsRead(q: Q.State<Entry>, t: Q.Tid)
    requires Q.Inv(q) && Q.OnlyConsumer(q, t) && q.pcs[t].SizeRead? && q.events != []
    ensures Q.Next(q, t, Q.Go).Some?
    ensures var sized := Q.Next(q, t, Q.Go).value;
            Q.Inv(sized) && Q.WillTake(sized, t) && t in sized.pcs && sized.pcs[t].Idle? && sized.events == q.events
  {
    Q.SizeThenPollTakes(q, t);
    Q.NextInv(q, t, Q.Go);
    hide Q.Inv;
  }

  lemma AboutToTake(q: Q.State<Entry>, t: Q.Tid)
    requires Q.WillTake(q, t)
    ensures t in q.pcs && Q.PollDistance(q.pcs[t]) > 0
  {
  }

  // ------------------------------------------------------------- the machine's queue is the protocol's

  /** The operation on the incoming queue that a step of the machine stands for, if any. */
  function OpsOf(s: State, a: Action): seq<Q.Op<Entry>>
  {
    match a
    case CallbackOffers(i) => if i < |s.sh.inFlight| then [Q.Offers(Ptr(s.sh.inFlight[i]))] else []
    case ControlStep(_) => if s.control.CloseOffer? then [Q.Offers(Sentinel)] else []
    case ReaderStep(choice) =>
      if !s.reader.ReaderPoll? && !s.reader.Flush? then []
      else if s.sh.rQueue != [] then [Q.Takes(s.sh.rQueue[0])]
      else if choice.WakeSpuriously? then [Q.FindsNothing]
      else []
    case _ => []
  }

  /** The operations on the incoming queue along a run of the machine. */
  function RunOps(s: State, actions: seq<Action>): seq<Q.Op<Entry>>
    requires Run(s, actions).Some?
    decreases |actions|
  {
    if actions == [] then [] else OpsOf(s, actions[0]) + RunOps(Next(s, actions[0]).value, actions[1..])
  }

  lemma ReaderTakesOne(r: ReaderPc, choice: Choice, sh: Shared)
    requires ReaderMove(r, choice, sh).Some?
    ensures ReaderMove(r, choice, sh).value.sh.rQueue ==
            if (r.ReaderPoll? || r.Flush?) && sh.rQueue != [] then sh.rQueue[1..] else sh.rQueue
  {
    hide WriteRegion;
    SendLeavesIncoming(sh, if r.ListenerTx? then r.frame else []);
  }

  lemma SendLeavesIncoming(sh: Shared, f: Frame)
    ensures WriteRegion(sh, f).rQueue == sh.rQueue
  {
  }

  lemma ControlOffersOne(c: ControlPc, choice: Choice, sh: Shared)
    requires ControlMove(c, choice, sh).Some?
    ensures ControlMove(c, choice, sh).value.sh.rQueue ==
            if c.CloseOffer? then Offered(sh.rQueue, Sentinel) else sh.rQueue
  {
    hide StopRequested, Offered;
    if c.ControlIdle? {
    } else if InInit(c) {
      hide CloseGo, TermGo;
    } else if InClose(c) {
      hide InitGo, TermGo;
    } else {
      hide InitGo, CloseGo;
    }
  }

  lemma MachineStepIsOp(s: State, a: Action)
    requires Next(s, a).Some?
    ensures Q.AtomicRun(s.sh.rQueue, OpsOf(s, a)) == Some(Next(s, a).value.sh.rQueue)
  {
    hide ControlMove, ReaderMove, WriterMove, ClientMove, Q.AtomicRun;
    Q.NoOperations(s.sh.rQueue);
    if OpsOf(s, a) != [] {
      Q.OneOperation(s.sh.rQueue, OpsOf(s, a)[0]);
    }
    match a
    case ControlStep(choice) => ControlOffersOne(s.control, choice, s.sh);
    case ReaderStep(choice) => ReaderTakesOne(s.reader, choice, s.sh);
    case WriterStep(choice) => WriterLeavesIncoming(s.writer, choice, s.sh);
    case ClientStep(id, choice) => ClientStaysInFrame(s.clients[id], choice, s.sh);
    case CallbackSees(_) =>
    case CallbackOffers(_) =>
  }

  /**
    * Every run of the machine does to the incoming queue what its operations do one after the other
    * on the atomic queue.  By RunRefines so does every run of the mutex-level protocol: the machine's
    * one-step polls and offers are the protocol's, each at the step where it takes effect.
    */
  lemma {:induction false} MachineRunIsOps(s: State, actions: seq<Action>)
    requires Run(s, actions).Some?
    ensures Q.AtomicRun(s.sh.rQueue, RunOps(s, actions)) == Some(Run(s, actions).value.sh.rQueue)
    decreases |actions|
  {
    if actions == [] {
      Q.NoOperations(s.sh.rQueue);
    } else {
      hide Next, OpsOf, Q.AtomicRun;
      var s1 := Next(s, actions[0]).value;
      MachineStepIsOp(s, actions[0]);
      MachineRunIsOps(s1, actions[1..]);
      Q.AtomicRunOn(s.sh.rQueue, OpsOf(s, actions[0]), RunOps(s1, actions[1..]));
    }
  }

  /**
    * A run of the machine and a run of the protocol whose operations took effect in the same order
    * have the same queue at their ends.
    */
  lemma SameOpsSameQueue(s: State, actions: seq<Action>, q: Q.State<Entry>, steps: seq<(Q.Tid, Q.Choice<Entry>)>)
    requires Run(s, actions).Some? && Q.Inv(q) && Q.Run(q, steps).Some?
    requires s.sh.rQueue == q.events && RunOps(s, actions) == Q.Effects(q, steps)
    ensures Run(s, actions).value.sh.rQueue == Q.Run(q, steps).value.events
  {
    hide Q.Inv, Q.Run, Q.AtomicRun, Q.Effects, Run, RunOps;
    MachineRunIsOps(s, actions);
    Q.RunRefines(q, steps);
  }

  // ------------------------------------------------------------- what the callbacks bring

  /** The frames of the callbacks that saw the driver open. */
  function Seen(actions: seq<Action>): seq<Frame>
  {
    if actions == [] then [] else SeenAt(actions[0]) + Seen(actions[1..])
  }

  function SeenAt(a: Action): seq<Frame> { if a.CallbackSees? then [a.frame] else [] }

  /** The frame that a callback offers at the step. */
  function BroughtAt(s: State, a: Action): seq<Frame>
  {
    if a.CallbackOffers? && a.i < |s.sh.inFlight| then [s.sh.inFlight[a.i]] else []
  }

  /** The frame that the incoming queue accepts at the step: it holds fewer than 32 entries. */
  function AcceptedAt(s: State, a: Action): seq<Frame> { if |s.sh.rQueue| < 32 then BroughtAt(s, a) else [] }

  function Brought(s: State, actions: seq<Action>): seq<Frame>
    requires Run(s, actions).Some?
    decreases |actions|
  {
    if actions == [] then [] else BroughtAt(s, actions[0]) + Brought(Next(s, actions[0]).value, actions[1..])
  }

  function Accepted(s: State, actions: seq<Action>): seq<Frame>
    requires Run(s, actions).Some?
    decreases |actions|
  {
    if actions == [] then [] else AcceptedAt(s, actions[0]) + Accepted(Next(s, actions[0]).value, actions[1..])
  }

  ghost predicate LeavesIncoming(sh: Shared, sh': Shared) { sh'.rPut == sh.rPut && sh'.inFlight == sh.inFlight }

  lemma ControlBringsNothing(c: ControlPc, choice: Choice, sh: Shared)
    requires ControlMove(c, choice, sh).Some?
    ensures LeavesIncoming(sh, ControlMove(c, choice, sh).value.sh)
  {
    hide Offered, StopRequested;
    if c.ControlIdle? {
    } else if InInit(c) {
      hide CloseGo, TermGo;
    } else if InClose(c) {
      hide InitGo, TermGo;
    } else {
      hide InitGo, CloseGo;
    }
  }

  lemma ReaderBringsNothing(r: ReaderPc, choice: Choice, sh: Shared)
    requires ReaderMove(r, choice, sh).Some?
    ensures LeavesIncoming(sh, ReaderMove(r, choice, sh).value.sh)
  {
  }

  lemma WriterBringsNothing(w: WriterPc, choice: Choice, sh: Shared)
    requires WriterMove(w, choice, sh).Some?
    ensures LeavesIncoming(sh, WriterMove(w, choice, sh).value.sh)
  {
  }

  /** What is in flight is what was seen and not yet offered; what is accepted is what found room. */
  ghost predicate Carried(sh: Shared, sh': Shared, seen: seq<Frame>, brought: seq<Frame>, accepted: seq<Frame>)
  {
    && multiset(sh.inFlight) + multiset(seen) == multiset(brought) + multiset(sh'.inFlight)
    && sh'.rPut == sh.rPut + accepted
  }

  lemma NothingCarried(sh: Shared, sh': Shared)
    requires LeavesIncoming(sh, sh')
    ensures Carried(sh, sh', [], [], [])
  {
    assert sh.rPut + [] == sh.rPut;
  }

  lemma OneBrought(sh: Shared, i: nat)
    requires i < |sh.inFlight|
    ensures var f, rest := sh.inFlight[i], sh.inFlight[..i] + sh.inFlight[i + 1..];
            Carried(sh, PutIncoming(sh, f).(inFlight := rest), [], [f], if |sh.rQueue| < 32 then [f] else [])
  {
    var before, f, after := sh.inFlight[..i], sh.inFlight[i], sh.inFlight[i + 1..];
    assert sh.inFlight == before + [f] + after;
    assert multiset(before + [f] + after) == multiset([f]) + multiset(before + after);
    assert sh.rPut + [] == sh.rPut;
  }

  lemma StepCarries(s: State, a: Action)
    requires Next(s, a).Some?
    ensures Carried(s.sh, Next(s, a).value.sh, SeenAt(a), BroughtAt(s, a), AcceptedAt(s, a))
  {
    hide ControlMove, ReaderMove, WriterMove, ClientMove, Carried;
    var sh' := Next(s, a).value.sh;
    match a
    case ControlStep(choice) =>
      ControlBringsNothing(s.control, choice, s.sh);
      NothingCarried(s.sh, sh');
    case ReaderStep(choice) =>
      ReaderBringsNothing(s.reader, choice, s.sh);
      NothingCarried(s.sh, sh');
    case WriterStep(choice) =>
      WriterBringsNothing(s.writer, choice, s.sh);
      NothingCarried(s.sh, sh');
    case ClientStep(id, choice) =>
      ClientStaysInFrame(s.clients[id], choice, s.sh);
      NothingCarried(s.sh, sh');
    case CallbackSees(f) => OneSeen(s.sh, f);
    case CallbackOffers(i) => OneBrought(s.sh, i);
  }

  lemma OneSeen(sh: Shared, f: Frame)
    ensures Carried(sh, sh.(inFlight := sh.inFlight + [f]), [f], [], [])
  {
    assert sh.rPut + [] == sh.rPut;
  }

  lemma CarriedOn(sh: Shared, sh1: Shared, sh2: Shared, seen: (seq<Frame>, seq<Frame>),
                  brought: (seq<Frame>, seq<Frame>), accepted: (seq<Frame>, seq<Frame>))
    requires Carried(sh, sh1, seen.0, brought.0, accepted.0) && Carried(sh1, sh2, seen.1, brought.1, accepted.1)
    ensures Carried(sh, sh2, seen.0 + seen.1, brought.0 + brought.1, accepted.0 + accepted.1)
  {
    assert sh.rPut + accepted.0 + accepted.1 == sh.rPut + (accepted.0 + accepted.1);
    assert multiset(seen.0 + seen.1) == multiset(seen.0) + multiset(seen.1);
    assert multiset(brought.0 + brought.1) == multiset(brought.0) + multiset(brought.1);
    Balance(multiset(sh.inFlight), multiset(seen.0), multiset(brought.0), multiset(sh1.inFlight),
            multiset(seen.1), multiset(brought.1), multiset(sh2.inFlight));
  }

  lemma Balance(a: multiset<Frame>, in0: multiset<Frame>, out0: multiset<Frame>, b: multiset<Frame>,
                in1: multiset<Frame>, out1: multiset<Frame>, c: multiset<Frame>)
    requires a + in0 == out0 + b && b + in1 == out1 + c
    ensures a + (in0 + in1) == out0 + out1 + c
  {
    assert a + (in0 + in1) == (a + in0) + in1;
    assert out0 + b + in1 == out0 + (b + in1);
    assert out0 + (out1 + c) == out0 + out1 + c;
  }

  lemma {:induction false} RunCarries(s: State, actions: seq<Action>)
    requires Run(s, actions).Some?
    ensures Carried(s.sh, Run(s, actions).value.sh, Seen(actions), Brought(s, actions), Accepted(s, actions))
    decreases |actions|
  {
    if actions == [] {
      NothingCarried(s.sh, s.sh);
    } else {
      hide Next, SeenAt, BroughtAt, AcceptedAt, Carried;
      var s1 := Next(s, actions[0]).value;
      StepCarries(s, actions[0]);
      RunCarries(s1, actions[1..]);
      CarriedOn(s.sh, s1.sh, Run(s1, actions[1..]).value.sh,
                (SeenAt(actions[0]), Seen(actions[1..])),
                (BroughtAt(s, actions[0]), Brought(s1, actions[1..])),
                (AcceptedAt(s, actions[0]), Accepted(s1, actions[1..])));
    }
  }

  /**
    * In every run each frame that a callback saw the driver open for is offered once, or still in flight;
    * and the frames offered while the queue had room were delivered or flushed, in that order, or are
    * still queued.
    */
  lemma ReadConservation(clients: set<nat>, actions: seq<Action>, s: State)
    requires Reachable(clients, actions, s)
    ensures multiset(Seen(actions)) == multiset(Brought(Initial(clients), actions)) + multiset(s.sh.inFlight)
    ensures Accepted(Initial(clients), actions) == s.sh.rPut
    ensures s.sh.rPut == TakenFrames(s.sh.rGot) + Frames(s.sh.rQueue) && |s.sh.rQueue| <= 32
  {
    ReachableInv(clients, actions);
    RunCarries(Initial(clients), actions);
    hide Run, Seen, Brought, Accepted;
    assert multiset(Initial(clients).sh.inFlight) == multiset{};
    assert [] + Accepted(Initial(clients), actions) == Accepted(Initial(clients), actions);
  }
}
