/**
  * The outgoing side of the bus machine: every frame the writer takes from the queue is handed to
  * the driver, and transmitted if the driver is open; and the queue is the bounded queue of Osal.
  */
module BusWrites {
  import opened Osal
  import opened BusProtocol
  import opened BusInvariant
  import opened BusStop
  import opened BusTraffic
  import opened BusCalls
  import Q = QueueProtocol

  // ------------------------------------------------------------- the attempts of the writer

  /** A frame the writer handed to Driver::write, and whether it found the driver open. */
  datatype Attempt = Attempt(frame: Frame, open: bool)

  function AttemptsAt(s: State, a: Action): seq<Attempt>
    requires Next(s, a).Some?
  {
    var tried := Added(s.sh.wTried, Next(s, a).value.sh.wTried);
    seq(|tried|, i requires 0 <= i < |tried| => Attempt(tried[i], s.sh.status == Opened))
  }

  /** The attempts along a run, in order. */
  function Attempts(s: State, actions: seq<Action>): seq<Attempt>
    requires Run(s, actions).Some?
    decreases |actions|
  {
    if actions == [] then []
    else AttemptsAt(s, actions[0]) + Attempts(Next(s, actions[0]).value, actions[1..])
  }

  function FramesTried(attempts: seq<Attempt>): seq<Frame>
  {
    seq(|attempts|, i requires 0 <= i < |attempts| => attempts[i].frame)
  }

  /** The frames of the attempts that found the driver open. */
  function FramesSent(attempts: seq<Attempt>): seq<Frame>
  {
    if attempts == [] then [] else SentBy(attempts[0]) + FramesSent(attempts[1..])
  }

  function SentBy(a: Attempt): seq<Frame> { if a.open then [a.frame] else [] }

  function TxOf(frames: seq<Frame>): seq<NativeCall>
  {
    seq(|frames|, i requires 0 <= i < |frames| => Tx(frames[i]))
  }

  /** `more` is what the attempts add to the writer's two lists and to the native calls it makes. */
  ghost predicate Accounted(sh: Shared, sh': Shared, attempts: seq<Attempt>, calls: seq<NativeCall>)
  {
    && sh'.wTried == sh.wTried + FramesTried(attempts)
    && sh'.wSent == sh.wSent + FramesSent(attempts)
    && calls == TxOf(FramesSent(attempts))
  }

  lemma OneAttempts(s: State, a: Action, f: Frame)
    requires Next(s, a).Some? && Next(s, a).value.sh.wTried == s.sh.wTried + [f]
    ensures AttemptsAt(s, a) == [Attempt(f, s.sh.status == Opened)]
    ensures FramesTried(AttemptsAt(s, a)) == [f]
    ensures FramesSent(AttemptsAt(s, a)) == if s.sh.status == Opened then [f] else []
  {
    hide Next;
    assert AttemptsAt(s, a)[1..] == [];
    assert [f] + [] == [f];
  }

  lemma NoAttempts(s: State, a: Action)
    requires Next(s, a).Some? && Next(s, a).value.sh.wTried == s.sh.wTried
    ensures AttemptsAt(s, a) == []
  {
    hide Next;
  }

  lemma NothingAccounted(sh: Shared)
    ensures Accounted(sh, sh, [], [])
  {
    assert sh.wTried + FramesTried([]) == sh.wTried && sh.wSent + [] == sh.wSent;
  }

  lemma WriterMoveAccounts(w: WriterPc, choice: Choice, sh: Shared)
    requires WriterMove(w, choice, sh).Some?
    ensures var sh' := WriterMove(w, choice, sh).value.sh;
            if w.WriteTx? then
              && sh'.wTried == sh.wTried + [w.frame]
              && sh'.wSent == (if sh.status == Opened then sh.wSent + [w.frame] else sh.wSent)
              && Added(sh.native, sh'.native) == if sh.status == Opened then [Tx(w.frame)] else []
            else sh'.wTried == sh.wTried && sh'.wSent == sh.wSent && sh'.native == sh.native
  {
    if w.WriteTx? && sh.status == Opened {
      assert Added(sh.native, sh.native + [Tx(w.frame)]) == [Tx(w.frame)];
    }
  }

  lemma OthersTryNothing(s: State, a: Action)
    requires Next(s, a).Some? && !a.WriterStep?
    ensures var sh' := Next(s, a).value.sh; sh'.wTried == s.sh.wTried && sh'.wSent == s.sh.wSent
  {
    hide ControlMove, ReaderMove, WriterMove, ClientMove;
    match a
    case ControlStep(choice) => ControlCalls(s.control, choice, s.sh);
    case ReaderStep(choice) => ReaderCalls(s.reader, choice, s.sh);
    case ClientStep(id, choice) => ClientCalls(s.clients[id], choice, s.sh);
    case CallbackSees(_) =>
    case CallbackOffers(_) =>
  }

  lemma StepAccounts(s: State, a: Action)
    requires Next(s, a).Some?
    ensures Accounted(s.sh, Next(s, a).value.sh, AttemptsAt(s, a), Did(s, a, Writer).calls)
  {
    var s' := Next(s, a).value;
    if a.WriterStep? && s.writer.WriteTx? {
      WriterMoveAccounts(s.writer, a.choice, s.sh);
      hide WriterMove;
      OneAttempts(s, a, s.writer.frame);
      assert TxOf([s.writer.frame]) == [Tx(s.writer.frame)];
      assert s.sh.wSent + [] == s.sh.wSent;
    } else {
      if a.WriterStep? {
        WriterMoveAccounts(s.writer, a.choice, s.sh);
        hide WriterMove;
      } else {
        OthersTryNothing(s, a);
        hide Next;
      }
      hide Next;
      NoAttempts(s, a);
      NothingAccounted(s.sh);
    }
  }

  lemma SentFirst(a: Attempt, rest: seq<Attempt>)
    ensures FramesSent([a] + rest) == SentBy(a) + FramesSent(rest)
  {
    assert ([a] + rest)[1..] == rest;
  }

  lemma {:induction false} SentOfConcat(a: seq<Attempt>, b: seq<Attempt>)
    ensures FramesSent(a + b) == FramesSent(a) + FramesSent(b)
    decreases |a|
  {
    if a == [] {
      assert a + b == b;
    } else {
      var rest := a[1..];
      assert a == [a[0]] + rest && a + b == [a[0]] + (rest + b);
      SentOfConcat(rest, b);
      SentFirst(a[0], rest);
      SentFirst(a[0], rest + b);
      Associates(SentBy(a[0]), FramesSent(rest), FramesSent(b));
    }
  }

  lemma Associates(a: seq<Frame>, b: seq<Frame>, c: seq<Frame>)
    ensures a + (b + c) == a + b + c
  {
  }

  lemma TriedOfConcat(a: seq<Attempt>, b: seq<Attempt>)
    ensures FramesTried(a + b) == FramesTried(a) + FramesTried(b)
  {
  }

  lemma AccountsAdd(sh: Shared, sh1: Shared, sh2: Shared, a: seq<Attempt>, b: seq<Attempt>,
                    c: seq<NativeCall>, d: seq<NativeCall>)
    requires Accounted(sh, sh1, a, c) && Accounted(sh1, sh2, b, d)
    ensures Accounted(sh, sh2, a + b, c + d)
  {
    SentOfConcat(a, b);
    assert sh.wTried + FramesTried(a) + FramesTried(b) == sh.wTried + FramesTried(a + b);
    assert sh.wSent + FramesSent(a) + FramesSent(b) == sh.wSent + FramesSent(a + b);
    assert TxOf(FramesSent(a)) + TxOf(FramesSent(b)) == TxOf(FramesSent(a + b));
  }

  lemma {:induction false} RunAccounts(s: State, actions: seq<Action>)
    requires Run(s, actions).Some?
    ensures Accounted(s.sh, Run(s, actions).value.sh, Attempts(s, actions), DidAlong(s, actions, Writer).calls)
    decreases |actions|
  {
    if actions == [] {
      NothingAccounted(s.sh);
    } else {
      hide Next, AttemptsAt, Did, Accounted;
      var s1 := Next(s, actions[0]).value;
      StepAccounts(s, actions[0]);
      RunAccounts(s1, actions[1..]);
      AccountsAdd(s.sh, s1.sh, Run(s1, actions[1..]).value.sh, AttemptsAt(s, actions[0]), Attempts(s1, actions[1..]),
                  Did(s, actions[0], Writer).calls, DidAlong(s1, actions[1..], Writer).calls);
    }
  }

  /**
    * In every run the native transmissions the writer makes are, in order, those of its attempts that
    * found the driver open: none is left out and none is made besides.
    */
  lemma WriterTransmits(clients: set<nat>, actions: seq<Action>, s: State)
    requires Reachable(clients, actions, s)
    ensures var attempts := Attempts(Initial(clients), actions);
            && s.sh.wTried == FramesTried(attempts)
            && s.sh.wSent == FramesSent(attempts)
            && DidAlong(Initial(clients), actions, Writer).calls == TxOf(FramesSent(attempts))
  {
    RunAccounts(Initial(clients), actions);
    hide Run, Attempts, DidAlong, FramesTried, FramesSent, TxOf;
    var attempts := Attempts(Initial(clients), actions);
    assert [] + FramesTried(attempts) == FramesTried(attempts) && [] + FramesSent(attempts) == FramesSent(attempts);
  }

  /**
    * Over any number of sessions, what the writer transmits is what sendAsync accepted with some
    * frames left out: nothing is sent twice, out of order, or that was not accepted; and it is all
    * among the native transmissions.  What is left out is what an attempt found the driver not open for,
    * and what was not attempted.
    */
  lemma SentOnceInOrder(clients: set<nat>, actions: seq<Action>, s: State)
    requires Reachable(clients, actions, s)
    ensures Subsequence(s.sh.wSent, s.sh.wPut) && Subsequence(s.sh.wSent, TxFrames(s.sh.native))
    ensures DidAlong(Initial(clients), actions, Writer).calls == TxOf(s.sh.wSent)
    ensures s.sh.wSent == FramesSent(Attempts(Initial(clients), actions))
  {
    SentAmongPut(clients, actions, s);
    WriterTransmits(clients, actions, s);
  }

  /** The driver is open at every step the writer takes inside Driver::write. */
  predicate OpenAtWrites(s: State, actions: seq<Action>)
    decreases |actions|
  {
    actions == []
    || ((actions[0].WriterStep? && s.writer.WriteTx? ==> s.sh.status == Opened)
        && (Next(s, actions[0]).Some? ==> OpenAtWrites(Next(s, actions[0]).value, actions[1..])))
  }

  lemma {:induction false} OpenWritesSend(s: State, actions: seq<Action>)
    requires Run(s, actions).Some? && OpenAtWrites(s, actions)
    ensures FramesSent(Attempts(s, actions)) == FramesTried(Attempts(s, actions))
    decreases |actions|
  {
    if actions == [] {
    } else {
      hide Next, AttemptsAt, FramesSent, FramesTried;
      var s1 := Next(s, actions[0]).value;
      OpenWritesSend(s1, actions[1..]);
      OpenWriteSends(s, actions[0]);
      SentOfConcat(AttemptsAt(s, actions[0]), Attempts(s1, actions[1..]));
      TriedOfConcat(AttemptsAt(s, actions[0]), Attempts(s1, actions[1..]));
    }
  }

  lemma OpenWriteSends(s: State, a: Action)
    requires Next(s, a).Some? && (a.WriterStep? && s.writer.WriteTx? ==> s.sh.status == Opened)
    ensures FramesSent(AttemptsAt(s, a)) == FramesTried(AttemptsAt(s, a))
  {
    if a.WriterStep? {
      WriterMoveAccounts(s.writer, a.choice, s.sh);
      hide WriterMove;
      if s.writer.WriteTx? {
        OneAttempts(s, a, s.writer.frame);
      } else {
        NoAttempts(s, a);
      }
    } else {
      OthersTryNothing(s, a);
      hide Next;
      NoAttempts(s, a);
    }
  }

  /** If the driver is open whenever the writer writes, everything it takes up is transmitted. */
  lemma AllSentWhileOpen(clients: set<nat>, actions: seq<Action>, s: State)
    requires Reachable(clients, actions, s) && OpenAtWrites(Initial(clients), actions)
    ensures s.sh.wSent == s.sh.wTried
    ensures DidAlong(Initial(clients), actions, Writer).calls == TxOf(s.sh.wTried)
  {
    WriterTransmits(clients, actions, s);
    OpenWritesSend(Initial(clients), actions);
  }

  // ------------------------------------------------------------- what sendAsync accepts

  /** The frame of the sendAsync that is accepted at the step: the bus is started and fewer than 32 are queued. */
  function AcceptedAt(s: State, a: Action): seq<Frame>
  {
    if a.ClientStep? && a.id in s.clients && s.clients[a.id].AsyncTest? && s.sh.started && |s.sh.wQueue| < 32 then
      [s.clients[a.id].frame]
    else []
  }

  /** The frames accepted along a run, in order. */
  function Accepted(s: State, actions: seq<Action>): seq<Frame>
    requires Run(s, actions).Some?
    decreases |actions|
  {
    if actions == [] then [] else AcceptedAt(s, actions[0]) + Accepted(Next(s, actions[0]).value, actions[1..])
  }

  lemma ClientMoveAccepts(pc: ClientPc, choice: Choice, sh: Shared)
    requires ClientMove(pc, choice, sh).Some? && |sh.wQueue| <= CAPACITY
    ensures ClientMove(pc, choice, sh).value.sh.wPut ==
            sh.wPut + if pc.AsyncTest? && sh.started && |sh.wQueue| < 32 then [pc.frame] else []
  {
    assert sh.wPut + [] == sh.wPut;
  }

  lemma ControlLeavesPut(c: ControlPc, choice: Choice, sh: Shared)
    requires ControlMove(c, choice, sh).Some?
    ensures ControlMove(c, choice, sh).value.sh.wPut == sh.wPut
  {
    hide Offered, StopRequested;
    if c.ControlIdle? {
    } else if InInit(c) {
      hide CloseGo, TermGo;
    } else if InClose(c) {
      hide InitGo, TermGo;
    } else {
      hide InitGo, CloseGo;
    }
  }

  lemma ReaderLeavesPut(r: ReaderPc, choice: Choice, sh: Shared)
    requires ReaderMove(r, choice, sh).Some?
    ensures ReaderMove(r, choice, sh).value.sh.wPut == sh.wPut
  {
  }

  ghost predicate PutGrows(sh: Shared, sh': Shared, frames: seq<Frame>) { sh'.wPut == sh.wPut + frames }

  lemma PutGrowsOn(sh: Shared, sh1: Shared, sh2: Shared, a: seq<Frame>, b: seq<Frame>)
    requires PutGrows(sh, sh1, a) && PutGrows(sh1, sh2, b)
    ensures PutGrows(sh, sh2, a + b) && PutGrows(sh, sh, [])
  {
    assert sh.wPut + a + b == sh.wPut + (a + b) && sh.wPut + [] == sh.wPut;
  }

  lemma StepAccepts(s: State, a: Action)
    requires Next(s, a).Some? && |s.sh.wQueue| <= CAPACITY
    ensures PutGrows(s.sh, Next(s, a).value.sh, AcceptedAt(s, a))
  {
    hide ControlMove, ReaderMove, WriterMove, ClientMove;
    assert s.sh.wPut + [] == s.sh.wPut;
    match a
    case ControlStep(choice) => ControlLeavesPut(s.control, choice, s.sh);
    case ReaderStep(choice) => ReaderLeavesPut(s.reader, choice, s.sh);
    case WriterStep(choice) => WriterMoveHandles(s.writer, choice, s.sh);
    case ClientStep(id, choice) => ClientMoveAccepts(s.clients[id], choice, s.sh);
    case CallbackSees(_) =>
    case CallbackOffers(_) =>
  }

  lemma QueueFits(s: State)
    requires Inv(s)
    ensures |s.sh.wQueue| <= CAPACITY
  {
  }

  lemma {:induction false} RunAccepts(s: State, actions: seq<Action>)
    requires Inv(s) && Run(s, actions).Some?
    ensures PutGrows(s.sh, Run(s, actions).value.sh, Accepted(s, actions))
    decreases |actions|
  {
    if actions == [] {
      assert s.sh.wPut + [] == s.sh.wPut;
    } else {
      QueueFits(s);
      StepAccepts(s, actions[0]);
      hide Inv, Next, AcceptedAt, PutGrows;
      var s1 := Next(s, actions[0]).value;
      NextInv(s, actions[0]);
      RunAccepts(s1, actions[1..]);
      PutGrowsOn(s.sh, s1.sh, Run(s1, actions[1..]).value.sh, AcceptedAt(s, actions[0]), Accepted(s1, actions[1..]));
    }
  }

  /**
    * Over any number of init and term, the frames of the sendAsync calls that found the bus started and
    * the queue with room are, in order, those the writer deleted, the one it holds, and those still
    * queued; a deleted frame was handed to Driver::write once, or drained.
    */
  lemma AsyncConservation(clients: set<nat>, actions: seq<Action>, s: State)
    requires Reachable(clients, actions, s)
    ensures Accepted(Initial(clients), actions) == s.sh.wPut
    ensures s.sh.wPut == GoneFrames(s.sh.wGone) + InHand(s.writer) + Frames(s.sh.wQueue)
    ensures s.sh.wTried == WrittenFrames(s.sh.wGone) + if s.writer.Delete? then InHand(s.writer) else []
    ensures |s.sh.wQueue| <= 32
  {
    InitialInv(clients);
    ReachableInv(clients, actions);
    RunAccepts(Initial(clients), actions);
    hide Accepted, Run;
    assert [] + Accepted(Initial(clients), actions) == Accepted(Initial(clients), actions);
  }

  // ------------------------------------------------------------- one turn of the writer

  /** Between the poll of `f` and its delete: where the writer is, and what it has done so far. */
  ghost predicate Turning(f: Frame, entry: Shared, w: WriterPc, sh: Shared, did: Doings, tried: seq<Attempt>)
  {
    && sh.wGone == entry.wGone && did.outgoing == [] && did.incoming == []
    && if w.Delete? then w.entry == Ptr(f) && Turned(f, entry, sh, did, tried)
       else (w == WriteD(f) || w == WriteTx(f)) && did.calls == [] && tried == [] && sh.wTried == entry.wTried
            && sh.wSent == entry.wSent
  }

  /** The one attempt was on `f`; if it found the driver open, `f` was transmitted and counted as sent. */
  ghost predicate Turned(f: Frame, entry: Shared, sh: Shared, did: Doings, tried: seq<Attempt>)
  {
    && |tried| == 1 && tried[0].frame == f && sh.wTried == entry.wTried + [f]
    && if tried[0].open then sh.wSent == entry.wSent + [f] && did.calls == [Tx(f)]
       else sh.wSent == entry.wSent && did.calls == []
  }

  /** The turn is over: `f` is deleted as written. */
  ghost predicate TurnOver(f: Frame, entry: Shared, w: WriterPc, sh: Shared, did: Doings, tried: seq<Attempt>)
  {
    && w == WriterLoop && sh.wGone == entry.wGone + [Written(f)]
    && did.outgoing == [] && did.incoming == [] && Turned(f, entry, sh, did, tried)
  }

  lemma WriteIsTried(f: Frame, entry: Shared, s: State, choice: Choice, did: Doings)
    requires s.writer == WriteTx(f) && Turning(f, entry, s.writer, s.sh, did, [])
    requires Next(s, WriterStep(choice)).Some?
    ensures var s' := Next(s, WriterStep(choice)).value;
            && s'.writer == Delete(Ptr(f))
            && Turning(f, entry, s'.writer, s'.sh, Then(did, Difference(s.sh, s'.sh, true)),
                       AttemptsAt(s, WriterStep(choice)))
  {
    var s' := Next(s, WriterStep(choice)).value;
    assert s'.writer == Delete(Ptr(f)) && s'.sh.wGone == s.sh.wGone;
    assert s'.sh.wQueue == s.sh.wQueue && s'.sh.rQueue == s.sh.rQueue;
    WriterMoveAccounts(s.writer, choice, s.sh);
    hide WriterMove;
    OneAttempts(s, WriterStep(choice), f);
    hide Next, AttemptsAt;
  }

  lemma TurnGoesOn(f: Frame, entry: Shared, s: State, choice: Choice, did: Doings, tried: seq<Attempt>)
    requires Turning(f, entry, s.writer, s.sh, did, tried) && Next(s, WriterStep(choice)).Some?
    ensures var s' := Next(s, WriterStep(choice)).value;
            var did' := Then(did, Difference(s.sh, s'.sh, true));
            var tried' := tried + AttemptsAt(s, WriterStep(choice));
            if s.writer.Delete? then TurnOver(f, entry, s'.writer, s'.sh, did', tried')
            else Turning(f, entry, s'.writer, s'.sh, did', tried')
  {
    NoDifference(s.sh, true);
    ThenNothing(did);
    var a := WriterStep(choice);
    if s.writer.WriteTx? {
      WriteIsTried(f, entry, s, choice, did);
      hide Next, Turning, AttemptsAt;
      assert tried + AttemptsAt(s, a) == AttemptsAt(s, a);
    } else {
      NoAttempts(s, a);
      assert tried + [] == tried;
    }
  }

  lemma ControlLeavesGone(c: ControlPc, choice: Choice, sh: Shared)
    requires ControlMove(c, choice, sh).Some?
    ensures ControlMove(c, choice, sh).value.sh.wGone == sh.wGone
  {
    hide Offered, StopRequested;
    if c.ControlIdle? {
    } else if InInit(c) {
      hide CloseGo, TermGo;
    } else if InClose(c) {
      hide InitGo, TermGo;
    } else {
      hide InitGo, CloseGo;
    }
  }

  lemma ReaderLeavesGone(r: ReaderPc, choice: Choice, sh: Shared)
    requires ReaderMove(r, choice, sh).Some?
    ensures ReaderMove(r, choice, sh).value.sh.wGone == sh.wGone
  {
  }

  lemma OthersLeaveWriter(s: State, a: Action)
    requires Next(s, a).Some? && !a.WriterStep?
    ensures Next(s, a).value.writer == s.writer && Next(s, a).value.sh.wGone == s.sh.wGone
  {
    hide ControlMove, ReaderMove, WriterMove, ClientMove;
    match a
    case ControlStep(choice) => ControlLeavesGone(s.control, choice, s.sh);
    case ReaderStep(choice) => ReaderLeavesGone(s.reader, choice, s.sh);
    case ClientStep(id, choice) => ClientStaysInFrame(s.clients[id], choice, s.sh);
    case CallbackSees(_) =>
    case CallbackOffers(_) =>
  }

  lemma TurnStep(f: Frame, entry: Shared, s: State, a: Action, did: Doings, tried: seq<Attempt>)
    requires Next(s, a).Some? && Turning(f, entry, s.writer, s.sh, did, tried)
    ensures var s' := Next(s, a).value;
            var did' := Then(did, Did(s, a, Writer));
            var tried' := tried + AttemptsAt(s, a);
            if InCall(s', Writer) then Turning(f, entry, s'.writer, s'.sh, did', tried')
            else TurnOver(f, entry, s'.writer, s'.sh, did', tried')
  {
    hide Turned, Difference, Then, AttemptsAt, Next;
    if a.WriterStep? {
      TurnGoesOn(f, entry, s, a.choice, did, tried);
    } else {
      OthersLeaveWriter(s, a);
      OthersTryNothing(s, a);
      ThenNothing(did);
      NoAttempts(s, a);
      assert tried + [] == tried;
      TurnedStays(f, entry, s.sh, Next(s, a).value.sh, did, tried);
    }
  }

  lemma TurnedStays(f: Frame, entry: Shared, sh: Shared, sh': Shared, did: Doings, tried: seq<Attempt>)
    requires sh'.wTried == sh.wTried && sh'.wSent == sh.wSent
    ensures Turned(f, entry, sh', did, tried) == Turned(f, entry, sh, did, tried)
  {
  }

  lemma {:induction false} TurnRun(f: Frame, entry: Shared, s: State, actions: seq<Action>, did: Doings,
                                   tried: seq<Attempt>)
    requires Run(s, actions).Some? && StaysInCall(s, actions, Writer)
    requires Turning(f, entry, s.writer, s.sh, did, tried)
    ensures var s' := Run(s, actions).value;
            Turning(f, entry, s'.writer, s'.sh, Then(did, DidAlong(s, actions, Writer)),
                    tried + Attempts(s, actions))
    decreases |actions|
  {
    hide Next, Turning, Turned, TurnOver, Then, Did, AttemptsAt;
    if actions == [] {
      ThenNothing(did);
      assert tried + [] == tried;
    } else {
      var s1 := Next(s, actions[0]).value;
      assert InCall(s1, Writer);
      TurnStep(f, entry, s, actions[0], did, tried);
      TurnRun(f, entry, s1, actions[1..], Then(did, Did(s, actions[0], Writer)), tried + AttemptsAt(s, actions[0]));
      ThenThen(did, Did(s, actions[0], Writer), DidAlong(s1, actions[1..], Writer));
      assert tried + AttemptsAt(s, actions[0]) + Attempts(s1, actions[1..]) == tried + Attempts(s, actions);
    }
  }

  /** The attempts in a whole turn. */
  function TriedInTurn(s: State, actions: seq<Action>, last: Action): seq<Attempt>
    requires Next(s, WriterStep(Go)).Some? && Run(Next(s, WriterStep(Go)).value, actions).Some?
    requires Next(BeforeLast(s, WriterStep(Go), actions), last).Some?
  {
    Attempts(Next(s, WriterStep(Go)).value, actions) + AttemptsAt(BeforeLast(s, WriterStep(Go), actions), last)
  }

  /**
    * A whole turn of the writer, from the poll of `f` to its delete, with every other thread at work in
    * between: one attempt is made, on `f`, and the frame is deleted as written.  If the attempt finds
    * the driver open the writer by itself makes the one transmission of `f`, and else no native call.
    */
  lemma WriterTurn(s: State, f: Frame, actions: seq<Action>, last: Action)
    requires s.writer.WriterPoll? && s.sh.wQueue != [] && s.sh.wQueue[0] == Ptr(f)
    requires WholeCall(s, WriterStep(Go), actions, last, Writer)
    ensures var s' := Next(BeforeLast(s, WriterStep(Go), actions), last).value;
            TurnOver(f, s.sh, s'.writer, s'.sh, DidInCall(s, WriterStep(Go), actions, last, Writer),
                     TriedInTurn(s, actions, last))
  {
    var first := WriterStep(Go);
    var s0 := Next(s, first).value;
    assert s0.sh == s.sh.(wQueue := s.sh.wQueue[1..]) && s0.writer == WriteD(f);
    PollAddsNothing(s.sh);
    assert Did(s, first, Writer) == NOTHING;
    assert Turning(f, s.sh, s0.writer, s0.sh, NOTHING, []);
    hide Next, Run, Then, Turning, Turned, TurnOver, Did, Attempts, AttemptsAt;
    TurnRun(f, s.sh, s0, actions, NOTHING, []);
    assert [] + Attempts(s0, actions) == Attempts(s0, actions);
    TurnStep(f, s.sh, BeforeLast(s, first, actions), last, Then(NOTHING, DidAlong(s0, actions, Writer)),
             Attempts(s0, actions));
  }

  lemma PollAddsNothing(sh: Shared)
    requires sh.wQueue != []
    ensures Difference(sh, sh.(wQueue := sh.wQueue[1..]), true) == NOTHING
  {
    NoDifference(sh, true);
  }

  // ------------------------------------------------------------- the machine's queue is the protocol's

  /** The operation on the outgoing queue that a step of the machine stands for, if any. */
  function OutgoingOps(s: State, a: Action): seq<Q.Op<Entry>>
  {
    match a
    case ClientStep(id, _) =>
      if id in s.clients && s.clients[id].AsyncTest? && s.sh.started then [Q.Offers(Ptr(s.clients[id].frame))] else []
    case ControlStep(_) => if s.control.WriterOffer? then [Q.Offers(Sentinel)] else []
    case WriterStep(choice) =>
      if !s.writer.WriterPoll? && !s.writer.Drain? then []
      else if s.sh.wQueue != [] then [Q.Takes(s.sh.wQueue[0])]
      else if choice.WakeSpuriously? then [Q.FindsNothing]
      else []
    case _ => []
  }

  function OutgoingRunOps(s: State, actions: seq<Action>): seq<Q.Op<Entry>>
    requires Run(s, actions).Some?
    decreases |actions|
  {
    if actions == [] then []
    else OutgoingOps(s, actions[0]) + OutgoingRunOps(Next(s, actions[0]).value, actions[1..])
  }

  lemma ClientOffersOne(pc: ClientPc, choice: Choice, sh: Shared)
    requires ClientMove(pc, choice, sh).Some?
    ensures ClientMove(pc, choice, sh).value.sh.wQueue ==
            if pc.AsyncTest? && sh.started then Offered(sh.wQueue, Ptr(pc.frame)) else sh.wQueue
  {
  }

  lemma ControlOffersWriter(c: ControlPc, choice: Choice, sh: Shared)
    requires ControlMove(c, choice, sh).Some?
    ensures ControlMove(c, choice, sh).value.sh.wQueue ==
            if c.WriterOffer? then Offered(sh.wQueue, Sentinel) else sh.wQueue
  {
    hide StopRequested, Offered;
    if c.ControlIdle? {
    } else if InInit(c) {
      hide CloseGo, TermGo;
    } else if InClose(c) {
      hide InitGo, TermGo;
    } else {
      hide InitGo, CloseGo;
    }
  }

  lemma WriterTakesOne(w: WriterPc, choice: Choice, sh: Shared)
    requires WriterMove(w, choice, sh).Some?
    ensures WriterMove(w, choice, sh).value.sh.wQueue ==
            if (w.WriterPoll? || w.Drain?) && sh.wQueue != [] then sh.wQueue[1..] else sh.wQueue
  {
  }

  lemma OutgoingStepIsOp(s: State, a: Action)
    requires Next(s, a).Some?
    ensures Q.AtomicRun(s.sh.wQueue, OutgoingOps(s, a)) == Some(Next(s, a).value.sh.wQueue)
  {
    hide ControlMove, ReaderMove, WriterMove, ClientMove, Q.AtomicRun;
    Q.NoOperations(s.sh.wQueue);
    if OutgoingOps(s, a) != [] {
      Q.OneOperation(s.sh.wQueue, OutgoingOps(s, a)[0]);
    }
    match a
    case ControlStep(choice) => ControlOffersWriter(s.control, choice, s.sh);
    case ReaderStep(choice) => ReaderLeavesOutgoing(s.reader, choice, s.sh);
    case WriterStep(choice) => WriterTakesOne(s.writer, choice, s.sh);
    case ClientStep(id, choice) => ClientOffersOne(s.clients[id], choice, s.sh);
    case CallbackSees(_) =>
    case CallbackOffers(_) =>
  }

  /**
    * Every run of the machine does to the outgoing queue what its operations do one after the other on
    * the atomic queue.  A sendAsync on a started bus offers its frame, a stop offers a sentinel, and
    * the writer takes what is in front.
    */
  lemma {:induction false} OutgoingRunIsOps(s: State, actions: seq<Action>)
    requires Run(s, actions).Some?
    ensures Q.AtomicRun(s.sh.wQueue, OutgoingRunOps(s, actions)) == Some(Run(s, actions).value.sh.wQueue)
    decreases |actions|
  {
    if actions == [] {
      Q.NoOperations(s.sh.wQueue);
    } else {
      hide Next, OutgoingOps, Q.AtomicRun;
      var s1 := Next(s, actions[0]).value;
      OutgoingStepIsOp(s, actions[0]);
      OutgoingRunIsOps(s1, actions[1..]);
      Q.AtomicRunOn(s.sh.wQueue, OutgoingOps(s, actions[0]), OutgoingRunOps(s1, actions[1..]));
    }
  }
}
