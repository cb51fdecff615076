/**
  * What happens to frames and to the native device over whole runs of the bus machine: nothing is
  * lost, doubled or reordered in either direction, and the native calls obey their protocol.
  */
module BusTraffic {
  import opened Osal
  import opened BusProtocol
  import opened BusInvariant

  ghost predicate Reachable(clients: set<nat>, actions: seq<Action>, s: State)
  {
    Run(Initial(clients), actions) == Some(s)
  }

  // ------------------------------------------------------------- outgoing

  /** When term comes to its end, every accepted frame has been deleted; at most a sentinel is left. */
  lemma StoppedQueueIsEmpty(clients: set<nat>, actions: seq<Action>, s: State)
    requires Reachable(clients, actions, s)
    requires s.control == Unlock(FinishTerm) || s.control.TermDone?
    ensures s.sh.wPut == GoneFrames(s.sh.wGone)
    ensures s.sh.wQueue == [] || s.sh.wQueue == [Sentinel]
    ensures s.reader.ReaderExited? && s.writer.WriterExited? && !s.sh.started && s.sh.status != Opened
  {
    ReachableInv(clients, actions);
    assert Frames(s.sh.wQueue) == [] by {
      if s.sh.wQueue == [Sentinel] {
        assert s.sh.wQueue[1..] == [];
      }
    }
  }

  // ------------------------------------------------------------- what reaches the device

  predicate Subsequence<T(==)>(a: seq<T>, b: seq<T>)
    decreases |b|
  {
    if a == [] then true
    else if b == [] then false
    else (a[|a| - 1] == b[|b| - 1] && Subsequence(a[..|a| - 1], b[..|b| - 1])) || Subsequence(a, b[..|b| - 1])
  }

  lemma SubsequenceGrows<T>(a: seq<T>, b: seq<T>, x: T)
    requires Subsequence(a, b)
    ensures Subsequence(a, b + [x]) && Subsequence(a + [x], b + [x])
  {
    assert (b + [x])[..|b|] == b && (a + [x])[..|a|] == a;
  }

  function TxFrames(calls: seq<NativeCall>): seq<Frame>
  {
    if calls == [] then []
    else TxFrames(calls[..|calls| - 1]) + if calls[|calls| - 1].Tx? then [calls[|calls| - 1].frame] else []
  }

  lemma TxFramesAppend(calls: seq<NativeCall>, call: NativeCall)
    ensures TxFrames(calls + [call]) == TxFrames(calls) + if call.Tx? then [call.frame] else []
  {
    assert (calls + [call])[..|calls|] == calls;
  }

  ghost predicate SentOk(sh: Shared)
  {
    Subsequence(sh.wSent, TxFrames(sh.native)) && Subsequence(sh.wSent, sh.wTried)
  }

  /** At most one native call more, and no attempt of the writer. */
  ghost predicate CallsOn(sh: Shared, sh': Shared)
  {
    && sh'.wSent == sh.wSent && sh'.wTried == sh.wTried
    && (sh'.native == sh.native || exists call :: sh'.native == sh.native + [call])
  }

  lemma CallsKeepSent(sh: Shared, sh': Shared)
    requires SentOk(sh) && CallsOn(sh, sh')
    ensures SentOk(sh')
  {
    hide Subsequence, TxFrames;
    if sh'.native != sh.native {
      var call :| sh'.native == sh.native + [call];
      TxFramesAppend(sh.native, call);
      if call.Tx? {
        SubsequenceGrows(sh.wSent, TxFrames(sh.native), call.frame);
      } else {
        assert TxFrames(sh.native) + [] == TxFrames(sh.native);
      }
    }
  }

  lemma InitCalls(c: ControlPc, nativeOk: bool, sh: Shared)
    requires InInit(c) && InitGo(c, nativeOk, sh).Some?
    ensures CallsOn(sh, InitGo(c, nativeOk, sh).value.sh)
  {
    var sh' := InitGo(c, nativeOk, sh).value.sh;
    assert sh'.native == sh.native || sh'.native == sh.native + [Open(nativeOk)];
  }

  lemma CloseCalls(c: ControlPc, nativeOk: bool, sh: Shared)
    requires InClose(c) && CloseGo(c, nativeOk, sh).Some?
    ensures CallsOn(sh, CloseGo(c, nativeOk, sh).value.sh)
  {
    hide Offered;
    var sh' := CloseGo(c, nativeOk, sh).value.sh;
    assert sh'.native == sh.native || sh'.native == sh.native + [Close(nativeOk)];
  }

  lemma TermCalls(c: ControlPc, sh: Shared)
    requires !c.ControlIdle? && !InInit(c) && !InClose(c) && TermGo(c, sh).Some?
    ensures CallsOn(sh, TermGo(c, sh).value.sh)
  {
    hide Offered, StopRequested;
  }

  lemma ControlCalls(c: ControlPc, choice: Choice, sh: Shared)
    requires ControlMove(c, choice, sh).Some?
    ensures CallsOn(sh, ControlMove(c, choice, sh).value.sh)
  {
    hide InitGo, CloseGo, TermGo;
    if !c.ControlIdle? {
      hide CallsOn;
      if InInit(c) {
        InitCalls(c, choice.Go?, sh);
      } else if InClose(c) {
        CloseCalls(c, choice.Go?, sh);
      } else {
        TermCalls(c, sh);
      }
    }
  }

  lemma ReaderCalls(r: ReaderPc, choice: Choice, sh: Shared)
    requires ReaderMove(r, choice, sh).Some?
    ensures CallsOn(sh, ReaderMove(r, choice, sh).value.sh)
  {
    ReaderUses(r, choice, sh);
  }

  lemma ClientCalls(pc: ClientPc, choice: Choice, sh: Shared)
    requires ClientMove(pc, choice, sh).Some?
    ensures CallsOn(sh, ClientMove(pc, choice, sh).value.sh)
  {
    ClientUses(pc, choice, sh);
    ClientStaysInFrame(pc, choice, sh);
  }

  lemma WriterKeepsSent(w: WriterPc, choice: Choice, sh: Shared)
    requires SentOk(sh) && WriterMove(w, choice, sh).Some?
    ensures SentOk(WriterMove(w, choice, sh).value.sh)
  {
    hide Subsequence, TxFrames;
    if w.WriteTx? {
      TxFramesAppend(sh.native, Tx(w.frame));
      SubsequenceGrows(sh.wSent, TxFrames(sh.native), w.frame);
      SubsequenceGrows(sh.wSent, sh.wTried, w.frame);
    }
  }

  lemma SentStep(s: State, a: Action)
    requires SentOk(s.sh) && Next(s, a).Some?
    ensures SentOk(Next(s, a).value.sh)
  {
    hide ControlMove, ReaderMove, WriterMove, ClientMove, SentOk, CallsOn;
    var sh' := Next(s, a).value.sh;
    match a
    case ControlStep(choice) =>
      ControlCalls(s.control, choice, s.sh);
      CallsKeepSent(s.sh, sh');
    case ReaderStep(choice) =>
      ReaderCalls(s.reader, choice, s.sh);
      CallsKeepSent(s.sh, sh');
    case WriterStep(choice) => WriterKeepsSent(s.writer, choice, s.sh);
    case ClientStep(id, choice) =>
      ClientCalls(s.clients[id], choice, s.sh);
      CallsKeepSent(s.sh, sh');
    case CallbackSees(_) =>
      CallbackCalls(s.sh, sh');
      CallsKeepSent(s.sh, sh');
    case CallbackOffers(i) =>
      CallbackCalls(s.sh, sh');
      CallsKeepSent(s.sh, sh');
  }

  lemma CallbackCalls(sh: Shared, sh': Shared)
    requires sh'.wSent == sh.wSent && sh'.wTried == sh.wTried && sh'.native == sh.native
    ensures CallsOn(sh, sh')
  {
  }

  lemma {:induction false} SentRun(s: State, actions: seq<Action>)
    requires SentOk(s.sh) && Run(s, actions).Some?
    ensures SentOk(Run(s, actions).value.sh)
    decreases |actions|
  {
    if actions != [] {
      hide SentOk, Next;
      SentStep(s, actions[0]);
      SentRun(Next(s, actions[0]).value, actions[1..]);
    }
  }

  lemma {:induction false} SubsequenceTrans<T>(a: seq<T>, b: seq<T>, c: seq<T>)
    requires Subsequence(a, b) && Subsequence(b, c)
    ensures Subsequence(a, c)
    decreases |c|
  {
    if a != [] && b != [] {
      if b[|b| - 1] == c[|c| - 1] && Subsequence(b[..|b| - 1], c[..|c| - 1]) {
        if a[|a| - 1] == b[|b| - 1] && Subsequence(a[..|a| - 1], b[..|b| - 1]) {
          SubsequenceTrans(a[..|a| - 1], b[..|b| - 1], c[..|c| - 1]);
        } else {
          SubsequenceTrans(a, b[..|b| - 1], c[..|c| - 1]);
        }
      } else {
        SubsequenceTrans(a, b, c[..|c| - 1]);
      }
    }
  }

  lemma {:induction false} SubsequenceOfLonger<T>(a: seq<T>, b: seq<T>, more: seq<T>)
    requires Subsequence(a, b)
    ensures Subsequence(a, b + more)
    decreases |more|
  {
    hide Subsequence;
    if more == [] {
      assert b + more == b;
    } else {
      var n := |more| - 1;
      SubsequenceOfLonger(a, b, more[..n]);
      SubsequenceGrows(a, b + more[..n], more[n]);
      assert b + more == b + more[..n] + [more[n]];
    }
  }

  lemma {:induction false} WrittenAmongGone(gone: seq<Gone>)
    ensures Subsequence(WrittenFrames(gone), GoneFrames(gone))
  {
    if gone != [] {
      var n := |gone| - 1;
      WrittenAmongGone(gone[..n]);
      SubsequenceGrows(WrittenFrames(gone[..n]), GoneFrames(gone[..n]), gone[n].frame);
      assert GoneFrames(gone) == GoneFrames(gone[..n]) + [gone[n].frame];
      assert WrittenFrames(gone[..n]) + [] == WrittenFrames(gone[..n]);
    }
  }

  /** The attempts of the writer are, in order, among the frames it deleted or has in hand. */
  lemma AttemptsAmongAccepted(w: WriterPc, sh: Shared)
    requires OutgoingOk(w, sh) && TriedOk(w, sh)
    ensures Subsequence(sh.wTried, sh.wPut)
  {
    hide Subsequence, GoneFrames, WrittenFrames, Frames;
    WrittenAmongGone(sh.wGone);
    var done := GoneFrames(sh.wGone) + InHand(w);
    if w.Delete? && w.entry.Ptr? {
      SubsequenceGrows(WrittenFrames(sh.wGone), GoneFrames(sh.wGone), w.entry.frame);
    } else {
      SubsequenceOfLonger(WrittenFrames(sh.wGone), GoneFrames(sh.wGone), InHand(w));
      assert WrittenFrames(sh.wGone) + [] == WrittenFrames(sh.wGone);
    }
    SubsequenceOfLonger(sh.wTried, done, Frames(sh.wQueue));
  }

  lemma SentAmongPut(clients: set<nat>, actions: seq<Action>, s: State)
    requires Reachable(clients, actions, s)
    ensures Subsequence(s.sh.wSent, s.sh.wPut) && Subsequence(s.sh.wSent, TxFrames(s.sh.native))
  {
    SentRun(Initial(clients), actions);
    ReachableInv(clients, actions);
    hide Run, Subsequence, Exclusive, ThreadsOk, DriverOk, WakeOk, QuietOk, FlushOk, IncomingOk;
    hide OutgoingOk, TriedOk;
    AttemptsAmongAccepted(s.writer, s.sh);
    SubsequenceTrans(s.sh.wSent, s.sh.wTried, s.sh.wPut);
  }

  // ------------------------------------------------------------- sends and the started flag

  predicate ReaderSends(r: ReaderPc) { r.ListenerD? || r.ListenerTx? }
  predicate ClientSends(pc: ClientPc) { pc.SendD? || pc.SendTx? }

  /** Whoever is in Driver::write for a synchronous send found the bus started, and it still is. */
  ghost predicate SendsOk(s: State)
  {
    (ReaderSends(s.reader) ==> s.sh.started) && forall i | i in s.clients :: ClientSends(s.clients[i]) ==> s.sh.started
  }

  lemma OnlyStopClears(c: ControlPc, choice: Choice, sh: Shared)
    requires ControlMove(c, choice, sh).Some? && sh.started && !c.StopClear?
    ensures ControlMove(c, choice, sh).value.sh.started
  {
    hide Offered, StopRequested;
  }

  lemma ReaderSendsStarted(r: ReaderPc, choice: Choice, sh: Shared)
    requires ReaderMove(r, choice, sh).Some? && (ReaderSends(r) ==> sh.started)
    ensures var m := ReaderMove(r, choice, sh).value; m.sh.started == sh.started && (ReaderSends(m.pc) ==> sh.started)
  {
  }

  lemma ClientSendsStarted(pc: ClientPc, choice: Choice, sh: Shared)
    requires ClientMove(pc, choice, sh).Some? && (ClientSends(pc) ==> sh.started)
    ensures var m := ClientMove(pc, choice, sh).value; m.sh.started == sh.started && (ClientSends(m.pc) ==> sh.started)
  {
  }

  lemma WriterLeavesStarted(w: WriterPc, choice: Choice, sh: Shared)
    requires WriterMove(w, choice, sh).Some?
    ensures WriterMove(w, choice, sh).value.sh.started == sh.started
  {
  }

  lemma NobodySendsAtStop(s: State)
    requires Exclusive(s) && s.control.StopClear?
    ensures !ReaderSends(s.reader) && forall i | i in s.clients :: !ClientSends(s.clients[i])
  {
    assert HoldsR(s, Control) && s.r == Some(Control);
    assert HoldsR(s, Reader) <==> s.r == Some(Reader);
    forall i | i in s.clients
      ensures !ClientSends(s.clients[i])
    {
      assert HoldsR(s, Client(i)) <==> s.r == Some(Client(i));
    }
  }

  lemma SendsStep(s: State, a: Action)
    requires Exclusive(s) && SendsOk(s) && Next(s, a).Some?
    ensures SendsOk(Next(s, a).value)
  {
    hide ControlMove, ReaderMove, WriterMove, ClientMove, Exclusive, ReaderSends, ClientSends, PutIncoming;
    match a
    case ControlStep(choice) =>
      if s.control.StopClear? {
        NobodySendsAtStop(s);
      } else if s.sh.started {
        OnlyStopClears(s.control, choice, s.sh);
      }
    case ReaderStep(choice) => ReaderSendsStarted(s.reader, choice, s.sh);
    case WriterStep(choice) => WriterLeavesStarted(s.writer, choice, s.sh);
    case ClientStep(id, choice) => ClientSendsStarted(s.clients[id], choice, s.sh);
    case CallbackSees(_) =>
    case CallbackOffers(i) => OfferTouches(s.sh, s.sh.inFlight[i]);
  }

  lemma {:induction false} SendsRun(s: State, actions: seq<Action>)
    requires Inv(s) && SendsOk(s) && Run(s, actions).Some?
    ensures SendsOk(Run(s, actions).value)
    decreases |actions|
  {
    if actions != [] {
      hide SendsOk, Next, Exclusive, ThreadsOk, DriverOk, WakeOk, QuietOk, FlowOk, FlushOk;
      SendsStep(s, actions[0]);
      NextInv(s, actions[0]);
      SendsRun(Next(s, actions[0]).value, actions[1..]);
    }
  }

  /** In no run does a client or a listener write to the driver while the bus is not started. */
  lemma NoSendOnStoppedBus(clients: set<nat>, actions: seq<Action>, s: State)
    requires Reachable(clients, actions, s)
    ensures ReaderSends(s.reader) ==> s.sh.started
    ensures forall i | i in s.clients :: ClientSends(s.clients[i]) ==> s.sh.started
  {
    InitialInv(clients);
    SendsRun(Initial(clients), actions);
  }

  // ------------------------------------------------------------- the native device

  predicate NeedsOpenDevice(call: NativeCall) { !call.Open? }

  predicate LeavesDeviceOpen(call: NativeCall) { call == Open(true) || call.Tx? || call.Add? || call.Remove? }

  predicate LeavesDeviceClosed(call: NativeCall) { call == Open(false) || call == Close(true) }

  predicate FollowsOn(calls: seq<NativeCall>, i: nat)
    requires i < |calls|
  {
    if NeedsOpenDevice(calls[i]) then i > 0 && LeavesDeviceOpen(calls[i - 1])
    else i == 0 || LeavesDeviceClosed(calls[i - 1])
  }

  /** (Open (Tx or Add or Remove)* Close)*, said of each call and the call before it. */
  predicate Alternates(calls: seq<NativeCall>)
  {
    forall i: nat | i < |calls| :: FollowsOn(calls, i)
  }

  predicate PhaseShown(calls: seq<NativeCall>)
  {
    match PhaseOf(calls)
    case PhaseOpen => calls != [] && LeavesDeviceOpen(calls[|calls| - 1])
    case PhaseClosed => calls == [] || LeavesDeviceClosed(calls[|calls| - 1])
    case PhaseFailed => calls != [] && calls[|calls| - 1] == Close(false)
    case PhaseBroken => calls != []
  }

  /** The automaton breaks on exactly the traces that do not alternate. */
  lemma {:induction false} PhaseIsAlternation(calls: seq<NativeCall>)
    ensures PhaseOf(calls) != PhaseBroken <==> Alternates(calls)
    ensures PhaseShown(calls)
  {
    if calls != [] {
      var n := |calls| - 1;
      PhaseIsAlternation(calls[..n]);
      assert forall i: nat | i < n :: FollowsOn(calls, i) == FollowsOn(calls[..n], i);
      assert Alternates(calls) <==> Alternates(calls[..n]) && FollowsOn(calls, n);
    }
  }

  /**
    * In every interleaving the native calls alternate, and whenever the driver's mutex is free the
    * state tells the device's: CLOSING is seen exactly after a failed native close.
    */
  lemma NativeProtocol(clients: set<nat>, actions: seq<Action>, s: State)
    requires Reachable(clients, actions, s)
    ensures Alternates(s.sh.native)
    ensures s.d == None ==>
              (s.sh.status == Opened <==> s.sh.native != [] && LeavesDeviceOpen(s.sh.native[|s.sh.native| - 1]))
              && (s.sh.status == Closing <==> s.sh.native != [] && s.sh.native[|s.sh.native| - 1] == Close(false))
  {
    ReachableInv(clients, actions);
    PhaseIsAlternation(s.sh.native);
    assert HoldsD(s, Control) <==> s.d == Some(Control);
  }

  lemma FailureControl(c: ControlPc, choice: Choice, sh: Shared)
    requires DriverOk(c, sh) && sh.status == Closing && !Closing2(c) && ControlMove(c, choice, sh).Some?
    ensures var sh' := ControlMove(c, choice, sh).value.sh; sh'.native == sh.native && sh'.status == Closing
  {
    hide PhaseOf, Offered, StopRequested;
    if InInit(c) {
      hide CloseGo, TermGo;
    } else if InClose(c) {
      hide InitGo, TermGo;
    } else {
      hide InitGo, CloseGo;
    }
  }

  lemma FailureStep(s: State, a: Action)
    requires Inv(s) && PhaseOf(s.sh.native) == PhaseFailed && Next(s, a).Some?
    ensures var s' := Next(s, a).value; s'.sh.native == s.sh.native && s.sh.status == s'.sh.status == Closing
  {
    hide PhaseOf, Exclusive, ThreadsOk, WakeOk, QuietOk, FlowOk, FlushOk;
    hide DriverUsed, ControlMove, ReaderMove, WriterMove, ClientMove;
    assert s.sh.status == Closing && !Closing2(s.control);
    match a
    case ControlStep(choice) => FailureControl(s.control, choice, s.sh);
    case ReaderStep(choice) =>
      ReaderUses(s.reader, choice, s.sh);
      ClosingIsUnused(s.sh, Next(s, a).value.sh);
    case WriterStep(choice) =>
      WriterUses(s.writer, choice, s.sh);
      ClosingIsUnused(s.sh, Next(s, a).value.sh);
    case ClientStep(id, choice) =>
      ClientUses(s.clients[id], choice, s.sh);
      ClosingIsUnused(s.sh, Next(s, a).value.sh);
    case CallbackSees(_) =>
    case CallbackOffers(_) =>
  }

  lemma ClosingIsUnused(sh: Shared, sh': Shared)
    requires DriverUsed(sh, sh') && sh.status != Opened
    ensures sh'.native == sh.native && sh'.status == sh.status
  {
  }

  /** After a failed native close the driver never opens, closes or calls the device again. */
  lemma {:induction false} FailureIsForever(s: State, actions: seq<Action>)
    requires Inv(s) && PhaseOf(s.sh.native) == PhaseFailed && Run(s, actions).Some?
    ensures var s' := Run(s, actions).value; s'.sh.native == s.sh.native && s'.sh.status == Closing
    decreases |actions|
  {
    if actions == [] {
      hide PhaseOf;
    } else {
      hide Inv, Next, PhaseOf;
      FailureStep(s, actions[0]);
      NextInv(s, actions[0]);
      FailureIsForever(Next(s, actions[0]).value, actions[1..]);
    }
  }

  // ------------------------------------------------------------- the device of the IARM driver

  /** Whether driverCtx points to a context after these calls. */
  predicate HasContext(calls: seq<NativeCall>)
  {
    if calls == [] then false
    else
      match calls[|calls| - 1]
      case Open(true) => true
      case Close(true) => false
      case _ => HasContext(calls[..|calls| - 1])
  }

  /** The results are those HdmiCecOpen and HdmiCecClose give. */
  predicate FromIarm(calls: seq<NativeCall>)
  {
    calls == []
    || (var before := calls[..|calls| - 1];
        FromIarm(before)
        && match calls[|calls| - 1] {
             case Open(ok) => ok == !HasContext(before)
             case Close(ok) => ok == HasContext(before)
             case _ => true
           })
  }

  lemma {:induction false} ContextFollowsPhase(calls: seq<NativeCall>)
    requires FromIarm(calls) && PhaseOf(calls) != PhaseBroken
    ensures PhaseOf(calls) != PhaseFailed && (HasContext(calls) <==> PhaseOf(calls) == PhaseOpen)
    ensures Open(false) !in calls && Close(false) !in calls
  {
    if calls != [] {
      var before := calls[..|calls| - 1];
      ContextFollowsPhase(before);
      assert calls == before + [calls[|calls| - 1]];
    }
  }

  /** Over the IARM driver no open and no close fails, and the driver is open when there is a context. */
  lemma IarmNeverFails(clients: set<nat>, actions: seq<Action>, s: State)
    requires Reachable(clients, actions, s) && FromIarm(s.sh.native)
    ensures Open(false) !in s.sh.native && Close(false) !in s.sh.native
    ensures s.d == None ==> s.sh.status != Closing && (s.sh.status == Opened <==> HasContext(s.sh.native))
  {
    ReachableInv(clients, actions);
    ContextFollowsPhase(s.sh.native);
    assert HoldsD(s, Control) <==> s.d == Some(Control);
  }
}
