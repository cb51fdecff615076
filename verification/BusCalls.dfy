/**
  * Whole calls on the bus machine, from their first step to their last, with every other thread at
  * work in between: what a call by itself does to the native device and to the two queues.
  * What a thread does is read off the states before and after its steps.
  */
module BusCalls {
  import opened Bytes
  import opened Osal
  import opened BusProtocol
  import opened BusInvariant
  import opened BusTraffic

  // ------------------------------------------------------------- what a step does

  /** The native calls made, whether each succeeded, and what was put into the queues. */
  datatype Doings = Doings(calls: seq<NativeCall>, replies: seq<bool>, outgoing: seq<Entry>, incoming: seq<Entry>)

  const NOTHING := Doings([], [], [], [])

  function Then(a: Doings, b: Doings): Doings
  {
    Doings(a.calls + b.calls, a.replies + b.replies, a.outgoing + b.outgoing, a.incoming + b.incoming)
  }

  /** What was added at the end. */
  function Added<T(==)>(before: seq<T>, after: seq<T>): seq<T>
  {
    if before <= after then after[|before|..] else []
  }

  function Difference(sh: Shared, sh': Shared, nativeOk: bool): Doings
  {
    Doings(Added(sh.native, sh'.native),
           if sh'.native != sh.native then [nativeOk] else [],
           Added(sh.wQueue, sh'.wQueue),
           Added(sh.rQueue, sh'.rQueue))
  }

  function ThreadOf(a: Action): Option<Thread>
  {
    match a
    case ControlStep(_) => Some(Control)
    case ReaderStep(_) => Some(Reader)
    case WriterStep(_) => Some(Writer)
    case ClientStep(id, _) => Some(Client(id))
    case CallbackSees(_) => None
    case CallbackOffers(_) => None
  }

  function NativeOk(a: Action): bool
  {
    match a
    case ControlStep(choice) => !choice.NativeFails?
    case ClientStep(_, choice) => !choice.NativeFails?
    case _ => true
  }

  /** What thread `t` does by itself at one step. */
  function Did(s: State, a: Action, t: Thread): Doings
    requires Next(s, a).Some?
  {
    if ThreadOf(a) == Some(t) then Difference(s.sh, Next(s, a).value.sh, NativeOk(a)) else NOTHING
  }

  /** What thread `t` does by itself along a run. */
  function DidAlong(s: State, actions: seq<Action>, t: Thread): Doings
    requires Run(s, actions).Some?
    decreases |actions|
  {
    if actions == [] then NOTHING
    else Then(Did(s, actions[0], t), DidAlong(Next(s, actions[0]).value, actions[1..], t))
  }

  lemma ThenNothing(a: Doings)
    ensures Then(a, NOTHING) == a && Then(NOTHING, a) == a
  {
  }

  lemma ThenThen(a: Doings, b: Doings, c: Doings)
    ensures Then(Then(a, b), c) == Then(a, Then(b, c))
  {
  }

  lemma NoDifference(sh: Shared, ok: bool)
    ensures Difference(sh, sh, ok) == NOTHING
  {
  }

  lemma SameDifference(sh: Shared, sh': Shared, ok: bool)
    requires sh'.native == sh.native && sh'.wQueue == sh.wQueue && sh'.rQueue == sh.rQueue
    ensures Difference(sh, sh', ok) == NOTHING
  {
  }

  // ------------------------------------------------------------- in a call

  predicate InCall(s: State, t: Thread)
  {
    match t
    case Control => !s.control.ControlIdle?
    case Reader => s.reader.ListenerW? || s.reader.ListenerTest? || s.reader.ListenerD? || s.reader.ListenerTx?
    case Writer => s.writer.WriteD? || s.writer.WriteTx? || s.writer.Delete?
    case Client(id) => id in s.clients && !s.clients[id].ClientIdle?
  }

  /** Every state of the run is inside the call of `t`. */
  predicate StaysInCall(s: State, actions: seq<Action>, t: Thread)
    decreases |actions|
  {
    InCall(s, t)
    && (actions != [] && Next(s, actions[0]).Some? ==> StaysInCall(Next(s, actions[0]).value, actions[1..], t))
  }

  /** A whole call of `t`: `first` enters it in `s`, `actions` run inside it, `last` leaves it. */
  ghost predicate WholeCall(s: State, first: Action, actions: seq<Action>, last: Action, t: Thread)
  {
    && !InCall(s, t) && ThreadOf(first) == Some(t) && Next(s, first).Some?
    && StaysInCall(Next(s, first).value, actions, t)
    && Run(Next(s, first).value, actions).Some?
    && Next(Run(Next(s, first).value, actions).value, last).Some?
    && !InCall(Next(Run(Next(s, first).value, actions).value, last).value, t)
  }

  /** The state from which the call takes its last step. */
  function BeforeLast(s: State, first: Action, actions: seq<Action>): State
    requires Next(s, first).Some? && Run(Next(s, first).value, actions).Some?
  {
    Run(Next(s, first).value, actions).value
  }

  /** What `t` does by itself from the first step of a whole call to its last. */
  function DidInCall(s: State, first: Action, actions: seq<Action>, last: Action, t: Thread): Doings
    requires Next(s, first).Some? && Run(Next(s, first).value, actions).Some?
    requires Next(BeforeLast(s, first, actions), last).Some?
  {
    Then(Then(Did(s, first, t), DidAlong(Next(s, first).value, actions, t)),
         Did(BeforeLast(s, first, actions), last, t))
  }

  // ------------------------------------------------------------- a started bus has an open driver

  /** A started bus has opened its driver; only a close that failed can have spoiled it. */
  ghost predicate StartedOk(sh: Shared) { sh.started ==> sh.status != Closed }

  lemma ControlKeepsStarted(c: ControlPc, choice: Choice, w: WriterPc, sh: Shared)
    requires StartedOk(sh) && DriverOk(c, sh) && QuietOk(c, w, sh) && ControlMove(c, choice, sh).Some?
    ensures StartedOk(ControlMove(c, choice, sh).value.sh)
  {
    hide PhaseOf, Offered, StopRequested;
    if c.ControlIdle? {
    } else if InInit(c) {
      hide CloseGo, TermGo;
    } else if InClose(c) {
      hide InitGo, TermGo;
    } else {
      hide InitGo, CloseGo;
    }
  }

  /** Only control changes the state of the bus and of the driver. */
  lemma OthersKeepStatus(s: State, a: Action)
    requires Next(s, a).Some? && !a.ControlStep?
    ensures var s' := Next(s, a).value;
            && s'.sh.started == s.sh.started && s'.sh.status == s.sh.status
            && s'.sh.initialized == s.sh.initialized && s'.control == s.control
  {
    hide ControlMove, ReaderMove, WriterMove, ClientMove;
    match a
    case ReaderStep(choice) => ReaderMoveFlags(s.reader, choice, s.sh);
    case WriterStep(choice) => WriterMoveFlags(s.writer, choice, s.sh);
    case ClientStep(id, choice) => ClientStaysInFrame(s.clients[id], choice, s.sh);
    case CallbackSees(_) =>
    case CallbackOffers(i) => OfferTouches(s.sh, s.sh.inFlight[i]);
  }

  lemma StartedStep(s: State, a: Action)
    requires Inv(s) && StartedOk(s.sh) && Next(s, a).Some?
    ensures StartedOk(Next(s, a).value.sh)
  {
    hide Exclusive, ThreadsOk, WakeOk, FlowOk, FlushOk, QuietOk, DriverOk, ControlMove;
    if a.ControlStep? {
      ControlKeepsStarted(s.control, a.choice, s.writer, s.sh);
    } else {
      OthersKeepStatus(s, a);
    }
  }

  lemma {:induction false} StartedRun(s: State, actions: seq<Action>)
    requires Inv(s) && StartedOk(s.sh) && Run(s, actions).Some?
    ensures Inv(Run(s, actions).value) && StartedOk(Run(s, actions).value.sh)
    decreases |actions|
  {
    if actions != [] {
      hide Inv, Next, StartedOk;
      StartedStep(s, actions[0]);
      NextInv(s, actions[0]);
      StartedRun(Next(s, actions[0]).value, actions[1..]);
    }
  }

  lemma ReachableIsStarted(clients: set<nat>, before: seq<Action>, s: State)
    requires Reachable(clients, before, s)
    ensures Inv(s) && StartedOk(s.sh)
  {
    hide Inv, Run;
    InitialInv(clients);
    StartedRun(Initial(clients), before);
  }

  /** The reader of a started bus runs, or was created, and nobody asked it to stop. */
  ghost predicate ReaderServes(r: ReaderPc, sh: Shared)
  {
    sh.started ==> sh.readerRun != Stopping && (r.ReaderExited? ==> sh.readerPending)
  }

  lemma ControlKeepsServing(c: ControlPc, choice: Choice, r: ReaderPc, w: WriterPc, sh: Shared)
    requires ReaderServes(r, sh) && InitStageOk(c, r, w, sh) && QuietOk(c, w, sh) && ControlMove(c, choice, sh).Some?
    ensures ReaderServes(r, ControlMove(c, choice, sh).value.sh)
  {
    hide Offered;
    if c.ControlIdle? {
    } else if InInit(c) {
      hide CloseGo, TermGo;
    } else if InClose(c) {
      hide InitGo, TermGo;
    } else {
      hide InitGo, CloseGo;
    }
  }

  lemma ServingStep(s: State, a: Action)
    requires Inv(s) && ReaderServes(s.reader, s.sh) && Next(s, a).Some?
    ensures ReaderServes(Next(s, a).value.reader, Next(s, a).value.sh)
  {
    hide Exclusive, WakeOk, FlowOk, FlushOk, QuietOk, DriverOk, TermStageOk, InitStageOk;
    hide ControlMove, ReaderMove, WriterMove, ClientMove;
    match a
    case ControlStep(choice) => ControlKeepsServing(s.control, choice, s.reader, s.writer, s.sh);
    case ReaderStep(choice) => ReaderMoveFlags(s.reader, choice, s.sh);
    case WriterStep(choice) => WriterMoveFlags(s.writer, choice, s.sh);
    case ClientStep(id, choice) => ClientStaysInFrame(s.clients[id], choice, s.sh);
    case CallbackSees(_) =>
    case CallbackOffers(i) => OfferTouches(s.sh, s.sh.inFlight[i]);
  }

  lemma {:induction false} ServingRun(s: State, actions: seq<Action>)
    requires Inv(s) && ReaderServes(s.reader, s.sh) && Run(s, actions).Some?
    ensures ReaderServes(Run(s, actions).value.reader, Run(s, actions).value.sh)
    decreases |actions|
  {
    if actions != [] {
      hide Inv, Next, ReaderServes;
      ServingStep(s, actions[0]);
      NextInv(s, actions[0]);
      ServingRun(Next(s, actions[0]).value, actions[1..]);
    }
  }

  /** In every run a started bus has both its threads, running or created, and has opened its driver. */
  lemma StartedIsServed(clients: set<nat>, actions: seq<Action>, s: State)
    requires Reachable(clients, actions, s) && s.sh.started
    ensures s.sh.status != Closed && s.sh.readerRun != Stopping && s.sh.writerRun != Stopping
    ensures s.reader.ReaderExited? ==> s.sh.readerPending
    ensures s.writer.WriterExited? ==> s.sh.writerPending
  {
    hide Run;
    ReachableIsStarted(clients, actions, s);
    InitialInv(clients);
    ServingRun(Initial(clients), actions);
    hide Exclusive, ThreadsOk, WakeOk, FlowOk, FlushOk, DriverOk;
  }

  /** While another thread holds rMutex, control neither starts nor stops the bus. */
  ghost predicate Steady(sh: Shared, sh': Shared)
  {
    sh'.started == sh.started && (sh.started ==> sh'.status == sh.status)
  }

  lemma ControlIsSteady(c: ControlPc, choice: Choice, sh: Shared)
    requires StartedOk(sh) && DriverOk(c, sh) && !ControlR(c) && ControlMove(c, choice, sh).Some?
    ensures Steady(sh, ControlMove(c, choice, sh).value.sh)
  {
    hide PhaseOf, Offered, StopRequested;
    if c.ControlIdle? {
    } else if InInit(c) {
      hide CloseGo, TermGo;
    } else if InClose(c) {
      hide InitGo, TermGo;
    } else {
      hide InitGo, CloseGo;
    }
  }

  lemma HeldIsSteady(s: State, a: Action, t: Thread)
    requires Inv(s) && StartedOk(s.sh) && Next(s, a).Some? && HoldsR(s, t) && t != Control
    ensures Steady(s.sh, Next(s, a).value.sh)
  {
    hide ThreadsOk, WakeOk, FlowOk, FlushOk, QuietOk, DriverOk, ControlMove, HoldsR;
    if a.ControlStep? {
      assert HoldsR(s, t) <==> s.r == Some(t);
      assert HoldsR(s, Control) <==> s.r == Some(Control);
      ControlHoldsR(s);
      hide Exclusive;
      ControlIsSteady(s.control, a.choice, s.sh);
    } else {
      hide Exclusive;
      OthersKeepStatus(s, a);
    }
  }

  lemma ControlHoldsR(s: State)
    ensures HoldsR(s, Control) <==> ControlR(s.control)
  {
  }

  // ------------------------------------------------------------- the calls of a client

  /** `n` transmissions of the frame. */
  function Txs(f: Frame, n: nat): seq<NativeCall> { seq(n, _ => Tx(f)) }

  /** The device refused each time. */
  predicate AllRefused(replies: seq<bool>) { forall i | 0 <= i < |replies| :: !replies[i] }

  /** On a started bus with an open driver: one transmission for each attempt made. */
  ghost predicate Attempted(f: Frame, n: nat, sh: Shared, did: Doings)
  {
    && did.outgoing == [] && did.incoming == []
    && if sh.started && sh.status == Opened
       then |did.replies| == n && AllRefused(did.replies) && did.calls == Txs(f, n)
       else did.calls == []
  }

  /** What a send with room for `retry` more attempts does. */
  ghost predicate Sent(f: Frame, retry: nat, sh: Shared, did: Doings)
  {
    && did.outgoing == [] && did.incoming == []
    && if sh.started && sh.status == Opened then
         && 1 <= |did.replies| <= retry + 1 && did.calls == Txs(f, |did.replies|)
         && AllRefused(did.replies[..|did.replies| - 1])
         && (|did.replies| < retry + 1 ==> did.replies[|did.replies| - 1])
       else did.calls == []
  }

  /** What the client asked for, on a bus in the state `sh` at its last step. */
  ghost predicate Meant(ask: Choice, sh: Shared, did: Doings)
  {
    match ask
    case SendAsync(f) =>
      did == NOTHING.(outgoing := if sh.started && |sh.wQueue| < 32 then [Ptr(f)] else [])
    case Send(f, retry) => Sent(f, retry, sh, did)
    case EditAddress(add, a) =>
      && did.outgoing == [] && did.incoming == []
      && did.calls == if sh.status != Opened then [] else if add then [Add(a)] else [Remove(a)]
    case EditListeners => did == NOTHING
    case _ => false
  }

  /** In the middle of a call: where the client may be, and what it has done so far. */
  ghost predicate Underway(ask: Choice, pc: ClientPc, sh: Shared, did: Doings)
  {
    match ask
    case SendAsync(f) => (pc == AsyncW(f) || pc == AsyncTest(f)) && did == NOTHING
    case Send(f, retry) => SendUnderway(f, retry, pc, sh, did)
    case EditAddress(add, a) => (pc == AddressD(add, a) || pc == AddressTest(add, a)) && did == NOTHING
    case EditListeners => (pc == ListR || pc == ListEdit) && did == NOTHING
    case _ => false
  }

  ghost predicate SendUnderway(f: Frame, retry: nat, pc: ClientPc, sh: Shared, did: Doings)
  {
    match pc
    case SendR(g, k) => g == f && k == retry && did == NOTHING
    case SendW(g, k) => g == f && k == retry && did == NOTHING
    case SendTest(g, k) => g == f && k <= retry && Attempted(f, retry - k, sh, did)
    case SendD(g, k) => g == f && k <= retry && Attempted(f, retry - k, sh, did) && sh.started
    case SendTx(g, k) => g == f && k <= retry && Attempted(f, retry - k, sh, did) && sh.started
    case SendUnlock => Sent(f, retry, sh, did)
    case _ => false
  }

  lemma ClientBegins(ask: Choice, sh: Shared)
    requires ClientMove(ClientIdle, ask, sh).Some?
    ensures var m := ClientMove(ClientIdle, ask, sh).value;
            m.sh == sh && !m.pc.ClientIdle? && Underway(ask, m.pc, sh, NOTHING)
  {
  }

  /** One attempt of a send, made in the state `sh`. */
  lemma OneAttempt(f: Frame, retry: nat, k: nat, ok: bool, sh: Shared, did: Doings)
    requires k <= retry && Attempted(f, retry - k, sh, did) && sh.started
    ensures var sh' := WriteRegion(sh, f); var did' := Then(did, Difference(sh, sh', ok));
            && (ok && sh.status == Opened ==> Sent(f, retry, sh', did'))
            && (k == 0 ==> Sent(f, retry, sh', did'))
            && (k > 0 && (!ok || sh.status != Opened) ==> Attempted(f, retry - (k - 1), sh', did'))
  {
    var sh' := WriteRegion(sh, f);
    var did' := Then(did, Difference(sh, sh', ok));
    if sh.status == Opened {
      assert Added(sh.native, sh'.native) == [Tx(f)];
      assert did'.calls == Txs(f, retry - k + 1);
      assert did'.replies == did.replies + [ok];
      assert did'.replies[..|did'.replies| - 1] == did.replies;
    } else {
      NoDifference(sh, ok);
      ThenNothing(did);
    }
  }

  lemma CallBegins(ask: Choice, s: State, id: nat)
    requires !InCall(s, Client(id)) && Next(s, ClientStep(id, ask)).Some?
    ensures var s0 := Next(s, ClientStep(id, ask)).value;
            id in s0.clients && s0.sh == s.sh && Underway(ask, s0.clients[id], s0.sh, NOTHING)
    ensures Did(s, ClientStep(id, ask), Client(id)) == NOTHING
  {
    hide Underway, ClientMove;
    ClientBegins(ask, s.sh);
    NoDifference(s.sh, NativeOk(ClientStep(id, ask)));
  }

  lemma SendGoesOn(f: Frame, retry: nat, pc: ClientPc, ok: bool, sh: Shared, did: Doings)
    requires SendUnderway(f, retry, pc, sh, did) && ClientGo(pc, ok, sh).Some?
    ensures var m := ClientGo(pc, ok, sh).value; var did' := Then(did, Difference(sh, m.sh, ok));
            if m.pc.ClientIdle? then Sent(f, retry, sh, did') else SendUnderway(f, retry, m.pc, m.sh, did')
  {
    hide Sent, Difference, Then, WriteRegion;
    if pc.SendTx? {
      hide Attempted;
      OneAttempt(f, retry, pc.retry, ok, sh, did);
      WriteKeepsFlags(sh, f);
    } else {
      hide PutOutgoing, AddressRegion;
      NoDifference(sh, ok);
      ThenNothing(did);
      AttemptsNothing(f, sh);
      if pc.SendTest? && !sh.started {
        NotStarted(f, retry, pc.retry, sh, did);
      }
    }
  }

  lemma NotStarted(f: Frame, retry: nat, k: nat, sh: Shared, did: Doings)
    requires k <= retry && Attempted(f, retry - k, sh, did) && !sh.started
    ensures Sent(f, retry, sh, did) && forall n :: Attempted(f, n, sh, did)
  {
  }

  lemma WriteKeepsFlags(sh: Shared, f: Frame)
    ensures WriteRegion(sh, f) == sh.(native := WriteRegion(sh, f).native)
  {
  }

  lemma AttemptsNothing(f: Frame, sh: Shared)
    ensures Attempted(f, 0, sh, NOTHING)
  {
    assert Txs(f, 0) == [];
  }

  lemma AsyncGoesOn(f: Frame, pc: ClientPc, ok: bool, sh: Shared)
    requires (pc == AsyncW(f) || pc == AsyncTest(f)) && ClientGo(pc, ok, sh).Some? && |sh.wQueue| <= CAPACITY
    ensures var m := ClientGo(pc, ok, sh).value;
            if m.pc.ClientIdle? then Meant(SendAsync(f), sh, Difference(sh, m.sh, ok))
            else m.pc == AsyncTest(f) && m.sh == sh
  {
    NoDifference(sh, ok);
    if pc.AsyncTest? && sh.started {
      assert Added(sh.wQueue, Offered(sh.wQueue, Ptr(f))) == if |sh.wQueue| < CAPACITY then [Ptr(f)] else [];
    }
  }

  lemma AddressGoesOn(add: bool, a: Byte, pc: ClientPc, ok: bool, sh: Shared)
    requires (pc == AddressD(add, a) || pc == AddressTest(add, a)) && ClientGo(pc, ok, sh).Some?
    ensures var m := ClientGo(pc, ok, sh).value;
            if m.pc.ClientIdle? then Meant(EditAddress(add, a), sh, Difference(sh, m.sh, ok))
            else m.pc == AddressTest(add, a) && m.sh == sh
  {
    NoDifference(sh, ok);
    if pc.AddressTest? && sh.status == Opened {
      assert Added(sh.native, AddressRegion(sh, add, a).native) == [if add then Add(a) else Remove(a)];
    }
  }

  lemma ListGoesOn(pc: ClientPc, ok: bool, sh: Shared)
    requires (pc == ListR || pc == ListEdit) && ClientGo(pc, ok, sh).Some?
    ensures var m := ClientGo(pc, ok, sh).value; m.sh == sh && (m.pc == ListEdit || m.pc.ClientIdle?)
  {
  }

  lemma ClientGoesOn(ask: Choice, pc: ClientPc, choice: Choice, sh: Shared, did: Doings)
    requires Underway(ask, pc, sh, did) && |sh.wQueue| <= CAPACITY && ClientMove(pc, choice, sh).Some?
    ensures var m := ClientMove(pc, choice, sh).value;
            var did' := Then(did, Difference(sh, m.sh, !choice.NativeFails?));
            if m.pc.ClientIdle? then Meant(ask, sh, did') else Underway(ask, m.pc, m.sh, did')
  {
    hide ClientGo, Sent, SendUnderway, Difference, Then;
    var ok := !choice.NativeFails?;
    assert ClientMove(pc, choice, sh) == ClientGo(pc, ok, sh) by { CallsAreBusy(ask, pc, sh, did); }
    var m := ClientGo(pc, ok, sh).value;
    ThenNothing(Difference(sh, m.sh, ok));
    match ask
    case SendAsync(f) =>
      AsyncGoesOn(f, pc, ok, sh);
      NoDifference(sh, ok);
    case Send(f, retry) => SendGoesOn(f, retry, pc, ok, sh, did);
    case EditAddress(add, a) =>
      AddressGoesOn(add, a, pc, ok, sh);
      NoDifference(sh, ok);
    case EditListeners =>
      ListGoesOn(pc, ok, sh);
      NoDifference(sh, ok);
  }

  lemma CallsAreBusy(ask: Choice, pc: ClientPc, sh: Shared, did: Doings)
    requires Underway(ask, pc, sh, did)
    ensures !pc.ClientIdle?
  {
  }

  /** What other threads do in the meantime does not matter to the call. */
  lemma UnderwayIsSteady(ask: Choice, pc: ClientPc, sh: Shared, sh': Shared, did: Doings)
    requires Underway(ask, pc, sh, did) && (ClientR(pc) ==> Steady(sh, sh'))
    ensures Underway(ask, pc, sh', did)
  {
  }

  lemma UnderwayStep(ask: Choice, s: State, a: Action, id: nat, did: Doings)
    requires Inv(s) && StartedOk(s.sh) && Next(s, a).Some?
    requires id in s.clients && Underway(ask, s.clients[id], s.sh, did)
    ensures var s' := Next(s, a).value; var did' := Then(did, Did(s, a, Client(id)));
            && id in s'.clients
            && if s'.clients[id].ClientIdle? then Meant(ask, s.sh, did') && ThreadOf(a) == Some(Client(id))
               else Underway(ask, s'.clients[id], s'.sh, did')
  {
    hide Underway, Meant, Difference, Then, StartedOk, Exclusive, ThreadsOk, DriverOk, WakeOk, QuietOk, FlushOk;
    hide ControlMove, ReaderMove, WriterMove, ClientMove;
    CallsAreBusy(ask, s.clients[id], s.sh, did);
    if ThreadOf(a) == Some(Client(id)) {
      ClientGoesOn(ask, s.clients[id], a.choice, s.sh, did);
    } else {
      ThenNothing(did);
      ClientStaysPut(s, a, id);
      hide Next, Inv;
      if ClientR(s.clients[id]) {
        HeldIsSteady(s, a, Client(id));
      }
      UnderwayIsSteady(ask, s.clients[id], s.sh, Next(s, a).value.sh, did);
    }
  }

  lemma ClientStaysPut(s: State, a: Action, id: nat)
    requires Next(s, a).Some? && id in s.clients && ThreadOf(a) != Some(Client(id))
    ensures id in Next(s, a).value.clients && Next(s, a).value.clients[id] == s.clients[id]
  {
    hide ControlMove, ReaderMove, WriterMove, ClientMove, PutIncoming;
  }

  lemma {:induction false} UnderwayRun(ask: Choice, s: State, actions: seq<Action>, id: nat, did: Doings)
    requires Inv(s) && StartedOk(s.sh) && Run(s, actions).Some? && StaysInCall(s, actions, Client(id))
    requires id in s.clients && Underway(ask, s.clients[id], s.sh, did)
    ensures var s' := Run(s, actions).value;
            && Inv(s') && StartedOk(s'.sh) && id in s'.clients
            && Underway(ask, s'.clients[id], s'.sh, Then(did, DidAlong(s, actions, Client(id))))
    decreases |actions|
  {
    hide Inv, StartedOk, Next, Underway, Then, Did;
    if actions == [] {
      ThenNothing(did);
    } else {
      var s1 := Next(s, actions[0]).value;
      UnderwayStep(ask, s, actions[0], id, did);
      assert InCall(s1, Client(id));
      NextInv(s, actions[0]);
      StartedStep(s, actions[0]);
      UnderwayRun(ask, s1, actions[1..], id, Then(did, Did(s, actions[0], Client(id))));
      ThenThen(did, Did(s, actions[0], Client(id)), DidAlong(s1, actions[1..], Client(id)));
    }
  }

  /**
    * A whole call of a client, in any reachable state and any interleaving, does by itself what it was
    * asked for.  A sendAsync puts its frame at the end of the outgoing queue if the bus is started at
    * the call's last step and fewer than 32 entries are queued, and else does nothing.  A send makes
    * one transmission for each attempt, up to the first that succeeds or retry + 1 in all, if the bus is
    * started and the driver open, and else none.  An address is claimed or released on an open driver.
    */
  lemma ClientCall(clients: set<nat>, before: seq<Action>, s: State, id: nat, ask: Choice,
                   actions: seq<Action>, last: Action)
    requires Reachable(clients, before, s) && WholeCall(s, ClientStep(id, ask), actions, last, Client(id))
    ensures ThreadOf(last) == Some(Client(id))
    ensures Meant(ask, BeforeLast(s, ClientStep(id, ask), actions).sh,
                  DidInCall(s, ClientStep(id, ask), actions, last, Client(id)))
  {
    var first := ClientStep(id, ask);
    var s0 := Next(s, first).value;
    hide Run, Inv, StartedOk, Next, Underway, Meant, Then, Did, Reachable;
    ReachableIsStarted(clients, before, s);
    CallBegins(ask, s, id);
    NextInv(s, first);
    StartedStep(s, first);
    UnderwayRun(ask, s0, actions, id, NOTHING);
    UnderwayStep(ask, BeforeLast(s, first, actions), last, id, Then(NOTHING, DidAlong(s0, actions, Client(id))));
  }

  // ------------------------------------------------------------- the calls of a listener

  /** What the reader has done so far for a listener that sends. */
  ghost predicate Listening(f: Frame, r: ReaderPc, sh: Shared, did: Doings)
  {
    did == NOTHING
    && (r == ListenerW(f) || r == ListenerTest(f) || ((r == ListenerD(f) || r == ListenerTx(f)) && sh.started))
  }

  ghost predicate Told(f: Frame, sh: Shared, did: Doings)
  {
    did.outgoing == [] && did.incoming == [] && did.calls == if sh.started && sh.status == Opened then [Tx(f)] else []
  }

  lemma ListenerBegins(f: Frame, s: State)
    requires Next(s, ReaderStep(ListenerSends(f))).Some?
    ensures var s0 := Next(s, ReaderStep(ListenerSends(f))).value;
            s0.sh == s.sh && Listening(f, s0.reader, s0.sh, NOTHING)
    ensures Did(s, ReaderStep(ListenerSends(f)), Reader) == NOTHING
  {
    NoDifference(s.sh, true);
  }

  lemma ListenerGoesOn(f: Frame, r: ReaderPc, choice: Choice, sh: Shared)
    requires Listening(f, r, sh, NOTHING) && ReaderMove(r, choice, sh).Some?
    ensures var m := ReaderMove(r, choice, sh).value; var did := Difference(sh, m.sh, true);
            if m.pc == Notify then Told(f, sh, did) else Listening(f, m.pc, m.sh, did)
  {
    NoDifference(sh, true);
    if r.ListenerTx? && sh.status == Opened {
      assert Added(sh.native, WriteRegion(sh, f).native) == [Tx(f)];
    }
  }

  lemma ListenerStep(f: Frame, s: State, a: Action)
    requires Inv(s) && StartedOk(s.sh) && Next(s, a).Some? && Listening(f, s.reader, s.sh, NOTHING)
    ensures var s' := Next(s, a).value; var did := Did(s, a, Reader);
            if s'.reader == Notify then Told(f, s.sh, did) && a.ReaderStep? else Listening(f, s'.reader, s'.sh, did)
  {
    hide Difference, StartedOk, Exclusive, ThreadsOk, DriverOk, WakeOk, QuietOk, FlushOk, FlowOk;
    hide ControlMove, ReaderMove, WriterMove, ClientMove;
    if a.ReaderStep? {
      ListenerGoesOn(f, s.reader, a.choice, s.sh);
    } else {
      ReaderStaysPut(s, a);
      hide Next, Inv;
      HeldIsSteady(s, a, Reader);
    }
  }

  lemma ReaderStaysPut(s: State, a: Action)
    requires Next(s, a).Some? && !a.ReaderStep?
    ensures Next(s, a).value.reader == s.reader
  {
    hide ControlMove, ReaderMove, WriterMove, ClientMove, PutIncoming;
  }

  lemma {:induction false} ListenerRun(f: Frame, s: State, actions: seq<Action>)
    requires Inv(s) && StartedOk(s.sh) && Run(s, actions).Some? && StaysInCall(s, actions, Reader)
    requires Listening(f, s.reader, s.sh, NOTHING)
    ensures var s' := Run(s, actions).value;
            Inv(s') && StartedOk(s'.sh) && Listening(f, s'.reader, s'.sh, NOTHING)
    ensures DidAlong(s, actions, Reader) == NOTHING
    decreases |actions|
  {
    if actions != [] {
      var s1 := Next(s, actions[0]).value;
      assert InCall(s1, Reader);
      assert s1.reader != Notify;
      hide Inv, StartedOk, Next, Did, Then;
      ListenerStep(f, s, actions[0]);
      ListeningDidNothing(f, s1.reader, s1.sh, Did(s, actions[0], Reader));
      NextInv(s, actions[0]);
      StartedStep(s, actions[0]);
      ListenerRun(f, s1, actions[1..]);
      ThenNothing(NOTHING);
    }
  }

  lemma ListeningDidNothing(f: Frame, r: ReaderPc, sh: Shared, did: Doings)
    requires Listening(f, r, sh, did)
    ensures did == NOTHING
  {
  }

  lemma ListeningIsInCall(f: Frame, s: State, did: Doings)
    ensures Listening(f, s.reader, s.sh, did) ==> InCall(s, Reader)
  {
  }

  /** A listener that sends on the reader's thread makes one transmission on a started bus with an open driver. */
  lemma ListenerCall(clients: set<nat>, before: seq<Action>, s: State, f: Frame, actions: seq<Action>, last: Action)
    requires Reachable(clients, before, s)
    requires WholeCall(s, ReaderStep(ListenerSends(f)), actions, last, Reader)
    ensures last.ReaderStep?
    ensures Told(f, BeforeLast(s, ReaderStep(ListenerSends(f)), actions).sh,
                 DidInCall(s, ReaderStep(ListenerSends(f)), actions, last, Reader))
  {
    var first := ReaderStep(ListenerSends(f));
    var s0 := Next(s, first).value;
    hide Run, Inv, StartedOk, Next, Then, Did, Reachable, Listening, Told, StaysInCall, DidAlong;
    ReachableIsStarted(clients, before, s);
    ListenerBegins(f, s);
    NextInv(s, first);
    StartedStep(s, first);
    ListenerRun(f, s0, actions);
    ThenNothing(NOTHING);
    var s1 := BeforeLast(s, first, actions);
    ListenerStep(f, s1, last);
    ListeningIsInCall(f, Next(s1, last).value, Did(s1, last, Reader));
    ThenNothing(Did(s1, last, Reader));
  }

  // ------------------------------------------------------------- the calls of control

  /** What init does, begun on a driver in the state `start`. */
  ghost predicate OpenedFrom(start: Status, sh: Shared, did: Doings)
  {
    && did.outgoing == [] && did.incoming == []
    && if start == Closed then did.calls == [Open(true)] && sh.status == Opened
       else did.calls == [] && sh.status == start
  }

  ghost predicate Initializing(start: Status, c: ControlPc, sh: Shared, did: Doings)
  {
    if c.InitD? || c.InitOpen? then did == NOTHING && sh.status == start && !sh.initialized
    else if InInit(c) then OpenedFrom(start, sh, did)
    else (c == Unlock(FinishInit) || c.InitDone?) && OpenedFrom(start, sh, did) && sh.started
  }

  /** Init is over: it opened the driver and started the bus, or the native open failed and nothing changed. */
  ghost predicate Initialized(start: Status, sh: Shared, did: Doings)
  {
    if sh.initialized then OpenedFrom(start, sh, did) && sh.started
    else start == sh.status == Closed && did.calls == [Open(false)] && did.outgoing == [] && did.incoming == []
  }

  lemma OpenGoes(ok: bool, sh: Shared, did: Doings)
    requires sh.status == Closed
    ensures OpenRegion(sh, ok).1 == ok
    ensures var sh' := OpenRegion(sh, ok).0;
            && Difference(sh, sh', ok) == Doings([Open(ok)], [ok], [], [])
            && sh'.status == (if ok then Opened else Closed) && sh'.initialized == sh.initialized
  {
    assert Added(sh.native, OpenRegion(sh, ok).0.native) == [Open(ok)];
  }

  lemma OpenGoesOn(start: Status, ok: bool, sh: Shared, did: Doings)
    requires Initializing(start, InitOpen, sh, did)
    ensures var m := InitGo(InitOpen, ok, sh).value; var did' := Then(did, Difference(sh, m.sh, ok));
            if m.pc.ControlIdle? then Initialized(start, m.sh, did') else Initializing(start, m.pc, m.sh, did')
  {
    NoDifference(sh, ok);
    ThenNothing(did);
    if sh.status == Closed {
      OpenGoes(ok, sh, did);
      hide OpenRegion, Difference;
      ThenNothing(Doings([Open(ok)], [ok], [], []));
    }
  }

  lemma InitWalksOn(start: Status, c: ControlPc, ok: bool, sh: Shared, did: Doings)
    requires Initializing(start, c, sh, did) && InInit(c) && !c.InitOpen? && (c.StartOpen? ==> sh.status != Closed)
    requires InitGo(c, ok, sh).Some?
    ensures var m := InitGo(c, ok, sh).value; var did' := Then(did, Difference(sh, m.sh, ok));
            !m.pc.ControlIdle? && Initializing(start, m.pc, m.sh, did')
  {
    var m := InitGo(c, ok, sh).value;
    assert m.sh.native == sh.native && m.sh.wQueue == sh.wQueue && m.sh.rQueue == sh.rQueue;
    assert Difference(sh, m.sh, ok) == NOTHING;
    ThenNothing(did);
    hide Difference, Then;
  }

  lemma InitEndsOn(start: Status, c: ControlPc, ok: bool, sh: Shared, did: Doings)
    requires Initializing(start, c, sh, did) && !InInit(c) && !c.ControlIdle? && TermGo(c, sh).Some?
    ensures var m := TermGo(c, sh).value; var did' := Then(did, Difference(sh, m.sh, ok));
            if m.pc.ControlIdle? then Initialized(start, m.sh, did') else Initializing(start, m.pc, m.sh, did')
  {
    hide StopRequested, Offered;
    NoDifference(sh, ok);
    ThenNothing(did);
  }

  lemma InitGoesOn(start: Status, c: ControlPc, choice: Choice, sh: Shared, did: Doings)
    requires Initializing(start, c, sh, did) && !c.ControlIdle? && DriverOk(c, sh) && ControlMove(c, choice, sh).Some?
    ensures var m := ControlMove(c, choice, sh).value;
            var did' := Then(did, Difference(sh, m.sh, !choice.NativeFails?));
            if m.pc.ControlIdle? then Initialized(start, m.sh, did') else Initializing(start, m.pc, m.sh, did')
  {
    var ok := !choice.NativeFails?;
    assert !InClose(c);
    assert c.StartOpen? ==> sh.status != Closed;
    hide Difference, Then, InitGo, TermGo, Initializing, Initialized, DriverOk;
    if c.InitOpen? {
      OpenGoesOn(start, ok, sh, did);
    } else if InInit(c) {
      InitWalksOn(start, c, ok, sh, did);
    } else {
      InitEndsOn(start, c, ok, sh, did);
    }
  }

  /** What term does, begun on a driver in the state `start`, if the native close succeeds. */
  ghost predicate ClosedFrom(start: Status, sh: Shared, did: Doings)
  {
    if start == Opened then did.calls == [Close(true)] && sh.status == Closed
    else did.calls == [] && sh.status == start && did.incoming == []
  }

  ghost predicate CloseFailed(start: Status, sh: Shared, did: Doings)
  {
    start == Opened && did.calls == [Close(false)] && sh.status == Closing
  }

  /** Each queue got a sentinel at most. */
  ghost predicate Sentinels(did: Doings) { did.incoming <= [Sentinel] && did.outgoing <= [Sentinel] }

  ghost predicate Terminating(start: Status, c: ControlPc, sh: Shared, did: Doings)
  {
    && sh.initialized && (ReaderAsked(c) || c.StopReader? || c == Unlock(Fail) ==> !sh.started)
    && match c {
         case StopR | StopW | StopClear | StopReader => did == NOTHING && sh.status == start
         case CloseOffer(site) => site == InReaderStop && start == Opened && sh.status == Closing && did == NOTHING
         case CloseNative(site) =>
           && site == InReaderStop && start == Opened && sh.status == Closing
           && did.calls == [] && Sentinels(did) && did.outgoing == []
         case Unlock(after) =>
           Sentinels(did) && (after == FinishTerm || after == Fail)
           && if after == Fail then CloseFailed(start, sh, did) else ClosedFrom(start, sh, did)
         case WaitReader | WriterTest | WriterOffer =>
           ClosedFrom(start, sh, did) && Sentinels(did) && did.outgoing == []
         case WaitWriter | TermDone => ClosedFrom(start, sh, did) && Sentinels(did)
         case CloseD(site) =>
           if site == InReaderStop then did == NOTHING && sh.status == start
           else ClosedFrom(start, sh, did) && Sentinels(did)
         case CloseTest(site) =>
           if site == InReaderStop then did == NOTHING && sh.status == start
           else ClosedFrom(start, sh, did) && Sentinels(did)
         case _ => false
       }
  }

  /** Term is over: it closed the driver and stopped the bus, or the native close failed in between. */
  ghost predicate Terminated(start: Status, sh: Shared, did: Doings)
  {
    !sh.started && Sentinels(did) && if sh.initialized then CloseFailed(start, sh, did) else ClosedFrom(start, sh, did)
  }

  lemma OfferAdds(q: seq<Entry>)
    ensures Added(q, Offered(q, Sentinel)) <= [Sentinel]
  {
    assert Added(q, q) == [];
    assert Added(q, q + [Sentinel]) == [Sentinel];
  }

  lemma CloseGoes(ok: bool, sh: Shared)
    ensures Difference(sh, CloseRegion(sh, ok), ok) == Doings([Close(ok)], [ok], [], [])
  {
    assert Added(sh.native, CloseRegion(sh, ok).native) == [Close(ok)];
  }

  lemma CloseGoesOn(start: Status, c: ControlPc, ok: bool, sh: Shared, did: Doings)
    requires InClose(c) && Terminating(start, c, sh, did) && CloseGo(c, ok, sh).Some?
    ensures var m := CloseGo(c, ok, sh).value;
            !m.pc.ControlIdle? && Terminating(start, m.pc, m.sh, Then(did, Difference(sh, m.sh, ok)))
  {
    NoDifference(sh, ok);
    ThenNothing(did);
    if c.CloseOffer? {
      OfferAdds(sh.rQueue);
      assert CloseGo(c, ok, sh).value.sh == sh.(rQueue := Offered(sh.rQueue, Sentinel));
      hide Offered;
    } else if c.CloseNative? {
      CloseGoes(ok, sh);
      hide Difference;
    }
  }

  lemma WriterIsTold(start: Status, sh: Shared, did: Doings)
    requires Terminating(start, WriterOffer, sh, did)
    ensures var sh' := sh.(wQueue := Offered(sh.wQueue, Sentinel));
            Terminating(start, WaitWriter, sh', Then(did, Difference(sh, sh', true)))
  {
    OfferAdds(sh.wQueue);
    hide Offered;
  }

  lemma TermWalksOn(start: Status, c: ControlPc, sh: Shared, did: Doings)
    requires !c.ControlIdle? && !InInit(c) && !InClose(c) && !c.WriterOffer? && !c.Unlock? && !c.TermDone?
    requires Terminating(start, c, sh, did) && TermGo(c, sh).Some?
    ensures var m := TermGo(c, sh).value;
            && m.sh.native == sh.native && m.sh.wQueue == sh.wQueue && m.sh.rQueue == sh.rQueue
            && !m.pc.ControlIdle? && Terminating(start, m.pc, m.sh, did)
  {
    hide StopRequested;
  }

  lemma TermEndsOn(start: Status, c: ControlPc, sh: Shared, did: Doings)
    requires (c.Unlock? || c.TermDone?) && Terminating(start, c, sh, did) && TermGo(c, sh).Some?
    ensures var m := TermGo(c, sh).value;
            && m.sh.native == sh.native && m.sh.wQueue == sh.wQueue && m.sh.rQueue == sh.rQueue
            && if m.pc.ControlIdle? then Terminated(start, m.sh, did) else Terminating(start, m.pc, m.sh, did)
  {
    hide Sentinels;
  }

  lemma TermGoesOn(start: Status, c: ControlPc, sh: Shared, did: Doings)
    requires !c.ControlIdle? && !InInit(c) && !InClose(c)
    requires Terminating(start, c, sh, did) && TermGo(c, sh).Some?
    ensures var m := TermGo(c, sh).value; var did' := Then(did, Difference(sh, m.sh, true));
            if m.pc.ControlIdle? then Terminated(start, m.sh, did') else Terminating(start, m.pc, m.sh, did')
  {
    hide Terminating, Terminated, Then;
    if c.WriterOffer? {
      WriterIsTold(start, sh, did);
    } else {
      if c.Unlock? || c.TermDone? {
        TermEndsOn(start, c, sh, did);
      } else {
        TermWalksOn(start, c, sh, did);
      }
      hide TermGo;
      SameDifference(sh, TermGo(c, sh).value.sh, true);
      ThenNothing(did);
    }
  }

  /** The two calls of control, as its place shows which. */
  ghost predicate Controlling(ask: Choice, start: Status, c: ControlPc, sh: Shared, did: Doings)
  {
    !c.ControlIdle?
    && if ask.Init? then Initializing(start, c, sh, did) else ask.Term? && Terminating(start, c, sh, did)
  }

  ghost predicate Controlled(ask: Choice, start: Status, sh: Shared, did: Doings)
  {
    if ask.Init? then Initialized(start, sh, did) else ask.Term? && Terminated(start, sh, did)
  }

  lemma ControlBegins(ask: Choice, sh: Shared)
    requires ControlMove(ControlIdle, ask, sh).Some?
    ensures ask.Init? || ask.Term?
    ensures ControlMove(ControlIdle, ask, sh).value.sh == sh
    ensures Controlling(ask, sh.status, ControlMove(ControlIdle, ask, sh).value.pc, sh, NOTHING)
  {
  }

  lemma ControlGoesOn(ask: Choice, start: Status, c: ControlPc, choice: Choice, sh: Shared, did: Doings)
    requires Controlling(ask, start, c, sh, did) && DriverOk(c, sh) && ControlMove(c, choice, sh).Some?
    ensures var m := ControlMove(c, choice, sh).value;
            var did' := Then(did, Difference(sh, m.sh, !choice.NativeFails?));
            if m.pc.ControlIdle? then Controlled(ask, start, m.sh, did') else Controlling(ask, start, m.pc, m.sh, did')
  {
    hide DriverOk, InitGo, CloseGo, TermGo, Difference, Then, Initializing, Initialized, Terminated;
    if ask.Init? {
      hide Terminating, ControlMove;
      InitGoesOn(start, c, choice, sh, did);
    } else {
      TermIsNotInit(start, c, sh, did);
      hide Terminating;
      if InClose(c) {
        CloseGoesOn(start, c, choice.Go?, sh, did);
      } else {
        TermGoesOn(start, c, sh, did);
        SilentTerm(c, sh, choice.Go?);
      }
    }
  }

  lemma TermIsNotInit(start: Status, c: ControlPc, sh: Shared, did: Doings)
    requires Terminating(start, c, sh, did)
    ensures !InInit(c)
  {
  }

  lemma SilentTerm(c: ControlPc, sh: Shared, ok: bool)
    requires !c.ControlIdle? && !InInit(c) && !InClose(c) && TermGo(c, sh).Some?
    ensures Difference(sh, TermGo(c, sh).value.sh, ok) == Difference(sh, TermGo(c, sh).value.sh, true)
  {
    hide Offered, StopRequested;
  }

  lemma ControllingIsSteady(ask: Choice, start: Status, c: ControlPc, sh: Shared, sh': Shared, did: Doings)
    requires Controlling(ask, start, c, sh, did)
    requires sh'.started == sh.started && sh'.status == sh.status && sh'.initialized == sh.initialized
    ensures Controlling(ask, start, c, sh', did)
  {
  }

  lemma ControllingStep(ask: Choice, start: Status, s: State, a: Action, did: Doings)
    requires Inv(s) && Next(s, a).Some? && Controlling(ask, start, s.control, s.sh, did)
    ensures var s' := Next(s, a).value; var did' := Then(did, Did(s, a, Control));
            if s'.control.ControlIdle? then Controlled(ask, start, s'.sh, did') && a.ControlStep?
            else Controlling(ask, start, s'.control, s'.sh, did')
  {
    hide Initializing, Terminating, Controlled, Difference, Then, DriverOk;
    hide Exclusive, ThreadsOk, WakeOk, QuietOk, FlushOk, FlowOk;
    if a.ControlStep? {
      hide ControlMove, Controlling;
      assert s.control.ControlIdle? ==> false by { BusyControl(ask, start, s.control, s.sh, did); }
      ControlGoesOn(ask, start, s.control, a.choice, s.sh, did);
    } else {
      hide Inv, Next;
      OthersKeepStatus(s, a);
      ThenNothing(did);
      ControllingIsSteady(ask, start, s.control, s.sh, Next(s, a).value.sh, did);
    }
  }

  lemma BusyControl(ask: Choice, start: Status, c: ControlPc, sh: Shared, did: Doings)
    requires Controlling(ask, start, c, sh, did)
    ensures !c.ControlIdle?
  {
  }

  lemma {:induction false} ControllingRun(ask: Choice, start: Status, s: State, actions: seq<Action>, did: Doings)
    requires Inv(s) && Run(s, actions).Some? && StaysInCall(s, actions, Control)
    requires Controlling(ask, start, s.control, s.sh, did)
    ensures var s' := Run(s, actions).value;
            Inv(s') && Controlling(ask, start, s'.control, s'.sh, Then(did, DidAlong(s, actions, Control)))
    decreases |actions|
  {
    hide Inv, Next, Controlling, Then, Did;
    if actions == [] {
      ThenNothing(did);
    } else {
      var s1 := Next(s, actions[0]).value;
      assert InCall(s1, Control);
      ControllingStep(ask, start, s, actions[0], did);
      NextInv(s, actions[0]);
      ControllingRun(ask, start, s1, actions[1..], Then(did, Did(s, actions[0], Control)));
      ThenThen(did, Did(s, actions[0], Control), DidAlong(s1, actions[1..], Control));
    }
  }

  /**
    * A whole init or term, in any reachable state and any interleaving.  Init makes one native open if
    * the driver is closed and none else, and starts the bus unless that open fails; then nothing has
    * changed.  Term makes one native close if it finds the driver open and none else, and leaves the
    * bus stopped; if that close fails, `initialized` stays set.
    */
  lemma ControlCall(clients: set<nat>, before: seq<Action>, s: State, ask: Choice, actions: seq<Action>, last: Action)
    requires Reachable(clients, before, s) && WholeCall(s, ControlStep(ask), actions, last, Control)
    ensures last.ControlStep? && (ask.Init? || ask.Term?)
    ensures Controlled(ask, s.sh.status, Next(BeforeLast(s, ControlStep(ask), actions), last).value.sh,
                       DidInCall(s, ControlStep(ask), actions, last, Control))
  {
    var first := ControlStep(ask);
    var s0 := Next(s, first).value;
    ReachableIsStarted(clients, before, s);
    ControlBegins(ask, s.sh);
    assert s0.sh == s.sh && Controlling(ask, s.sh.status, s0.control, s0.sh, NOTHING);
    NoDifference(s.sh, NativeOk(first));
    assert Did(s, first, Control) == NOTHING;
    hide Run, Inv, Next, Controlling, Controlled, Then, Did, Reachable;
    NextInv(s, first);
    ControllingRun(ask, s.sh.status, s0, actions, NOTHING);
    var did := Then(NOTHING, DidAlong(s0, actions, Control));
    ControllingStep(ask, s.sh.status, BeforeLast(s, first, actions), last, did);
  }
}
