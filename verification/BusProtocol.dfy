/**
  * The bus runtime as a machine of interleaved steps: the thread that runs LibCCEC::init and
  * LibCCEC::term, the reader, the writer, any number of client threads, and any number of receive
  * callbacks, over the two bounded queues, the mutexes rMutex, wMutex and the driver's, and the
  * driver's state.  Polls and offers are atomic here; QueueProtocol shows that this is how they
  * look from outside.  A mutex that its holder takes again is not mentioned: it cannot block.
  */
module BusProtocol {
  import opened Bytes
  import opened Osal

  type Frame = seq<Byte>

  /** A queue holds frame pointers; the null pointer is the end-of-stream sentinel. */
  datatype Entry = Sentinel | Ptr(frame: Frame)

  datatype Status = Closed | Closing | Opened

  datatype NativeCall = Open(ok: bool) | Tx(frame: Frame) | Add(address: Byte) | Remove(address: Byte) | Close(ok: bool)

  /** How a frame left the incoming queue. */
  datatype Taken = Delivered(frame: Frame) | Flushed(frame: Frame)

  /** How a frame left the outgoing queue and was deleted. */
  datatype Gone = Written(frame: Frame) | Drained(frame: Frame)

  datatype Thread = Control | Reader | Writer | Client(id: nat)

  /** Which of its three callers runs Driver::close. */
  datatype CloseSite = InReaderStop | InBusStop | InTerm

  /** The letters in the comments are the mutexes held: rMutex, wMutex, the driver's. */
  datatype ControlPc =
    | ControlIdle
    | InitD | InitOpen                       // -, d     LibCCEC::init opens the driver
    | StartR | StartW                        // -, r     Bus::start
    | SpawnReader | SpawnWriter              // r w
    | StartD | StartOpen                     // r w, r w d
    | StartSet                               // r w
    | StopR | StopW                          // -, r     Bus::stop
    | StopClear | StopReader                 // r w
    | CloseD(site: CloseSite)                // r w
    | CloseTest(site: CloseSite)             // r w d
    | CloseOffer(site: CloseSite)            // r w d
    | CloseNative(site: CloseSite)           // r w d
    | WaitReader                             // r w
    | WriterTest | WriterOffer | WaitWriter  // r w
    | Unlock(andThen: After)                 // r w
    | InitDone | TermDone                    // the `initialized` flag of LibCCEC

  datatype After = Fail | FinishInit | FinishTerm

  datatype ReaderPc =
    | ReaderExited
    | ReaderLoop
    | ReadD | ReadTest                       // -, d
    | ReaderPoll
    | NullD | NullTest | Flush               // -, d, d
    | Crashed                                // d        dereferenced the sentinel
    | Have(frame: Frame)
    | Notify                                 // r
    | ListenerW(frame: Frame)                // r        a listener sends
    | ListenerTest(frame: Frame)             // r w
    | ListenerD(frame: Frame)                // r w
    | ListenerTx(frame: Frame)               // r w d
    | ReaderLeaving

  datatype WriterPc =
    | WriterExited
    | WriterPoll
    | WriteD(frame: Frame) | WriteTx(frame: Frame)  // -, d
    | Delete(entry: Entry)
    | WriterLoop
    | Drain
    | DrainDelete(entry: Entry)
    | WriterLeaving

  datatype ClientPc =
    | ClientIdle
    | AsyncW(frame: Frame) | AsyncTest(frame: Frame)       // -, w
    | SendR(frame: Frame, retry: nat)
    | SendW(frame: Frame, retry: nat)                      // r
    | SendTest(frame: Frame, retry: nat)                   // r w
    | SendD(frame: Frame, retry: nat)                      // r w
    | SendTx(frame: Frame, retry: nat)                     // r w d
    | SendUnlock                                           // r w
    | AddressD(add: bool, address: Byte)                   // -        claim or release an address
    | AddressTest(add: bool, address: Byte)                // d
    | ListR | ListEdit                                     // -, r

  datatype Shared = Shared(
    initialized: bool,
    started: bool,
    readerRun: RunState,
    writerRun: RunState,
    readerPending: bool,   // a reader thread was created and has not begun to run
    writerPending: bool,
    status: Status,
    rQueue: seq<Entry>,
    wQueue: seq<Entry>,
    inFlight: seq<Frame>,  // frames of callbacks that saw the driver open and have not offered yet
    native: seq<NativeCall>,
    rPut: seq<Frame>,      // frames the incoming queue accepted, in order
    rGot: seq<Taken>,      // frames read took from it, in order
    wPut: seq<Frame>,      // frames the outgoing queue accepted, in order
    wTried: seq<Frame>,    // frames of Driver::write attempts by the writer, in order
    wSent: seq<Frame>,     // of those, the attempts that found the driver open
    wGone: seq<Gone>)      // frames the writer deleted, in order

  datatype State = State(
    control: ControlPc,
    reader: ReaderPc,
    writer: WriterPc,
    clients: map<nat, ClientPc>,
    r: Option<Thread>,
    w: Option<Thread>,
    d: Option<Thread>,
    sh: Shared)

  /** The constructor of Bus starts both threads at once; they are in their RUNNING state. */
  function Initial(clients: set<nat>): State
  {
    State(ControlIdle, ReaderLoop, WriterPoll, map i | i in clients :: ClientIdle, None, None, None,
          Shared(false, false, Running, Running, false, false, Closed, [], [], [], [], [], [], [], [], [], []))
  }

  datatype Choice =
    | Go
    | Init | Term
    | NativeFails
    | WakeSpuriously
    | ListenerSends(frame: Frame)
    | SendAsync(frame: Frame)
    | Send(frame: Frame, retry: nat)
    | EditAddress(add: bool, address: Byte)
    | EditListeners

  datatype Lock = Keep | Acquire | Release

  datatype Move<P> = Move(pc: P, r: Lock, w: Lock, d: Lock, sh: Shared)

  function Plain<P>(pc: P, sh: Shared): Option<Move<P>> { Some(Move(pc, Keep, Keep, Keep, sh)) }
  function TakeR<P>(pc: P, sh: Shared): Option<Move<P>> { Some(Move(pc, Acquire, Keep, Keep, sh)) }
  function TakeW<P>(pc: P, sh: Shared): Option<Move<P>> { Some(Move(pc, Keep, Acquire, Keep, sh)) }
  function TakeD<P>(pc: P, sh: Shared): Option<Move<P>> { Some(Move(pc, Keep, Keep, Acquire, sh)) }
  function DropR<P>(pc: P, sh: Shared): Option<Move<P>> { Some(Move(pc, Release, Keep, Keep, sh)) }
  function DropW<P>(pc: P, sh: Shared): Option<Move<P>> { Some(Move(pc, Keep, Release, Keep, sh)) }
  function DropD<P>(pc: P, sh: Shared): Option<Move<P>> { Some(Move(pc, Keep, Keep, Release, sh)) }
  function DropRW<P>(pc: P, sh: Shared): Option<Move<P>> { Some(Move(pc, Release, Release, Keep, sh)) }
  function DropWD<P>(pc: P, sh: Shared): Option<Move<P>> { Some(Move(pc, Keep, Release, Release, sh)) }

  // ------------------------------------------------------------- the driver's critical regions

  /** Driver::open under its mutex; false is the IOException. */
  function OpenRegion(sh: Shared, nativeOk: bool): (Shared, bool)
  {
    if sh.status != Closed then (sh, true)
    else if nativeOk then (sh.(status := Opened, native := sh.native + [Open(true)]), true)
    else (sh.(native := sh.native + [Open(false)]), false)
  }

  /** Driver::write under its mutex: the native transmit, unless the state is invalid. */
  function WriteRegion(sh: Shared, frame: Frame): Shared
  {
    if sh.status == Opened then sh.(native := sh.native + [Tx(frame)]) else sh
  }

  /** Driver::addLogicalAddress and removeLogicalAddress under the driver's mutex. */
  function AddressRegion(sh: Shared, add: bool, address: Byte): Shared
  {
    if sh.status == Opened then sh.(native := sh.native + [if add then Add(address) else Remove(address)]) else sh
  }

  /** The end of Driver::close. */
  function CloseRegion(sh: Shared, nativeOk: bool): Shared
  {
    if nativeOk then sh.(status := Closed, native := sh.native + [Close(true)])
    else sh.(native := sh.native + [Close(false)])
  }

  function PutIncoming(sh: Shared, frame: Frame): Shared
  {
    if |sh.rQueue| >= CAPACITY then sh
    else sh.(rQueue := Offered(sh.rQueue, Ptr(frame)), rPut := sh.rPut + [frame])
  }

  function PutOutgoing(sh: Shared, frame: Frame): Shared
  {
    if |sh.wQueue| >= CAPACITY then sh
    else sh.(wQueue := Offered(sh.wQueue, Ptr(frame)), wPut := sh.wPut + [frame])
  }

  // ------------------------------------------------------------- the threads

  function ControlMove(pc: ControlPc, choice: Choice, sh: Shared): Option<Move<ControlPc>>
  {
    match pc
    case ControlIdle =>
      if choice.Init? && !sh.initialized then Plain(InitD, sh)
      // term follows init at a distance: the threads it created have begun to run
      else if choice.Term? && sh.initialized && !sh.readerPending && !sh.writerPending then Plain(StopR, sh)
      else None
    case _ =>
      if choice.NativeFails? || choice.Go? then ControlGo(pc, choice.Go?, sh) else None
  }

  function ControlGo(pc: ControlPc, nativeOk: bool, sh: Shared): Option<Move<ControlPc>>
    requires !pc.ControlIdle?
  {
    if InInit(pc) then InitGo(pc, nativeOk, sh)
    else if InClose(pc) then CloseGo(pc, nativeOk, sh)
    else TermGo(pc, sh)
  }

  predicate InInit(pc: ControlPc)
  {
    pc.InitD? || pc.InitOpen? || pc.StartR? || pc.StartW? || pc.SpawnReader? || pc.SpawnWriter? || pc.StartD?
    || pc.StartOpen? || pc.StartSet?
  }

  predicate InClose(pc: ControlPc)
  {
    pc.CloseD? || pc.CloseTest? || pc.CloseOffer? || pc.CloseNative?
  }

  /** LibCCEC::init and Bus::start. */
  function InitGo(pc: ControlPc, nativeOk: bool, sh: Shared): Option<Move<ControlPc>>
    requires InInit(pc)
  {
    match pc
    case InitD => TakeD(InitOpen, sh)
    case InitOpen =>
      var (sh', ok) := OpenRegion(sh, nativeOk);
      DropD(if ok then StartR else ControlIdle, sh')
    case StartR => TakeR(StartW, sh)
    case StartW => TakeW(SpawnReader, sh)
    case SpawnReader => Plain(SpawnWriter, sh.(readerPending := sh.readerPending || sh.readerRun == Stopped))
    case SpawnWriter => Plain(StartD, sh.(writerPending := sh.writerPending || sh.writerRun == Stopped))
    case StartD => TakeD(StartOpen, sh)
    case StartOpen =>
      var (sh', ok) := OpenRegion(sh, nativeOk);
      DropD(if ok then StartSet else Unlock(Fail), sh')
    case StartSet => Plain(Unlock(FinishInit), sh.(started := true))
  }

  /** Driver::close. */
  function CloseGo(pc: ControlPc, nativeOk: bool, sh: Shared): Option<Move<ControlPc>>
    requires InClose(pc)
  {
    match pc
    case CloseD(site) => TakeD(CloseTest(site), sh)
    case CloseTest(site) =>
      if sh.status == Opened then Plain(CloseOffer(site), sh.(status := Closing))
      else DropD(AfterClose(site), sh)
    case CloseOffer(site) => Plain(CloseNative(site), sh.(rQueue := Offered(sh.rQueue, Sentinel)))
    case CloseNative(site) =>
      var sh' := CloseRegion(sh, nativeOk);
      DropD(if nativeOk then AfterClose(site) else if site == InTerm then ControlIdle else Unlock(Fail), sh')
  }

  /** LibCCEC::term and Bus::stop around the closes, and the ends of init and term. */
  function TermGo(pc: ControlPc, sh: Shared): Option<Move<ControlPc>>
    requires !pc.ControlIdle? && !InInit(pc) && !InClose(pc)
  {
    match pc
    case StopR => TakeR(StopW, sh)
    case StopW => TakeW(StopClear, sh)
    case StopClear => Plain(StopReader, sh.(started := false))
    case StopReader => Plain(CloseD(InReaderStop), sh.(readerRun := StopRequested(sh.readerRun)))
    case WaitReader => if sh.readerRun == Stopped then Plain(WriterTest, sh) else None
    case WriterTest =>
      if sh.writerRun == Running then Plain(WriterOffer, sh.(writerRun := StopRequested(sh.writerRun)))
      else Plain(WaitWriter, sh)
    case WriterOffer => Plain(WaitWriter, sh.(wQueue := Offered(sh.wQueue, Sentinel)))
    case WaitWriter => if sh.writerRun == Stopped then Plain(CloseD(InBusStop), sh) else None
    case Unlock(after) => (
      match after
      case Fail => DropRW(ControlIdle, sh)
      case FinishInit => DropRW(InitDone, sh)
      case FinishTerm => DropRW(CloseD(InTerm), sh))
    case InitDone => Plain(ControlIdle, sh.(initialized := true))
    case TermDone => Plain(ControlIdle, sh.(initialized := false))
  }

  function AfterClose(site: CloseSite): ControlPc
  {
    match site
    case InReaderStop => WaitReader
    case InBusStop => Unlock(FinishTerm)
    case InTerm => TermDone
  }

  function ReaderMove(pc: ReaderPc, choice: Choice, sh: Shared): Option<Move<ReaderPc>>
  {
    match choice
    case Go => ReaderGo(pc, sh)
    case WakeSpuriously => if pc.ReaderPoll? && sh.rQueue == [] then Plain(NullD, sh) else None
    case ListenerSends(frame) => if pc.Notify? then Plain(ListenerW(frame), sh) else None
    case _ => None
  }

  function ReaderGo(pc: ReaderPc, sh: Shared): Option<Move<ReaderPc>>
  {
    match pc
    case ReaderExited =>
      if sh.readerPending then Plain(ReaderLoop, sh.(readerPending := false, readerRun := Running)) else None
    case ReaderLoop => Plain(if sh.readerRun == Running then ReadD else ReaderLeaving, sh)
    case ReadD => TakeD(ReadTest, sh)
    case ReadTest => DropD(if sh.status == Opened then ReaderPoll else ReaderLoop, sh)
    case ReaderPoll => (
      if sh.rQueue == [] then None
      else
        match sh.rQueue[0]
        case Sentinel => Plain(NullD, sh.(rQueue := sh.rQueue[1..]))
        case Ptr(f) => Plain(Have(f), sh.(rQueue := sh.rQueue[1..], rGot := sh.rGot + [Delivered(f)])))
    case NullD => TakeD(NullTest, sh)
    case NullTest => if sh.status == Opened then DropD(ReaderPoll, sh) else Plain(Flush, sh)
    case Flush => (
      if sh.rQueue == [] then DropD(ReaderLoop, sh)
      else
        match sh.rQueue[0]
        case Sentinel => Plain(Crashed, sh.(rQueue := sh.rQueue[1..]))
        case Ptr(f) => Plain(Flush, sh.(rQueue := sh.rQueue[1..], rGot := sh.rGot + [Flushed(f)])))
    case Crashed => None
    case Have(_) => TakeR(Notify, sh)
    case Notify => DropR(ReaderLoop, sh)
    case ListenerW(f) => TakeW(ListenerTest(f), sh)
    case ListenerTest(f) => if sh.started then Plain(ListenerD(f), sh) else DropW(Notify, sh)
    case ListenerD(f) => TakeD(ListenerTx(f), sh)
    case ListenerTx(f) => DropWD(Notify, WriteRegion(sh, f))
    case ReaderLeaving => Plain(ReaderExited, sh.(readerRun := Stopped))
  }

  function WriterMove(pc: WriterPc, choice: Choice, sh: Shared): Option<Move<WriterPc>>
  {
    match choice
    case Go => WriterGo(pc, sh)
    case WakeSpuriously => if pc.WriterPoll? && sh.wQueue == [] then Plain(Delete(Sentinel), sh) else None
    case _ => None
  }

  function WriterGo(pc: WriterPc, sh: Shared): Option<Move<WriterPc>>
  {
    match pc
    case WriterExited =>
      if sh.writerPending then Plain(WriterPoll, sh.(writerPending := false, writerRun := Running)) else None
    case WriterPoll => (
      if sh.wQueue == [] then None
      else
        match sh.wQueue[0]
        case Sentinel => Plain(Delete(Sentinel), sh.(wQueue := sh.wQueue[1..]))
        case Ptr(f) => Plain(WriteD(f), sh.(wQueue := sh.wQueue[1..])))
    case WriteD(f) => TakeD(WriteTx(f), sh)
    case WriteTx(f) => DropD(Delete(Ptr(f)), WriteRegion(sh, f).(wTried := sh.wTried + [f],
                                   wSent := if sh.status == Opened then sh.wSent + [f] else sh.wSent))
    case Delete(entry) =>
      Plain(WriterLoop, if entry.Ptr? then sh.(wGone := sh.wGone + [Written(entry.frame)]) else sh)
    case WriterLoop => Plain(if sh.writerRun == Running then WriterPoll else Drain, sh)
    case Drain =>
      if sh.wQueue == [] then Plain(WriterLeaving, sh)
      else Plain(DrainDelete(sh.wQueue[0]), sh.(wQueue := sh.wQueue[1..]))
    case DrainDelete(entry) =>
      Plain(Drain, if entry.Ptr? then sh.(wGone := sh.wGone + [Drained(entry.frame)]) else sh)
    case WriterLeaving => Plain(WriterExited, sh.(writerRun := Stopped))
  }

  function ClientMove(pc: ClientPc, choice: Choice, sh: Shared): Option<Move<ClientPc>>
  {
    match pc
    case ClientIdle => (
      match choice
      case SendAsync(f) => Plain(AsyncW(f), sh)
      case Send(f, retry) => Plain(SendR(f, retry), sh)
      case EditAddress(add, a) => Plain(AddressD(add, a), sh)
      case EditListeners => Plain(ListR, sh)
      case _ => None)
    case _ =>
      if choice.NativeFails? || choice.Go? then ClientGo(pc, choice.Go?, sh) else None
  }

  function ClientGo(pc: ClientPc, nativeOk: bool, sh: Shared): Option<Move<ClientPc>>
    requires !pc.ClientIdle?
  {
    match pc
    case AsyncW(f) => TakeW(AsyncTest(f), sh)
    case AsyncTest(f) => DropW(ClientIdle, if sh.started then PutOutgoing(sh, f) else sh)
    case SendR(f, retry) => TakeR(SendW(f, retry), sh)
    case SendW(f, retry) => TakeW(SendTest(f, retry), sh)
    case SendTest(f, retry) =>
      if sh.started then Plain(SendD(f, retry), sh)
      else if retry == 0 then Plain(SendUnlock, sh)
      else Plain(SendTest(f, retry - 1), sh)
    case SendD(f, retry) => TakeD(SendTx(f, retry), sh)
    case SendTx(f, retry) =>
      var failed := !nativeOk || sh.status != Opened;
      DropD(if failed && retry > 0 then SendTest(f, retry - 1) else SendUnlock, WriteRegion(sh, f))
    case SendUnlock => DropRW(ClientIdle, sh)
    case AddressD(add, a) => TakeD(AddressTest(add, a), sh)
    case AddressTest(add, a) => DropD(ClientIdle, AddressRegion(sh, add, a))
    case ListR => TakeR(ListEdit, sh)
    case ListEdit => DropR(ClientIdle, sh)
  }

  // ------------------------------------------------------------- the machine

  datatype Action =
    | ControlStep(choice: Choice)
    | ReaderStep(choice: Choice)
    | WriterStep(choice: Choice)
    | ClientStep(id: nat, choice: Choice)
    | CallbackSees(frame: Frame)  // a receive callback reads the status and finds OPENED
    | CallbackOffers(i: nat)      // the callback that carries inFlight[i] offers its frame

  predicate Allowed(lock: Lock, owner: Option<Thread>)
  {
    lock == Acquire ==> owner == None
  }

  function Owner(lock: Lock, owner: Option<Thread>, t: Thread): Option<Thread>
  {
    match lock
    case Keep => owner
    case Acquire => Some(t)
    case Release => None
  }

  predicate MayMove<P>(s: State, m: Move<P>)
  {
    Allowed(m.r, s.r) && Allowed(m.w, s.w) && Allowed(m.d, s.d)
  }

  function Moved<P>(s: State, t: Thread, m: Move<P>): State
  {
    s.(r := Owner(m.r, s.r, t), w := Owner(m.w, s.w, t), d := Owner(m.d, s.d, t), sh := m.sh)
  }

  function Next(s: State, a: Action): Option<State>
  {
    match a
    case ControlStep(choice) => (
      match ControlMove(s.control, choice, s.sh)
      case None => None
      case Some(m) => if MayMove(s, m) then Some(Moved(s, Control, m).(control := m.pc)) else None)
    case ReaderStep(choice) => (
      match ReaderMove(s.reader, choice, s.sh)
      case None => None
      case Some(m) => if MayMove(s, m) then Some(Moved(s, Reader, m).(reader := m.pc)) else None)
    case WriterStep(choice) => (
      match WriterMove(s.writer, choice, s.sh)
      case None => None
      case Some(m) => if MayMove(s, m) then Some(Moved(s, Writer, m).(writer := m.pc)) else None)
    case ClientStep(id, choice) => (
      if id !in s.clients then None
      else
        match ClientMove(s.clients[id], choice, s.sh)
        case None => None
        case Some(m) =>
          if MayMove(s, m) then Some(Moved(s, Client(id), m).(clients := s.clients[id := m.pc])) else None)
    case CallbackSees(f) =>
      if s.sh.status == Opened then Some(s.(sh := s.sh.(inFlight := s.sh.inFlight + [f]))) else None
    case CallbackOffers(i) =>
      if i < |s.sh.inFlight| then
        var sh' := PutIncoming(s.sh, s.sh.inFlight[i]);
        Some(s.(sh := sh'.(inFlight := s.sh.inFlight[..i] + s.sh.inFlight[i + 1..])))
      else None
  }

  function Run(s: State, actions: seq<Action>): Option<State>
    decreases |actions|
  {
    if actions == [] then Some(s)
    else
      match Next(s, actions[0])
      case None => None
      case Some(s') => Run(s', actions[1..])
  }

  // ------------------------------------------------------------- who holds what

  predicate ControlR(pc: ControlPc)
  {
    match pc
    case ControlIdle | InitD | InitOpen | StartR | StopR | InitDone | TermDone => false
    case CloseD(site) => site != InTerm
    case CloseTest(site) => site != InTerm
    case CloseOffer(site) => site != InTerm
    case CloseNative(site) => site != InTerm
    case _ => true
  }

  predicate ControlW(pc: ControlPc)
  {
    match pc
    case ControlIdle | InitD | InitOpen | StartR | StartW | StopR | StopW | InitDone | TermDone => false
    case CloseD(site) => site != InTerm
    case CloseTest(site) => site != InTerm
    case CloseOffer(site) => site != InTerm
    case CloseNative(site) => site != InTerm
    case _ => true
  }

  predicate ControlD(pc: ControlPc)
  {
    pc.InitOpen? || pc.StartOpen? || pc.CloseTest? || pc.CloseOffer? || pc.CloseNative?
  }

  predicate ReaderR(pc: ReaderPc) { pc.Notify? || pc.ListenerW? || pc.ListenerTest? || pc.ListenerD? || pc.ListenerTx? }
  predicate ReaderW(pc: ReaderPc) { pc.ListenerTest? || pc.ListenerD? || pc.ListenerTx? }
  predicate ReaderD(pc: ReaderPc) { pc.ReadTest? || pc.NullTest? || pc.Flush? || pc.Crashed? || pc.ListenerTx? }

  predicate WriterD(pc: WriterPc) { pc.WriteTx? }

  predicate ClientR(pc: ClientPc)
  {
    pc.SendW? || pc.SendTest? || pc.SendD? || pc.SendTx? || pc.SendUnlock? || pc.ListEdit?
  }

  predicate ClientW(pc: ClientPc) { pc.AsyncTest? || pc.SendTest? || pc.SendD? || pc.SendTx? || pc.SendUnlock? }
  predicate ClientD(pc: ClientPc) { pc.SendTx? || pc.AddressTest? }

  predicate HoldsR(s: State, t: Thread)
  {
    match t
    case Control => ControlR(s.control)
    case Reader => ReaderR(s.reader)
    case Writer => false
    case Client(i) => i in s.clients && ClientR(s.clients[i])
  }

  predicate HoldsW(s: State, t: Thread)
  {
    match t
    case Control => ControlW(s.control)
    case Reader => ReaderW(s.reader)
    case Writer => false
    case Client(i) => i in s.clients && ClientW(s.clients[i])
  }

  predicate HoldsD(s: State, t: Thread)
  {
    match t
    case Control => ControlD(s.control)
    case Reader => ReaderD(s.reader)
    case Writer => WriterD(s.writer)
    case Client(i) => i in s.clients && ClientD(s.clients[i])
  }
}
