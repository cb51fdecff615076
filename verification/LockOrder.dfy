/**
  * The mutexes of the stack, what they guard and the order in which they are taken.  The code of every
  * entry point is written down as the mutexes it takes around one another and the shared data it uses
  * inside them, with its branches and loops left to chance; any number of threads run any of it, step
  * by step.  No state in any run has a cycle of threads that wait for each other's mutexes, and two
  * threads are at the same data, one of them to change it, only where the other peeks without a mutex.
  */
module LockOrder {

  datatype Queue = Incoming | Outgoing

  datatype Lock =
    | Daemon                 // the mutex of CecIARMBusMgr.cpp
    | Library                // LibCCEC
    | ReaderMutex            // Bus::rMutex
    | ConnectionOf(n: nat)   // Connection::mutex
    | WriterMutex            // Bus::wMutex
    | Driver                 // DriverImpl::mutex
    | NativeDriver           // DRIVER_LOCK of the IARM driver, a plain mutex; all others are recursive
    | QueueOf(q: Queue)      // EventQueue::mutex
    | ConditionOf(q: Queue)  // the mutex in the queue's ConditionVariable

  function Rank(l: Lock): nat
  {
    match l
    case Daemon => 0
    case Library => 1
    case ReaderMutex => 2
    case ConnectionOf(_) => 3
    case WriterMutex => 4
    case Driver => 5
    case NativeDriver => 6
    case QueueOf(_) => 6
    case ConditionOf(_) => 7
  }

  const RANKS := 8

  /** What the threads share. */
  datatype Data =
    | DaemonState            // enabled, started, connection and m_connection of CecIARMBusMgr.cpp
    | LibraryFlag            // LibCCEC::initialized
    | BusStarted             // Bus::started
    | BusListeners           // Bus::listeners
    | ListenersOf(n: nat)    // Connection::frameListeners
    | DriverState            // DriverImpl::status
    | Addresses              // DriverImpl::logicalAddresses
    | NativeContext          // driverCtx of the IARM driver
    | Events(q: Queue)       // EventQueue::events
    | Flag(q: Queue)         // the condition's flag

  /** The mutexes that guard the data: a write holds them all, a read at least one. */
  function Guards(x: Data): set<Lock>
  {
    match x
    case DaemonState => {Daemon}
    case LibraryFlag => {Library}
    case BusStarted => {ReaderMutex, WriterMutex}
    case BusListeners => {ReaderMutex}
    case ListenersOf(n) => {ConnectionOf(n)}
    case DriverState => {Driver}
    case Addresses => {Driver}
    case NativeContext => {NativeDriver}
    case Events(q) => {QueueOf(q)}
    case Flag(q) => {ConditionOf(q)}
  }

  /**
    * `Pause` stands for waits that no mutex ends: a condition, a thread's state, a native call.  `Peek`
    * is a read that the source makes without a mutex.
    */
  datatype Code =
    | Skip
    | Pause
    | Read(x: Data)
    | Write(x: Data)
    | Peek(x: Data)
    | Seq(first: Code, next: Code)
    | With(lock: Lock, body: Code)
    | Either(a: Code, b: Code)
    | Repeat(body: Code)

  // ------------------------------------------------------------- the threads

  /** What a thread has still to do: run code, and release the mutexes it holds. */
  datatype Item = Do(code: Code) | Unlock(lock: Lock)

  type Stack = seq<Item>

  function Held(stack: Stack): set<Lock>
  {
    if stack == [] then {} else (if stack[0].Unlock? then {stack[0].lock} else {}) + Held(stack[1..])
  }

  datatype Choice = Go | Left | Right | Start(code: Code)

  predicate Recursive(l: Lock) { l != NativeDriver }

  /** A mutex is free for a thread unless another holds it, or it does and the mutex is not recursive. */
  predicate FreeFor(threads: seq<Stack>, t: nat, l: Lock)
  {
    forall u | 0 <= u < |threads| && (u != t || !Recursive(l)) :: l !in Held(threads[u])
  }

  function Advance(stack: Stack, choice: Choice): Stack
    requires stack != []
  {
    var rest := stack[1..];
    match stack[0]
    case Unlock(_) => rest
    case Do(Skip) => rest
    case Do(Pause) => rest
    case Do(Read(_)) => rest
    case Do(Write(_)) => rest
    case Do(Peek(_)) => rest
    case Do(Seq(a, b)) => [Do(a), Do(b)] + rest
    case Do(With(l, body)) => [Do(body), Unlock(l)] + rest
    case Do(Either(a, b)) => [Do(if choice == Left then a else b)] + rest
    case Do(Repeat(body)) => if choice == Left then [Do(body)] + stack else rest
  }

  /** The mutex a thread is about to take. */
  predicate WantsSome(stack: Stack) { stack != [] && stack[0].Do? && stack[0].code.With? }

  predicate Wants(stack: Stack, l: Lock) { WantsSome(stack) && stack[0].code.lock == l }

  predicate CanStep(threads: seq<Stack>, t: nat, choice: Choice, conns: seq<nat>)
  {
    && t < |threads|
    && if threads[t] == [] then choice.Start? && IsEntry(choice.code, conns)
       else !choice.Start? && (WantsSome(threads[t]) ==> FreeFor(threads, t, threads[t][0].code.lock))
  }

  function Step(threads: seq<Stack>, t: nat, choice: Choice, conns: seq<nat>): seq<Stack>
    requires CanStep(threads, t, choice, conns)
  {
    threads[t := if threads[t] == [] then [Do(choice.code)] else Advance(threads[t], choice)]
  }

  datatype Action = Action(t: nat, choice: Choice)

  ghost predicate Runs(threads: seq<Stack>, actions: seq<Action>, conns: seq<nat>, threads': seq<Stack>)
    decreases |actions|
  {
    if actions == [] then threads' == threads
    else
      CanStep(threads, actions[0].t, actions[0].choice, conns)
      && Runs(Step(threads, actions[0].t, actions[0].choice, conns), actions[1..], conns, threads')
  }

  // ------------------------------------------------------------- code that keeps the order

  predicate Below(held: set<Lock>, rank: nat) { forall h | h in held :: Rank(h) < rank }

  /** A mutex may be taken when it is held already and recursive, or when it is above all that are held. */
  predicate MayTake(l: Lock, held: set<Lock>) { (Recursive(l) && l in held) || Below(held, Rank(l)) }

  predicate Respects(code: Code, held: set<Lock>)
  {
    match code
    case Skip => true
    case Pause => true
    case Read(x) => exists l :: l in Guards(x) && l in held
    case Write(x) => Guards(x) <= held
    case Peek(_) => true
    case Seq(a, b) => Respects(a, held) && Respects(b, held)
    case With(l, body) => MayTake(l, held) && Respects(body, held + {l})
    case Either(a, b) => Respects(a, held) && Respects(b, held)
    case Repeat(body) => Respects(body, held)
  }

  ghost predicate Orderly(stack: Stack)
  {
    stack == []
    || (Orderly(stack[1..])
        && match stack[0]
           case Do(code) => Respects(code, Held(stack[1..]))
           case Unlock(_) => true)
  }

  ghost predicate Inv(threads: seq<Stack>)
  {
    && (forall t | 0 <= t < |threads| :: Orderly(threads[t]))
    && (forall t, u | 0 <= t < |threads| && 0 <= u < |threads| && t != u :: Held(threads[t]) !! Held(threads[u]))
  }

  lemma PushOne(i: Item, rest: Stack)
    ensures ([i] + rest)[1..] == rest && Held([i] + rest) == (if i.Unlock? then {i.lock} else {}) + Held(rest)
    ensures Orderly([i] + rest) <==> Orderly(rest) && (i.Do? ==> Respects(i.code, Held(rest)))
  {
    assert ([i] + rest)[1..] == rest;
  }

  lemma PushTwo(i: Item, j: Item, rest: Stack)
    ensures [i, j] + rest == [i] + ([j] + rest)
  {
  }

  lemma AdvanceIsOrderly(stack: Stack, choice: Choice)
    requires stack != [] && Orderly(stack)
    ensures Orderly(Advance(stack, choice))
    ensures Held(Advance(stack, choice)) <= Held(stack) + if WantsSome(stack) then {stack[0].code.lock} else {}
  {
    hide Orderly, Held;
    var rest := stack[1..];
    assert stack == [stack[0]] + rest;
    PushOne(stack[0], rest);
    match stack[0]
    case Do(Seq(a, b)) =>
      PushTwo(Do(a), Do(b), rest);
      PushOne(Do(b), rest);
      PushOne(Do(a), [Do(b)] + rest);
    case Do(With(l, body)) =>
      PushTwo(Do(body), Unlock(l), rest);
      PushOne(Unlock(l), rest);
      PushOne(Do(body), [Unlock(l)] + rest);
      assert Held(rest) + {l} == {l} + Held(rest);
    case Do(Either(a, b)) => PushOne(Do(if choice == Left then a else b), rest);
    case Do(Repeat(body)) => PushOne(Do(body), stack);
    case _ =>
  }

  lemma StepInv(threads: seq<Stack>, t: nat, choice: Choice, conns: seq<nat>)
    requires Inv(threads) && CanStep(threads, t, choice, conns)
    ensures Inv(Step(threads, t, choice, conns))
  {
    hide Orderly, Held, Respects, IsEntry, Advance;
    var next := Step(threads, t, choice, conns);
    if threads[t] == [] {
      EntriesRespect(choice.code, conns);
      PushOne(Do(choice.code), []);
      assert [Do(choice.code)] + [] == [Do(choice.code)];
      HeldOfNothing();
      assert Orderly(next[t]) && Held(next[t]) == {};
    } else {
      AdvanceIsOrderly(threads[t], choice);
      forall u | 0 <= u < |threads| && u != t
        ensures Held(next[t]) !! Held(threads[u])
      {
        if WantsSome(threads[t]) {
          assert threads[t][0].code.lock !in Held(threads[u]);
        }
      }
    }
  }

  lemma HeldOfNothing()
    ensures Held([]) == {} && Orderly([])
  {
  }

  lemma {:induction false} RunInv(threads: seq<Stack>, actions: seq<Action>, conns: seq<nat>, threads': seq<Stack>)
    requires Inv(threads) && Runs(threads, actions, conns, threads')
    ensures Inv(threads')
    decreases |actions|
  {
    if actions != [] {
      hide Inv, Step, CanStep;
      StepInv(threads, actions[0].t, actions[0].choice, conns);
      RunInv(Step(threads, actions[0].t, actions[0].choice, conns), actions[1..], conns, threads');
    }
  }

  // ------------------------------------------------------------- nobody waits in a circle

  /** Thread `t` needs a mutex that thread `u` holds. */
  predicate WaitsFor(threads: seq<Stack>, t: nat, u: nat, l: Lock)
  {
    t < |threads| && u < |threads| && t != u && Wants(threads[t], l) && l in Held(threads[u])
  }

  /** What a waiting thread wants is above all it holds. */
  lemma WantedIsAbove(threads: seq<Stack>, t: nat, u: nat, l: Lock, h: Lock)
    requires Inv(threads) && WaitsFor(threads, t, u, l) && h in Held(threads[t])
    ensures Rank(h) < Rank(l)
  {
    assert threads[t] == [threads[t][0]] + threads[t][1..];
    PushOne(threads[t][0], threads[t][1..]);
    assert MayTake(l, Held(threads[t][1..]));
    assert Held(threads[t]) !! Held(threads[u]);
  }

  /** No thread ever wants the plain mutex while it holds it itself, so that none waits for itself. */
  lemma PlainMutexTakenOnce(n: nat, actions: seq<Action>, conns: seq<nat>, threads: seq<Stack>, t: nat)
    requires Runs(seq(n, _ => []), actions, conns, threads) && t < |threads|
    ensures Wants(threads[t], NativeDriver) ==> NativeDriver !in Held(threads[t])
  {
    AllIdle(n);
    RunInv(seq(n, _ => []), actions, conns, threads);
    if Wants(threads[t], NativeDriver) {
      assert threads[t] == [threads[t][0]] + threads[t][1..];
      PushOne(threads[t][0], threads[t][1..]);
      assert MayTake(NativeDriver, Held(threads[t][1..]));
    }
  }

  /** A path of waits: thread path[i] wants locks[i], which thread path[i + 1] holds. */
  predicate WaitPath(threads: seq<Stack>, path: seq<nat>, locks: seq<Lock>)
  {
    |path| == |locks| + 1 && forall i: nat | i < |locks| :: WaitsFor(threads, path[i], path[i + 1], locks[i])
  }

  lemma {:induction false} RanksRise(threads: seq<Stack>, path: seq<nat>, locks: seq<Lock>, i: nat, j: nat)
    requires Inv(threads) && WaitPath(threads, path, locks) && i < j < |locks|
    ensures Rank(locks[i]) < Rank(locks[j])
    decreases j - i
  {
    hide Inv;
    WantedIsAbove(threads, path[j], path[j + 1], locks[j], locks[j - 1]) by {
      assert WaitsFor(threads, path[j - 1], path[j], locks[j - 1]);
    }
    if i < j - 1 {
      RanksRise(threads, path, locks, i, j - 1);
    }
  }

  /** From a state where nobody runs, no run reaches a cycle of waits, however long. */
  lemma NoCycleOfWaits(n: nat, actions: seq<Action>, conns: seq<nat>, threads: seq<Stack>,
                       path: seq<nat>, locks: seq<Lock>)
    requires Runs(seq(n, _ => []), actions, conns, threads)
    requires WaitPath(threads, path, locks) && locks != []
    ensures path[0] != path[|path| - 1]
  {
    AllIdle(n);
    RunInv(seq(n, _ => []), actions, conns, threads);
    var k := |locks| - 1;
    assert WaitsFor(threads, path[k], path[k + 1], locks[k]);
    if path[0] == path[k + 1] {
      WantedIsAbove(threads, path[0], path[1], locks[0], locks[k]);
      if k > 0 {
        RanksRise(threads, path, locks, 0, k);
      }
    }
  }

  lemma AllIdle(n: nat)
    ensures Inv(seq(n, _ => []))
  {
    HeldOfNothing();
  }

  /** Whom a thread waits for, in the end, waits for no mutex; and the way there is short. */
  lemma {:induction false} WaitEnds(threads: seq<Stack>, t: nat, u: nat, l: Lock)
      returns (path: seq<nat>, locks: seq<Lock>)
    requires Inv(threads) && WaitsFor(threads, t, u, l)
    ensures WaitPath(threads, path, locks) && locks != [] && path[0] == t && locks[0] == l
    ensures |locks| <= 8 - Rank(l)
    ensures var last := path[|path| - 1];
            last < |threads| && Held(threads[last]) != {} && forall v, m :: !WaitsFor(threads, last, v, m)
    decreases RANKS - Rank(l)
  {
    if v, m :| WaitsFor(threads, u, v, m) {
      WantedIsAbove(threads, u, v, m, l);
      var p, q := WaitEnds(threads, u, v, m);
      path, locks := [t] + p, [l] + q;
      forall i: nat | i < |locks|
        ensures WaitsFor(threads, path[i], path[i + 1], locks[i])
      {
        if i > 0 {
          assert WaitsFor(threads, p[i - 1], p[i], q[i - 1]);
        }
      }
    } else {
      path, locks := [t, u], [l];
    }
  }

  // ------------------------------------------------------------- the code of the stack

  function TestFlag(q: Queue): Code { With(ConditionOf(q), Read(Flag(q))) }
  function SetFlag(q: Queue): Code { With(ConditionOf(q), Write(Flag(q))) }

  function OfferTo(q: Queue): Code
  {
    With(QueueOf(q), Seq(Read(Events(q)), Either(Skip, Seq(Write(Events(q)), Seq(SetFlag(q), SetFlag(q))))))
  }

  function SizeOf(q: Queue): Code { With(QueueOf(q), Read(Events(q))) }

  /** The wait releases the condition's mutex while it sleeps, and takes it again. */
  function WaitFor(q: Queue): Code { Seq(TestFlag(q), Either(Skip, Seq(Pause, With(ConditionOf(q), Skip)))) }

  function TakeFrom(q: Queue): Code
  {
    Seq(Read(Events(q)), Either(Skip, Seq(TestFlag(q), Seq(Write(Events(q)), Either(Skip, SetFlag(q))))))
  }

  function PollFrom(q: Queue): Code
  {
    Seq(WaitFor(q), With(QueueOf(q), Seq(TestFlag(q), Either(Skip, TakeFrom(q)))))
  }

  /** A native call: one that reads the driver's context, or one that changes it. */
  function Native(): Code { With(NativeDriver, Seq(Read(NativeContext), Pause)) }
  function NativeChange(): Code { With(NativeDriver, Seq(Write(NativeContext), Pause)) }

  /** What a driver call does with its mutex: nothing more unless the state allows it. */
  function InState(code: Code): Code { With(Driver, Seq(Read(DriverState), Either(Skip, code))) }

  /** The native open, and the two callbacks it is given. */
  function OpenDevice(): Code
  {
    Seq(NativeChange(), Either(Skip, Seq(NativeChange(), Seq(NativeChange(), Write(DriverState)))))
  }

  function DriverOpen(): Code { InState(OpenDevice()) }

  function CloseDevice(): Code
  {
    Seq(Write(DriverState), Seq(OfferTo(Incoming), Seq(NativeChange(), Either(Skip, Write(DriverState)))))
  }

  function DriverClose(): Code { InState(CloseDevice()) }

  /** Write, and poll. */
  function DriverCall(): Code { InState(Native()) }

  /** A claim calls the device, a release does not. */
  function AddressEdit(): Code { InState(Seq(Either(Native(), Skip), Either(Skip, Write(Addresses)))) }

  /** The library's address calls look at its flag without its mutex. */
  function LibraryAddress(): Code { Seq(Peek(LibraryFlag), Either(Skip, AddressEdit())) }

  /** The flush polls, and so waits, under the driver's mutex. */
  function FlushQueue(): Code { InState(Repeat(Seq(SizeOf(Incoming), PollFrom(Incoming)))) }

  function DriverRead(): Code
  {
    Seq(InState(Skip), Repeat(Seq(PollFrom(Incoming), Either(Skip, FlushQueue()))))
  }

  function BothMutexes(code: Code): Code { With(ReaderMutex, With(WriterMutex, code)) }

  /** What a bus call does: nothing more unless the bus is started. */
  function IfStarted(code: Code): Code { Seq(Read(BusStarted), Either(Skip, code)) }

  function BusStart(): Code { BothMutexes(Seq(DriverOpen(), Either(Skip, Write(BusStarted)))) }

  function ReaderStop(): Code { Seq(With(ReaderMutex, Skip), Seq(DriverClose(), Repeat(Pause))) }

  function WriterStop(): Code { Seq(With(WriterMutex, Either(Skip, OfferTo(Outgoing))), Repeat(Pause)) }

  function BusStop(): Code
  {
    BothMutexes(Seq(Write(BusStarted), Seq(ReaderStop(), Seq(WriterStop(), DriverClose()))))
  }

  function SendNow(): Code { Seq(BothMutexes(IfStarted(DriverCall())), BothMutexes(Skip)) }

  /** A retry calls send again, under the mutexes it takes. */
  function BusSend(): Code
  {
    Seq(BothMutexes(Either(Skip, IfStarted(DriverCall()))),
        BothMutexes(Either(Skip, Repeat(Seq(IfStarted(SendNow()), Pause)))))
  }

  function BusPoll(): Code { BothMutexes(IfStarted(DriverCall())) }

  function BusSendAsync(): Code { With(WriterMutex, IfStarted(OfferTo(Outgoing))) }

  function EditBusListeners(): Code { With(ReaderMutex, IfStarted(Write(BusListeners))) }

  function EditListeners(n: nat): Code { With(ConnectionOf(n), Write(ListenersOf(n))) }

  function ConnectionClose(n: nat): Code { Seq(EditListeners(n), EditBusListeners()) }

  /** The sends of a connection look the source up among the addresses, without the driver's mutex. */
  function ConnectionSend(): Code { Seq(Peek(Addresses), Either(BusSend(), BusSendAsync())) }

  /** What a listener may do on the reader's thread: send in every way, and manage addresses. */
  function Sends(): Code { Either(ConnectionSend(), Either(BusPoll(), LibraryAddress())) }

  function Notify(n: nat): Code { With(ConnectionOf(n), Repeat(Seq(Read(ListenersOf(n)), Sends()))) }

  function NotifyAll(conns: seq<nat>): Code
  {
    if conns == [] then Read(BusListeners)
    else Seq(Read(BusListeners), Seq(Either(Skip, Notify(conns[0])), NotifyAll(conns[1..])))
  }

  function ReaderRun(conns: seq<nat>): Code
  {
    Repeat(Seq(DriverRead(), Either(Skip, With(ReaderMutex, NotifyAll(conns)))))
  }

  function WriterRun(): Code
  {
    Seq(Repeat(Seq(PollFrom(Outgoing), Either(Skip, DriverCall()))),
        Repeat(Seq(SizeOf(Outgoing), PollFrom(Outgoing))))
  }

  /** The receive callback looks at the native context, and at the driver's state, without their mutexes. */
  function Callback(): Code { Seq(Peek(NativeContext), Seq(Peek(DriverState), Either(Skip, OfferTo(Incoming)))) }

  /** What a library call does: nothing more unless the flag allows it. */
  function InLibrary(code: Code): Code { With(Library, Seq(Read(LibraryFlag), Either(Skip, code))) }

  function LibraryInit(): Code { InLibrary(Seq(DriverOpen(), Seq(BusStart(), Write(LibraryFlag)))) }

  function LibraryTerm(): Code { InLibrary(Seq(BusStop(), Seq(DriverClose(), Either(Skip, Write(LibraryFlag))))) }

  function InDaemon(code: Code): Code { With(Daemon, Seq(Read(DaemonState), Either(Skip, code))) }

  function ManagerStart(n: nat): Code
  {
    InDaemon(Seq(LibraryInit(), Seq(EditBusListeners(), Seq(EditListeners(n), Write(DaemonState)))))
  }

  function ManagerStop(n: nat): Code
  {
    var term := Seq(Write(DaemonState), Seq(LibraryTerm(), Either(Skip, Write(DaemonState))));
    InDaemon(Seq(EditListeners(n), Seq(ConnectionClose(n), term)))
  }

  /** The enable event takes the daemon's mutex, and so does _Enable, and so do start and stop. */
  function Enable(n: nat): Code
  {
    With(Daemon, With(Daemon, Seq(Write(DaemonState), Either(ManagerStart(n), ManagerStop(n)))))
  }

  /** _Send looks at the connection without the daemon's mutex. */
  function DaemonSend(): Code { Seq(Peek(DaemonState), Either(Skip, ConnectionSend())) }

  /** Everything a thread of one process runs. */
  predicate IsEntry(code: Code, conns: seq<nat>)
  {
    || code == ReaderRun(conns) || code == WriterRun() || code == Callback() || code == Sends()
    || code == LibraryInit() || code == LibraryTerm() || code == EditBusListeners() || code == DaemonSend()
    || exists n :: n in conns && (code == Enable(n) || code == ConnectionClose(n) || code == EditListeners(n))
  }

  // ------------------------------------------------------------- it keeps the order

  lemma FlagCode(q: Queue, held: set<Lock>)
    requires Below(held, 7)
    ensures Respects(TestFlag(q), held) && Respects(SetFlag(q), held)
  {
    var inside := held + {ConditionOf(q)};
    assert ConditionOf(q) in Guards(Flag(q)) && ConditionOf(q) in inside;
    assert Respects(Read(Flag(q)), inside) && Respects(Write(Flag(q)), inside);
  }

  lemma WaitCode(q: Queue, held: set<Lock>)
    requires Below(held, 7)
    ensures Respects(WaitFor(q), held)
  {
    FlagCode(q, held);
    hide TestFlag;
    assert Respects(With(ConditionOf(q), Skip), held);
    assert Respects(Seq(Pause, With(ConditionOf(q), Skip)), held);
    assert Respects(Either(Skip, Seq(Pause, With(ConditionOf(q), Skip))), held);
  }

  lemma EventsCode(q: Queue, held: set<Lock>)
    requires QueueOf(q) in held
    ensures Respects(Read(Events(q)), held) && Respects(Write(Events(q)), held)
  {
    assert QueueOf(q) in Guards(Events(q));
  }

  lemma TakeCode(q: Queue, held: set<Lock>)
    requires QueueOf(q) in held && Below(held, 7)
    ensures Respects(TakeFrom(q), held)
  {
    EventsCode(q, held);
    FlagCode(q, held);
    hide TestFlag, SetFlag, Guards;
    assert Respects(Either(Skip, SetFlag(q)), held);
    assert Respects(Seq(Write(Events(q)), Either(Skip, SetFlag(q))), held);
    assert Respects(Seq(TestFlag(q), Seq(Write(Events(q)), Either(Skip, SetFlag(q)))), held);
  }

  lemma OfferCode(q: Queue, held: set<Lock>)
    requires QueueOf(q) in held && Below(held, 7)
    ensures Respects(Seq(Read(Events(q)), Either(Skip, Seq(Write(Events(q)), Seq(SetFlag(q), SetFlag(q))))), held)
  {
    EventsCode(q, held);
    FlagCode(q, held);
    hide SetFlag, Guards;
    assert Respects(Seq(SetFlag(q), SetFlag(q)), held);
    assert Respects(Seq(Write(Events(q)), Seq(SetFlag(q), SetFlag(q))), held);
    assert Respects(Either(Skip, Seq(Write(Events(q)), Seq(SetFlag(q), SetFlag(q)))), held);
  }

  lemma PollCode(q: Queue, held: set<Lock>)
    requires Below(held, 6)
    ensures Respects(PollFrom(q), held)
  {
    var inside := held + {QueueOf(q)};
    assert Below(held, 7) && Below(inside, 7);
    WaitCode(q, held);
    FlagCode(q, inside);
    TakeCode(q, inside);
    hide TestFlag, WaitFor, TakeFrom, Guards;
    var region := Seq(TestFlag(q), Either(Skip, TakeFrom(q)));
    assert Respects(Either(Skip, TakeFrom(q)), inside);
    assert Respects(region, inside);
    assert Respects(With(QueueOf(q), region), held);
  }

  lemma QueueCode(q: Queue, held: set<Lock>)
    requires Below(held, 6)
    ensures Respects(OfferTo(q), held) && Respects(SizeOf(q), held) && Respects(PollFrom(q), held)
  {
    var inside := held + {QueueOf(q)};
    assert Below(inside, 7);
    PollCode(q, held);
    hide PollFrom;
    EventsCode(q, inside);
    OfferCode(q, inside);
    hide SetFlag, Guards;
  }

  lemma NativeCode(held: set<Lock>)
    requires Below(held, 6)
    ensures Respects(Native(), held) && Respects(NativeChange(), held)
  {
    var inside := held + {NativeDriver};
    assert NativeDriver in Guards(NativeContext) && NativeDriver in inside;
    assert Respects(Read(NativeContext), inside) && Respects(Write(NativeContext), inside);
    assert Respects(Seq(Read(NativeContext), Pause), inside) && Respects(Seq(Write(NativeContext), Pause), inside);
  }

  lemma StateCode(code: Code, held: set<Lock>)
    requires Below(held, 5) && Respects(code, held + {Driver})
    ensures Respects(InState(code), held)
  {
    var inside := held + {Driver};
    assert Driver in Guards(DriverState) && Driver in inside;
    assert Respects(Read(DriverState), inside) && Respects(Either(Skip, code), inside);
    assert Respects(Seq(Read(DriverState), Either(Skip, code)), inside);
  }

  lemma DeviceCode(held: set<Lock>)
    requires Driver in held && Below(held, 6)
    ensures Respects(OpenDevice(), held) && Respects(CloseDevice(), held)
  {
    NativeCode(held);
    QueueCode(Incoming, held);
    hide NativeChange, OfferTo;
    var native, write := NativeChange(), Write(DriverState);
    assert Respects(write, held);
    hide Guards;
    assert Respects(Seq(native, write), held);
    assert Respects(Seq(native, Seq(native, write)), held);
    assert Respects(Either(Skip, Seq(native, Seq(native, write))), held);
    assert Respects(Either(Skip, write), held);
    assert Respects(Seq(native, Either(Skip, write)), held);
    assert Respects(Seq(OfferTo(Incoming), Seq(native, Either(Skip, write))), held);
  }

  lemma AddressCode(held: set<Lock>)
    requires Below(held, 5)
    ensures Respects(LibraryAddress(), held)
  {
    var inside := held + {Driver};
    assert Below(inside, 6) && Respects(Write(Addresses), inside);
    NativeCode(inside);
    hide Native, InState, Guards;
    var edit := Seq(Either(Native(), Skip), Either(Skip, Write(Addresses)));
    assert Respects(Either(Native(), Skip), inside);
    assert Respects(Either(Skip, Write(Addresses)), inside);
    assert Respects(edit, inside);
    StateCode(edit, held);
    assert Respects(Either(Skip, AddressEdit()), held);
  }

  lemma ReadCode(held: set<Lock>)
    requires Below(held, 5)
    ensures Respects(DriverRead(), held)
  {
    var inside := held + {Driver};
    assert Below(inside, 6) && Below(held, 6);
    QueueCode(Incoming, inside);
    QueueCode(Incoming, held);
    hide SizeOf, PollFrom, OfferTo, InState, Guards;
    StateCode(Skip, held);
    var flush := Repeat(Seq(SizeOf(Incoming), PollFrom(Incoming)));
    assert Respects(Seq(SizeOf(Incoming), PollFrom(Incoming)), inside);
    assert Respects(flush, inside);
    StateCode(flush, held);
    assert Respects(FlushQueue(), held);
    hide FlushQueue;
    assert Respects(Either(Skip, FlushQueue()), held);
    assert Respects(Seq(PollFrom(Incoming), Either(Skip, FlushQueue())), held);
    assert Respects(Repeat(Seq(PollFrom(Incoming), Either(Skip, FlushQueue()))), held);
  }

  lemma DriverCode(held: set<Lock>)
    requires Below(held, 5)
    ensures Respects(DriverOpen(), held) && Respects(DriverClose(), held) && Respects(DriverCall(), held)
  {
    var inside := held + {Driver};
    assert Below(inside, 6) && Driver in inside;
    DeviceCode(inside);
    NativeCode(inside);
    hide Native, OpenDevice, CloseDevice, InState, Guards;
    StateCode(OpenDevice(), held);
    StateCode(CloseDevice(), held);
    StateCode(Native(), held);
  }

  lemma BothCode(code: Code, held: set<Lock>)
    requires MayTake(ReaderMutex, held) && MayTake(WriterMutex, held + {ReaderMutex})
    requires Respects(code, held + {ReaderMutex} + {WriterMutex})
    ensures Respects(BothMutexes(code), held)
  {
    assert Respects(With(WriterMutex, code), held + {ReaderMutex});
  }

  lemma StartedCode(code: Code, held: set<Lock>)
    requires ReaderMutex in held || WriterMutex in held
    requires Respects(code, held)
    ensures Respects(IfStarted(code), held)
  {
    assert ReaderMutex in Guards(BusStarted) && WriterMutex in Guards(BusStarted);
    assert Respects(Read(BusStarted), held) && Respects(Either(Skip, code), held);
  }

  /** One synchronous send, from a client, from a listener, or from a send that retries. */
  lemma SendNowCode(held: set<Lock>)
    requires MayTake(ReaderMutex, held) && MayTake(WriterMutex, held + {ReaderMutex}) && Below(held, 5)
    ensures Respects(BusPoll(), held) && Respects(SendNow(), held)
    ensures Respects(BothMutexes(Either(Skip, IfStarted(DriverCall()))), held)
  {
    hide DriverCall, BothMutexes, IfStarted, Guards;
    var inside := held + {ReaderMutex} + {WriterMutex};
    assert Below(inside, 5);
    DriverCode(inside);
    StartedCode(DriverCall(), inside);
    BothCode(IfStarted(DriverCall()), held);
    assert Respects(Either(Skip, IfStarted(DriverCall())), inside);
    BothCode(Either(Skip, IfStarted(DriverCall())), held);
    BothCode(Skip, held);
  }

  lemma AsyncCode(held: set<Lock>)
    requires MayTake(WriterMutex, held) && Below(held, 5)
    ensures Respects(BusSendAsync(), held)
  {
    hide OfferTo, IfStarted, Guards;
    var inside := held + {WriterMutex};
    assert Below(inside, 6);
    QueueCode(Outgoing, inside);
    StartedCode(OfferTo(Outgoing), inside);
  }

  lemma SendCode(held: set<Lock>)
    requires MayTake(ReaderMutex, held) && Below(held, 4)
    ensures Respects(ConnectionSend(), held) && Respects(Sends(), held)
  {
    hide DriverCall, SendNow, OfferTo, BothMutexes, IfStarted, Guards, BusSendAsync, BusPoll, LibraryAddress;
    var inside := held + {ReaderMutex} + {WriterMutex};
    assert Below(held + {ReaderMutex}, 4) && Below(inside, 5) && Below(held, 5);
    SendNowCode(held);
    SendNowCode(inside) by { assert inside + {ReaderMutex} == inside; }
    AddressCode(held);
    AsyncCode(held);
    StartedCode(SendNow(), inside);
    assert Respects(Seq(IfStarted(SendNow()), Pause), inside);
    assert Respects(Repeat(Seq(IfStarted(SendNow()), Pause)), inside);
    assert Respects(Either(Skip, Repeat(Seq(IfStarted(SendNow()), Pause))), inside);
    BothCode(Either(Skip, Repeat(Seq(IfStarted(SendNow()), Pause))), held);
    assert Respects(BusSend(), held);
    hide BusSend;
    assert Respects(Either(BusSend(), BusSendAsync()), held);
    assert Respects(ConnectionSend(), held);
    hide ConnectionSend;
    assert Respects(Either(BusPoll(), LibraryAddress()), held);
  }

  lemma StopCode(held: set<Lock>)
    requires ReaderMutex in held && WriterMutex in held && Below(held, 5)
    ensures Respects(ReaderStop(), held) && Respects(WriterStop(), held)
  {
    hide DriverClose, OfferTo, Guards;
    DriverCode(held);
    assert held + {WriterMutex} == held && Below(held, 6);
    QueueCode(Outgoing, held);
    assert held + {ReaderMutex} == held && Respects(Pause, held) && Respects(Skip, held);
    assert Respects(Repeat(Pause), held) && Respects(With(ReaderMutex, Skip), held);
    assert Respects(Either(Skip, OfferTo(Outgoing)), held);
    assert Respects(With(WriterMutex, Either(Skip, OfferTo(Outgoing))), held);
    assert Respects(Seq(DriverClose(), Repeat(Pause)), held);
  }

  lemma BusCode(held: set<Lock>)
    requires Below(held, 2)
    ensures Respects(BusStart(), held) && Respects(BusStop(), held) && Respects(EditBusListeners(), held)
  {
    hide DriverOpen, DriverClose, ReaderStop, WriterStop, BothMutexes, IfStarted;
    var r, inside := held + {ReaderMutex}, held + {ReaderMutex} + {WriterMutex};
    assert Below(r, 4) && Below(inside, 5);
    assert Respects(Write(BusStarted), inside) && Respects(Write(BusListeners), r);
    hide Guards;
    DriverCode(inside);
    StopCode(inside);
    assert Respects(Either(Skip, Write(BusStarted)), inside);
    assert Respects(Seq(DriverOpen(), Either(Skip, Write(BusStarted))), inside);
    BothCode(Seq(DriverOpen(), Either(Skip, Write(BusStarted))), held);
    var stop := Seq(ReaderStop(), Seq(WriterStop(), DriverClose()));
    assert Respects(Seq(WriterStop(), DriverClose()), inside);
    assert Respects(stop, inside);
    assert Respects(Seq(Write(BusStarted), stop), inside);
    BothCode(Seq(Write(BusStarted), stop), held);
    StartedCode(Write(BusListeners), r);
  }

  lemma InLibraryCode(code: Code, held: set<Lock>)
    requires Below(held, 1) && Respects(code, held + {Library})
    ensures Respects(InLibrary(code), held)
  {
    var inside := held + {Library};
    assert Library in Guards(LibraryFlag) && Library in inside;
    assert Respects(Read(LibraryFlag), inside) && Respects(Either(Skip, code), inside);
    assert Respects(Seq(Read(LibraryFlag), Either(Skip, code)), inside);
  }

  lemma LibraryCode(held: set<Lock>)
    requires Below(held, 1)
    ensures Respects(LibraryInit(), held) && Respects(LibraryTerm(), held)
  {
    hide DriverOpen, DriverClose, BusStart, BusStop, InLibrary;
    var inside := held + {Library};
    assert Below(inside, 2) && Below(inside, 5);
    assert Respects(Write(LibraryFlag), inside);
    hide Guards;
    BusCode(inside);
    DriverCode(inside);
    var init := Seq(DriverOpen(), Seq(BusStart(), Write(LibraryFlag)));
    assert Respects(Seq(BusStart(), Write(LibraryFlag)), inside);
    assert Respects(init, inside);
    InLibraryCode(init, held);
    var last := Seq(DriverClose(), Either(Skip, Write(LibraryFlag)));
    assert Respects(Either(Skip, Write(LibraryFlag)), inside);
    assert Respects(last, inside);
    assert Respects(Seq(BusStop(), last), inside);
    InLibraryCode(Seq(BusStop(), last), held);
  }

  lemma ConnectionCode(n: nat, held: set<Lock>)
    requires Below(held, 2)
    ensures Respects(EditListeners(n), held) && Respects(ConnectionClose(n), held)
  {
    assert Respects(Write(ListenersOf(n)), held + {ConnectionOf(n)});
    hide Guards, EditBusListeners;
    BusCode(held);
  }

  lemma InDaemonCode(code: Code, held: set<Lock>)
    requires Daemon in held && Respects(code, held)
    ensures Respects(InDaemon(code), held)
  {
    assert held + {Daemon} == held && Daemon in Guards(DaemonState);
    assert Respects(Read(DaemonState), held) && Respects(Either(Skip, code), held);
    assert Respects(Seq(Read(DaemonState), Either(Skip, code)), held);
  }

  lemma ManagerCode(n: nat, held: set<Lock>)
    requires held == {Daemon}
    ensures Respects(ManagerStart(n), held) && Respects(ManagerStop(n), held)
  {
    hide LibraryInit, LibraryTerm, EditListeners, ConnectionClose, EditBusListeners, InDaemon;
    assert Below(held, 1) && Below(held, 2);
    assert Respects(Write(DaemonState), held);
    hide Guards;
    LibraryCode(held);
    BusCode(held);
    ConnectionCode(n, held);
    var write := Write(DaemonState);
    var open := Seq(EditBusListeners(), Seq(EditListeners(n), write));
    assert Respects(Seq(EditListeners(n), write), held);
    assert Respects(open, held);
    assert Respects(Seq(LibraryInit(), open), held);
    InDaemonCode(Seq(LibraryInit(), open), held);
    var term := Seq(write, Seq(LibraryTerm(), Either(Skip, write)));
    assert Respects(Either(Skip, write), held);
    assert Respects(Seq(LibraryTerm(), Either(Skip, write)), held);
    assert Respects(term, held);
    assert Respects(Seq(ConnectionClose(n), term), held);
    assert Respects(Seq(EditListeners(n), Seq(ConnectionClose(n), term)), held);
    InDaemonCode(Seq(EditListeners(n), Seq(ConnectionClose(n), term)), held);
  }

  lemma EnableCode(n: nat)
    ensures Respects(Enable(n), {})
  {
    hide ManagerStart, ManagerStop;
    var held: set<Lock> := {} + {Daemon};
    assert held == {Daemon} && held + {Daemon} == held;
    ManagerCode(n, held);
    assert Respects(Write(DaemonState), held);
    hide Guards;
    assert Respects(Either(ManagerStart(n), ManagerStop(n)), held);
    assert Respects(Seq(Write(DaemonState), Either(ManagerStart(n), ManagerStop(n))), held);
    assert Respects(With(Daemon, Seq(Write(DaemonState), Either(ManagerStart(n), ManagerStop(n)))), held);
  }

  lemma NotifyOneCode(n: nat, held: set<Lock>)
    requires held == {ReaderMutex}
    ensures Respects(Notify(n), held)
  {
    hide Sends;
    var inside := held + {ConnectionOf(n)};
    assert MayTake(ReaderMutex, inside) && Below(inside, 4);
    SendCode(inside);
    assert ConnectionOf(n) in Guards(ListenersOf(n)) && ConnectionOf(n) in inside;
    assert Respects(Read(ListenersOf(n)), inside);
    hide Guards;
    assert Respects(Seq(Read(ListenersOf(n)), Sends()), inside);
    assert Respects(Repeat(Seq(Read(ListenersOf(n)), Sends())), inside);
  }

  /** A listener's sends take rMutex again, under the connection's mutex. */
  lemma {:induction false} NotifyCode(conns: seq<nat>, held: set<Lock>)
    requires held == {ReaderMutex}
    ensures Respects(NotifyAll(conns), held)
    decreases |conns|
  {
    assert ReaderMutex in Guards(BusListeners);
    assert Respects(Read(BusListeners), held);
    hide Guards;
    if conns != [] {
      hide Notify;
      NotifyOneCode(conns[0], held);
      assert Respects(Either(Skip, Notify(conns[0])), held);
      NotifyCode(conns[1..], held);
      assert Respects(Seq(Either(Skip, Notify(conns[0])), NotifyAll(conns[1..])), held);
    }
  }

  lemma ThreadCode(conns: seq<nat>)
    ensures Respects(ReaderRun(conns), {}) && Respects(WriterRun(), {})
  {
    hide DriverRead, NotifyAll, PollFrom, SizeOf, DriverCall, Guards;
    var none: set<Lock> := {};
    DriverCode(none);
    ReadCode(none);
    QueueCode(Outgoing, none);
    assert none + {ReaderMutex} == {ReaderMutex};
    NotifyCode(conns, {ReaderMutex});
    assert Respects(With(ReaderMutex, NotifyAll(conns)), none);
    assert Respects(Either(Skip, With(ReaderMutex, NotifyAll(conns))), none);
    assert Respects(Seq(DriverRead(), Either(Skip, With(ReaderMutex, NotifyAll(conns)))), none);
    assert Respects(Either(Skip, DriverCall()), none);
    assert Respects(Seq(PollFrom(Outgoing), Either(Skip, DriverCall())), none);
    assert Respects(Seq(SizeOf(Outgoing), PollFrom(Outgoing)), none);
    assert Respects(Repeat(Seq(PollFrom(Outgoing), Either(Skip, DriverCall()))), none);
    assert Respects(Repeat(Seq(SizeOf(Outgoing), PollFrom(Outgoing))), none);
  }

  lemma OutsideCode()
    ensures Respects(Callback(), {}) && Respects(DaemonSend(), {})
  {
    hide OfferTo, SizeOf, PollFrom, ConnectionSend, Sends, Guards;
    var none: set<Lock> := {};
    QueueCode(Incoming, none);
    SendCode(none);
    assert Respects(Either(Skip, OfferTo(Incoming)), none);
    assert Respects(Seq(Peek(DriverState), Either(Skip, OfferTo(Incoming))), none);
    assert Respects(Either(Skip, ConnectionSend()), none);
  }

  /** Every entry point keeps the order, from a thread that holds nothing. */
  lemma EntriesRespect(code: Code, conns: seq<nat>)
    requires IsEntry(code, conns)
    ensures Respects(code, {})
  {
    hide Respects, ReaderRun, WriterRun, Callback, Sends, LibraryInit, LibraryTerm, EditBusListeners, Enable;
    hide ConnectionClose, EditListeners, DaemonSend, Guards;
    ThreadCode(conns);
    OutsideCode();
    SendCode({});
    LibraryCode({});
    BusCode({});
    forall n | n in conns
      ensures Respects(Enable(n), {}) && Respects(ConnectionClose(n), {}) && Respects(EditListeners(n), {})
    {
      EnableCode(n);
      ConnectionCode(n, {});
    }
  }
}
