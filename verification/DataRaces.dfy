/**
  * What the threads share: what every entry point of LockOrder uses, that no two threads are ever at
  * the same data, one of them to change it, but where the source looks without a mutex, and that
  * every such race is reached.
  */
module DataRaces {
  import opened LockOrder

  // ------------------------------------------------------------- what the entry points use

  datatype Access = Reads(x: Data) | Writes(x: Data) | Peeks(x: Data)

  predicate Uses(code: Code, a: Access)
  {
    match code
    case Skip => false
    case Pause => false
    case Read(x) => a == Reads(x)
    case Write(x) => a == Writes(x)
    case Peek(x) => a == Peeks(x)
    case Seq(b, c) => Uses(b, a) || Uses(c, a)
    case With(_, body) => Uses(body, a)
    case Either(b, c) => Uses(b, a) || Uses(c, a)
    case Repeat(body) => Uses(body, a)
  }

  predicate OfferUses(q: Queue, a: Access) { a == Reads(Events(q)) || a == Writes(Events(q)) || a == Writes(Flag(q)) }

  predicate PollUses(q: Queue, a: Access) { OfferUses(q, a) || a == Reads(Flag(q)) }

  predicate CallUses(a: Access) { a == Reads(DriverState) || a == Reads(NativeContext) }

  predicate OpenUses(a: Access) { a == Reads(DriverState) || a == Writes(DriverState) || a == Writes(NativeContext) }

  predicate CloseUses(a: Access) { OpenUses(a) || OfferUses(Incoming, a) }

  predicate SendUses(a: Access)
  {
    a == Peeks(Addresses) || a == Reads(BusStarted) || CallUses(a) || OfferUses(Outgoing, a)
  }

  predicate SendsUse(a: Access) { SendUses(a) || a == Peeks(LibraryFlag) || a == Writes(Addresses) }

  /** The definition of Uses, one equation for each kind of code. */
  lemma UsesOf(a: Access)
    ensures !Uses(Skip, a) && !Uses(Pause, a)
    ensures forall x :: Uses(Read(x), a) <==> a == Reads(x)
    ensures forall x :: Uses(Write(x), a) <==> a == Writes(x)
    ensures forall x :: Uses(Peek(x), a) <==> a == Peeks(x)
    ensures forall b, c :: Uses(Seq(b, c), a) <==> Uses(b, a) || Uses(c, a)
    ensures forall b, c :: Uses(Either(b, c), a) <==> Uses(b, a) || Uses(c, a)
    ensures forall l, b :: Uses(With(l, b), a) <==> Uses(b, a)
    ensures forall b :: Uses(Repeat(b), a) <==> Uses(b, a)
  {
  }

  lemma QueueUses(q: Queue, a: Access)
    ensures Uses(OfferTo(q), a) <==> OfferUses(q, a)
    ensures Uses(SizeOf(q), a) <==> a == Reads(Events(q))
    ensures Uses(PollFrom(q), a) <==> PollUses(q, a)
  {
    UsesOf(a);
    hide Uses;
  }

  lemma DeviceUses(a: Access)
    ensures Uses(DriverOpen(), a) <==> OpenUses(a)
    ensures Uses(DriverClose(), a) <==> CloseUses(a)
    ensures Uses(DriverCall(), a) <==> CallUses(a)
    ensures Uses(LibraryAddress(), a) <==> CallUses(a) || a == Peeks(LibraryFlag) || a == Writes(Addresses)
  {
    UsesOf(a);
    QueueUses(Incoming, a);
    hide Uses, OfferTo;
  }

  lemma ReadUses(a: Access)
    ensures Uses(DriverRead(), a) <==> a == Reads(DriverState) || PollUses(Incoming, a)
  {
    UsesOf(a);
    QueueUses(Incoming, a);
    hide Uses, PollFrom, SizeOf;
  }

  lemma BusUses(a: Access)
    ensures Uses(BusPoll(), a) <==> a == Reads(BusStarted) || CallUses(a)
    ensures Uses(BusSend(), a) <==> a == Reads(BusStarted) || CallUses(a)
    ensures Uses(BusSendAsync(), a) <==> a == Reads(BusStarted) || OfferUses(Outgoing, a)
    ensures Uses(EditBusListeners(), a) <==> a == Reads(BusStarted) || a == Writes(BusListeners)
    ensures Uses(BusStart(), a) <==> OpenUses(a) || a == Writes(BusStarted)
    ensures Uses(BusStop(), a) <==> CloseUses(a) || a == Writes(BusStarted) || OfferUses(Outgoing, a)
  {
    UsesOf(a);
    QueueUses(Outgoing, a);
    DeviceUses(a);
    hide Uses, OfferTo, DriverOpen, DriverClose, DriverCall, OfferUses, OpenUses, CloseUses, CallUses;
  }

  /** What each entry point that a client or a listener calls reads, writes and peeks at, and nothing else. */
  lemma ClientsUse(n: nat, a: Access)
    ensures Uses(ConnectionSend(), a) <==> SendUses(a)
    ensures Uses(Sends(), a) <==> SendsUse(a)
    ensures Uses(EditListeners(n), a) <==> a == Writes(ListenersOf(n))
    ensures Uses(ConnectionClose(n), a) <==>
            a == Writes(ListenersOf(n)) || a == Reads(BusStarted) || a == Writes(BusListeners)
    ensures Uses(DaemonSend(), a) <==> a == Peeks(DaemonState) || SendUses(a)
    ensures Uses(Callback(), a) <==> a == Peeks(NativeContext) || a == Peeks(DriverState) || OfferUses(Incoming, a)
  {
    UsesOf(a);
    BusUses(a);
    DeviceUses(a);
    QueueUses(Incoming, a);
    hide Uses, OfferTo, BusSend, BusPoll, BusSendAsync, LibraryAddress, EditBusListeners;
    hide OfferUses, CallUses;
  }

  /** What init, term and the daemon's enable use. */
  lemma ControlUses(n: nat, a: Access)
    ensures Uses(LibraryInit(), a) <==>
            OpenUses(a) || a == Writes(BusStarted) || a == Reads(LibraryFlag) || a == Writes(LibraryFlag)
    ensures Uses(LibraryTerm(), a) <==>
            || CloseUses(a) || OfferUses(Outgoing, a) || a == Writes(BusStarted)
            || a == Reads(LibraryFlag) || a == Writes(LibraryFlag)
    ensures Uses(Enable(n), a) <==>
            || Uses(LibraryInit(), a) || Uses(LibraryTerm(), a) || Uses(ConnectionClose(n), a)
            || a == Reads(DaemonState) || a == Writes(DaemonState)
  {
    UsesOf(a);
    BusUses(a);
    DeviceUses(a);
    hide Uses, DriverOpen, DriverClose, BusStart, BusStop, EditBusListeners, OfferUses, OpenUses, CloseUses;
  }

  /** What the writer's run and the reader's use. */
  lemma {:induction false} ThreadsUse(conns: seq<nat>, a: Access)
    ensures Uses(WriterRun(), a) <==> PollUses(Outgoing, a) || CallUses(a)
    ensures Uses(ReaderRun(conns), a) <==>
            || a == Reads(DriverState) || PollUses(Incoming, a) || a == Reads(BusListeners)
            || (conns != [] && SendsUse(a)) || (a.Reads? && a.x.ListenersOf? && a.x.n in conns)
  {
    UsesOf(a);
    QueueUses(Outgoing, a);
    DeviceUses(a);
    ReadUses(a);
    NotifyUses(conns, a);
    hide Uses, DriverRead, DriverCall, PollFrom, SizeOf, NotifyAll, SendsUse, CallUses;
  }

  lemma NotifyOneUses(n: nat, a: Access)
    ensures Uses(Notify(n), a) <==> a == Reads(ListenersOf(n)) || SendsUse(a)
  {
    UsesOf(a);
    ClientsUse(0, a);
    hide Uses, Sends, SendsUse;
  }

  lemma {:induction false} NotifyUses(conns: seq<nat>, a: Access)
    ensures Uses(NotifyAll(conns), a) <==>
            a == Reads(BusListeners) || (conns != [] && SendsUse(a)) || (a.Reads? && a.x.ListenersOf? && a.x.n in conns)
    decreases |conns|
  {
    UsesOf(a);
    hide Uses, Notify, SendsUse;
    if conns != [] {
      NotifyOneUses(conns[0], a);
      NotifyUses(conns[1..], a);
      assert conns == [conns[0]] + conns[1..];
    }
  }

  // ------------------------------------------------------------- no two threads at the same data

  /** The thread's next step is the access. */
  predicate At(stack: Stack, a: Access)
  {
    stack != [] && stack[0].Do?
    && match a
       case Reads(x) => stack[0].code == Read(x)
       case Writes(x) => stack[0].code == Write(x)
       case Peeks(x) => stack[0].code == Peek(x)
  }

  /** A thread holds what guards the data it is at. */
  lemma AtIsGuarded(stack: Stack, a: Access)
    requires Orderly(stack) && At(stack, a)
    ensures a.Writes? ==> Guards(a.x) <= Held(stack)
    ensures a.Reads? ==> exists l :: l in Guards(a.x) && l in Held(stack)
  {
    assert stack == [stack[0]] + stack[1..];
    PushOne(stack[0], stack[1..]);
  }

  lemma SomeGuard(x: Data) returns (l: Lock)
    ensures l in Guards(x)
  {
    l :| l in Guards(x) by {
      match x
      case DaemonState => assert Daemon in Guards(x);
      case LibraryFlag => assert Library in Guards(x);
      case BusStarted => assert ReaderMutex in Guards(x);
      case BusListeners => assert ReaderMutex in Guards(x);
      case ListenersOf(n) => assert ConnectionOf(n) in Guards(x);
      case DriverState => assert Driver in Guards(x);
      case Addresses => assert Driver in Guards(x);
      case NativeContext => assert NativeDriver in Guards(x);
      case Events(q) => assert QueueOf(q) in Guards(x);
      case Flag(q) => assert ConditionOf(q) in Guards(x);
    }
  }

  /**
    * In every run, if one thread is about to write data that another is about to use, the other is
    * about to peek at it.
    */
  lemma OnlyPeeksRace(n: nat, actions: seq<Action>, conns: seq<nat>, threads: seq<Stack>, t: nat, u: nat, a: Access)
    requires Runs(seq(n, _ => []), actions, conns, threads) && t < |threads| && u < |threads| && t != u
    requires At(threads[t], Writes(a.x)) && At(threads[u], a)
    ensures a.Peeks?
  {
    AllIdle(n);
    RunInv(seq(n, _ => []), actions, conns, threads);
    hide Runs;
    if !a.Peeks? {
      ShareGuard(threads[t], threads[u], a);
    }
  }

  lemma ShareGuard(writer: Stack, other: Stack, a: Access)
    requires Orderly(writer) && Orderly(other) && At(writer, Writes(a.x)) && At(other, a) && !a.Peeks?
    ensures !(Held(writer) !! Held(other))
  {
    AtIsGuarded(writer, Writes(a.x));
    AtIsGuarded(other, a);
    hide Held, Orderly, Guards;
    var l := SomeGuard(a.x);
    if a.Reads? {
      l :| l in Guards(a.x) && l in Held(other);
    }
    assert l in Held(writer) && l in Held(other);
  }

  // ------------------------------------------------------------- which data are peeked at

  predicate Peeked(x: Data)
  {
    x == DaemonState || x == LibraryFlag || x == DriverState || x == Addresses || x == NativeContext
  }

  /** The code peeks at nothing else. */
  ghost predicate PeeksWell(code: Code) { forall x :: Uses(code, Peeks(x)) ==> Peeked(x) }

  ghost predicate StackPeeksWell(stack: Stack)
  {
    forall i | 0 <= i < |stack| && stack[i].Do? :: PeeksWell(stack[i].code)
  }

  lemma EntryPeeks(code: Code, conns: seq<nat>, x: Data)
    requires IsEntry(code, conns) && Uses(code, Peeks(x))
    ensures Peeked(x)
  {
    hide Uses, ReaderRun, WriterRun, Callback, Sends, LibraryInit, LibraryTerm, EditBusListeners, DaemonSend;
    hide Enable, ConnectionClose, EditListeners;
    var a := Peeks(x);
    BusUses(a);
    if n :| n in conns && (code == Enable(n) || code == ConnectionClose(n) || code == EditListeners(n)) {
      ClientsUse(n, a);
      ControlUses(n, a);
    } else {
      ThreadsUse(conns, a);
      ClientsUse(0, a);
      ControlUses(0, a);
    }
  }

  lemma EntriesPeekWell(code: Code, conns: seq<nat>)
    requires IsEntry(code, conns)
    ensures PeeksWell(code)
  {
    hide IsEntry, Uses, Peeked;
    forall x | Uses(code, Peeks(x))
      ensures Peeked(x)
    {
      EntryPeeks(code, conns, x);
    }
  }

  lemma AdvancePeeksWell(stack: Stack, choice: Choice)
    requires stack != [] && StackPeeksWell(stack)
    ensures StackPeeksWell(Advance(stack, choice))
  {
    if stack[0].Do? {
      PartsPeekWell(stack[0].code);
    }
    hide PeeksWell;
  }

  lemma PartsPeekWell(code: Code)
    requires PeeksWell(code)
    ensures PeeksWell(Skip)
    ensures code.Seq? ==> PeeksWell(code.first) && PeeksWell(code.next)
    ensures code.Either? ==> PeeksWell(code.a) && PeeksWell(code.b)
    ensures code.With? || code.Repeat? ==> PeeksWell(code.body)
  {
  }

  lemma {:induction false} RunPeeksWell(threads: seq<Stack>, actions: seq<Action>, conns: seq<nat>,
                                        threads': seq<Stack>)
    requires Runs(threads, actions, conns, threads')
    requires forall t | 0 <= t < |threads| :: StackPeeksWell(threads[t])
    ensures forall t | 0 <= t < |threads'| :: StackPeeksWell(threads'[t])
    decreases |actions|
  {
    if actions != [] {
      var t, choice := actions[0].t, actions[0].choice;
      hide StackPeeksWell, Advance, IsEntry;
      if threads[t] == [] {
        EntriesPeekWell(choice.code, conns);
        OnePeeksWell(choice.code);
      } else {
        AdvancePeeksWell(threads[t], choice);
      }
      RunPeeksWell(Step(threads, t, choice, conns), actions[1..], conns, threads');
    }
  }

  lemma OnePeeksWell(code: Code)
    requires PeeksWell(code)
    ensures StackPeeksWell([Do(code)])
  {
  }

  // ------------------------------------------------------------- every race is reached

  /** Thread `t` alone takes the threads from one state to another. */
  ghost predicate Leads(threads: seq<Stack>, conns: seq<nat>, threads': seq<Stack>)
  {
    exists actions :: Runs(threads, actions, conns, threads')
  }

  lemma Stays(threads: seq<Stack>, conns: seq<nat>)
    ensures Leads(threads, conns, threads)
  {
    assert Runs(threads, [], conns, threads);
  }

  lemma StepThen(threads: seq<Stack>, t: nat, choice: Choice, conns: seq<nat>, threads': seq<Stack>)
    requires CanStep(threads, t, choice, conns) && Leads(Step(threads, t, choice, conns), conns, threads')
    ensures Leads(threads, conns, threads')
  {
    hide Step, CanStep;
    var rest :| Runs(Step(threads, t, choice, conns), rest, conns, threads');
    RunsFirst(threads, Action(t, choice), conns, rest, threads');
  }

  lemma {:induction false} RunsOn(a: seq<Stack>, first: seq<Action>, conns: seq<nat>, b: seq<Stack>,
                                  next: seq<Action>, c: seq<Stack>)
    requires Runs(a, first, conns, b) && Runs(b, next, conns, c)
    ensures Runs(a, first + next, conns, c)
    decreases |first|
  {
    RunsSplit(a, first, conns, b);
    hide *;
    if first == [] {
      assert first + next == next;
    } else {
      RunsOn(Step(a, first[0].t, first[0].choice, conns), first[1..], conns, b, next, c);
      RunsFirst(a, first[0], conns, first[1..] + next, c);
      FirstOfConcat(first, next);
    }
  }

  lemma FirstOfConcat(first: seq<Action>, next: seq<Action>)
    requires first != []
    ensures first + next == [first[0]] + (first[1..] + next)
  {
  }

  lemma RunsSplit(a: seq<Stack>, actions: seq<Action>, conns: seq<nat>, c: seq<Stack>)
    requires Runs(a, actions, conns, c)
    ensures actions == [] ==> c == a
    ensures actions != [] ==> CanStep(a, actions[0].t, actions[0].choice, conns)
    ensures actions != [] ==> Runs(Step(a, actions[0].t, actions[0].choice, conns), actions[1..], conns, c)
  {
  }

  lemma RunsFirst(a: seq<Stack>, action: Action, conns: seq<nat>, rest: seq<Action>, c: seq<Stack>)
    requires CanStep(a, action.t, action.choice, conns)
    requires Runs(Step(a, action.t, action.choice, conns), rest, conns, c)
    ensures Runs(a, [action] + rest, conns, c)
  {
    hide Step, CanStep;
    assert ([action] + rest)[1..] == rest;
  }

  lemma LeadsOn(a: seq<Stack>, b: seq<Stack>, c: seq<Stack>, conns: seq<nat>)
    requires Leads(a, conns, b) && Leads(b, conns, c)
    ensures Leads(a, conns, c)
  {
    hide Runs;
    var first :| Runs(a, first, conns, b);
    var next :| Runs(b, next, conns, c);
    RunsOn(a, first, conns, b, next, c);
  }

  /** No thread but `t` holds anything. */
  ghost predicate Quiet(threads: seq<Stack>, t: nat)
  {
    t < |threads| && forall u | 0 <= u < |threads| && u != t :: Held(threads[u]) == {}
  }

  /** Thread `t` can go from one stack to another, and keeps the order. */
  ghost predicate Moves(threads: seq<Stack>, t: nat, conns: seq<nat>, from: Stack, to: Stack)
  {
    t < |threads| && Leads(threads[t := from], conns, threads[t := to]) && Orderly(to)
  }

  lemma MovesOn(threads: seq<Stack>, t: nat, conns: seq<nat>, a: Stack, b: Stack, c: Stack)
    requires Moves(threads, t, conns, a, b) && Moves(threads, t, conns, b, c)
    ensures Moves(threads, t, conns, a, c)
  {
    hide Leads, Orderly;
    LeadsOn(threads[t := a], threads[t := b], threads[t := c], conns);
  }

  lemma Goes(threads: seq<Stack>, t: nat, choice: Choice, conns: seq<nat>, stack: Stack)
    requires Quiet(threads, t) && Orderly(stack) && stack != [] && !choice.Start?
    ensures Moves(threads, t, conns, stack, Advance(stack, choice))
  {
    AdvanceIsOrderly(stack, choice);
    CanGo(threads, t, choice, conns, stack);
    hide Orderly, Held, Leads, Advance, CanStep, Quiet;
    var from, to := threads[t := stack], threads[t := Advance(stack, choice)];
    assert Step(from, t, choice, conns) == to;
    Stays(to, conns);
    StepThen(from, t, choice, conns, to);
  }

  lemma CanGo(threads: seq<Stack>, t: nat, choice: Choice, conns: seq<nat>, stack: Stack)
    requires Quiet(threads, t) && Orderly(stack) && stack != [] && !choice.Start?
    ensures t < |threads| && CanStep(threads[t := stack], t, choice, conns)
  {
    if WantsSome(stack) {
      MayTakeWanted(stack);
    }
    hide Orderly, Held;
  }

  /** A plain mutex that a thread is about to take it does not hold. */
  lemma MayTakeWanted(stack: Stack)
    requires Orderly(stack) && WantsSome(stack)
    ensures Recursive(stack[0].code.lock) || stack[0].code.lock !in Held(stack)
  {
    assert stack == [stack[0]] + stack[1..];
    PushOne(stack[0], stack[1..]);
    assert MayTake(stack[0].code.lock, Held(stack[1..]));
  }

  lemma StepOf(code: Code, rest: Stack)
    ensures var stack := [Do(code)] + rest;
            && stack[0] == Do(code) && stack[1..] == rest
            && (code.Seq? ==> Advance(stack, Go) == [Do(code.first)] + ([Do(code.next)] + rest))
            && (code.With? ==> Advance(stack, Go) == [Do(code.body)] + ([Unlock(code.lock)] + rest))
            && (code.Either? ==> Advance(stack, Left) == [Do(code.a)] + rest)
            && (code.Either? ==> Advance(stack, Right) == [Do(code.b)] + rest)
            && (code.Repeat? ==> Advance(stack, Left) == [Do(code.body)] + stack)
            && (!code.Seq? && !code.With? && !code.Either? ==> Advance(stack, Go) == rest)
    ensures forall l :: Advance([Unlock(l)] + rest, Go) == rest
  {
    assert ([Do(code)] + rest)[1..] == rest;
    forall l
      ensures Advance([Unlock(l)] + rest, Go) == rest
    {
      assert ([Unlock(l)] + rest)[1..] == rest;
    }
  }

  /** A thread can bring any code to its end while no other holds anything. */
  lemma {:induction false} Finishes(threads: seq<Stack>, t: nat, code: Code, rest: Stack, conns: seq<nat>)
    requires Quiet(threads, t) && Orderly([Do(code)] + rest)
    ensures Moves(threads, t, conns, [Do(code)] + rest, rest)
    decreases code
  {
    StepOf(code, rest);
    hide Quiet, Advance, Leads, Held, Respects;
    var stack := [Do(code)] + rest;
    match code
    case Seq(a, b) =>
      var second := [Do(b)] + rest;
      Goes(threads, t, Go, conns, stack);
      PushOne(Do(a), second);
      Finishes(threads, t, a, second, conns);
      Finishes(threads, t, b, rest, conns);
      MovesOn(threads, t, conns, stack, [Do(a)] + second, second);
      MovesOn(threads, t, conns, stack, second, rest);
    case With(l, body) =>
      var second := [Unlock(l)] + rest;
      Goes(threads, t, Go, conns, stack);
      PushOne(Do(body), second);
      Finishes(threads, t, body, second, conns);
      Goes(threads, t, Go, conns, second);
      MovesOn(threads, t, conns, stack, [Do(body)] + second, second);
      MovesOn(threads, t, conns, stack, second, rest);
    case Either(a, _) =>
      Goes(threads, t, Left, conns, stack);
      Finishes(threads, t, a, rest, conns);
      MovesOn(threads, t, conns, stack, [Do(a)] + rest, rest);
    case _ => Goes(threads, t, Go, conns, stack);
  }

  /** A thread can get to every access in its code while no other holds anything. */
  lemma {:induction false} Arrives(threads: seq<Stack>, t: nat, code: Code, rest: Stack, conns: seq<nat>, a: Access)
      returns (stack: Stack)
    requires Quiet(threads, t) && Orderly([Do(code)] + rest) && Uses(code, a)
    ensures Moves(threads, t, conns, [Do(code)] + rest, stack) && At(stack, a)
    decreases code
  {
    StepOf(code, rest);
    hide Quiet, Advance, Leads, Held, Respects;
    var start := [Do(code)] + rest;
    match code
    case Seq(b, c) =>
      var second := [Do(c)] + rest;
      Goes(threads, t, Go, conns, start);
      PushOne(Do(b), second);
      if Uses(b, a) {
        stack := Arrives(threads, t, b, second, conns, a);
        MovesOn(threads, t, conns, start, [Do(b)] + second, stack);
      } else {
        Finishes(threads, t, b, second, conns);
        stack := Arrives(threads, t, c, rest, conns, a);
        MovesOn(threads, t, conns, start, [Do(b)] + second, second);
        MovesOn(threads, t, conns, start, second, stack);
      }
    case With(l, body) =>
      Goes(threads, t, Go, conns, start);
      stack := Arrives(threads, t, body, [Unlock(l)] + rest, conns, a);
      MovesOn(threads, t, conns, start, [Do(body)] + ([Unlock(l)] + rest), stack);
    case Either(b, c) =>
      var chosen := if Uses(b, a) then b else c;
      Goes(threads, t, if Uses(b, a) then Left else Right, conns, start);
      stack := Arrives(threads, t, chosen, rest, conns, a);
      MovesOn(threads, t, conns, start, [Do(chosen)] + rest, stack);
    case Repeat(body) =>
      Goes(threads, t, Left, conns, start);
      stack := Arrives(threads, t, body, start, conns, a);
      MovesOn(threads, t, conns, start, [Do(body)] + start, stack);
    case _ =>
      stack := start;
      MovesNowhere(threads, t, conns, start);
  }

  lemma MovesNowhere(threads: seq<Stack>, t: nat, conns: seq<nat>, stack: Stack)
    requires Quiet(threads, t) && Orderly(stack)
    ensures Moves(threads, t, conns, stack, stack)
  {
    hide Leads, Orderly;
    Stays(threads[t := stack], conns);
  }

  /** A thread that runs nothing can start any entry point. */
  lemma Starts(threads: seq<Stack>, t: nat, code: Code, conns: seq<nat>)
    requires t < |threads| && IsEntry(code, conns)
    ensures Moves(threads, t, conns, [], [Do(code)])
  {
    hide IsEntry, Leads, Held, Respects;
    EntriesRespect(code, conns);
    HeldOfNothing();
    PushOne(Do(code), []);
    assert [Do(code)] + [] == [Do(code)];
    hide Orderly;
    var from, to := threads[t := []], threads[t := [Do(code)]];
    assert Step(from, t, Start(code), conns) == to;
    Stays(to, conns);
    StepThen(from, t, Start(code), conns, to);
  }

  /** From the start of an entry point to an access in it. */
  lemma Enters(threads: seq<Stack>, t: nat, code: Code, conns: seq<nat>, a: Access) returns (stack: Stack)
    requires Quiet(threads, t) && IsEntry(code, conns) && Uses(code, a)
    ensures Moves(threads, t, conns, [], stack) && At(stack, a)
  {
    hide IsEntry, Uses, At;
    Starts(threads, t, code, conns);
    var begun: Stack := [Do(code)] + [];
    assert begun == [Do(code)] && Orderly(begun);
    stack := Arrives(threads, t, code, [], conns, a);
    MovesOn(threads, t, conns, [], begun, stack);
  }

  /** The entry point in which `x` is peeked at, and the one in which it is written. */
  function Peeker(x: Data): Code
  {
    match x
    case DaemonState => DaemonSend()
    case DriverState => Callback()
    case NativeContext => Callback()
    case _ => Sends()
  }

  function Changer(x: Data, n: nat): Code
  {
    match x
    case DaemonState => Enable(n)
    case Addresses => Sends()
    case _ => LibraryInit()
  }

  lemma ChangerChanges(x: Data, n: nat)
    requires Peeked(x)
    ensures Uses(Changer(x, n), Writes(x))
  {
    hide Uses, Enable, Sends, LibraryInit;
    ControlUses(n, Writes(x));
    ClientsUse(n, Writes(x));
  }

  /** A thread that has got to code that begins with a peek gets to the peek, and holds nothing there. */
  lemma PeekHere(threads: seq<Stack>, x: Data, code: Code, conns: seq<nat>) returns (stack: Stack)
    requires Quiet(threads, 0) && Moves(threads, 0, conns, [], [Do(code)])
    requires code.Seq? && code.first == Peek(x)
    ensures Moves(threads, 0, conns, [], stack) && At(stack, Peeks(x)) && Held(stack) == {}
  {
    stack := [Do(code.first), Do(code.next)];
    hide Leads, Advance;
    Sequences(threads, conns, code);
    MovesOn(threads, 0, conns, [], [Do(code)], stack);
    assert stack[1..][1..] == [];
  }

  /** A thread gets from the start of a listener's sends to the address calls of the library. */
  lemma ToLibrary(threads: seq<Stack>, conns: seq<nat>)
    requires Quiet(threads, 0) && Moves(threads, 0, conns, [], [Do(Sends())])
    ensures Moves(threads, 0, conns, [], [Do(LibraryAddress())])
  {
    hide Orderly, Leads, LibraryAddress, ConnectionSend, BusPoll;
    var second := Either(BusPoll(), LibraryAddress());
    assert Orderly([Do(Sends())]);
    Chooses(threads, conns, Sends(), Right);
    assert Orderly([Do(second)]);
    Chooses(threads, conns, second, Right);
    hide Moves;
    MovesOn(threads, 0, conns, [Do(Sends())], [Do(second)], [Do(LibraryAddress())]);
    MovesOn(threads, 0, conns, [], [Do(Sends())], [Do(LibraryAddress())]);
  }

  lemma ToSend(threads: seq<Stack>, conns: seq<nat>)
    requires Quiet(threads, 0) && Moves(threads, 0, conns, [], [Do(Sends())])
    ensures Moves(threads, 0, conns, [], [Do(ConnectionSend())])
  {
    hide Orderly, Leads, LibraryAddress, ConnectionSend, BusPoll;
    assert Orderly([Do(Sends())]);
    Chooses(threads, conns, Sends(), Left);
    hide Moves;
    MovesOn(threads, 0, conns, [], [Do(Sends())], [Do(ConnectionSend())]);
  }

  lemma SecondPeek(threads: seq<Stack>, conns: seq<nat>)
    requires Quiet(threads, 0) && Moves(threads, 0, conns, [], [Do(Callback())])
    ensures Moves(threads, 0, conns, [], [Do(Callback().next)])
  {
    hide Leads, OfferTo;
    var both, next := [Do(Peek(NativeContext)), Do(Callback().next)], [Do(Callback().next)];
    assert Orderly([Do(Callback())]);
    Sequences(threads, conns, Callback());
    assert Orderly(both);
    Goes(threads, 0, Go, conns, both);
    assert both[1..] == next;
    hide Moves, Orderly;
    MovesOn(threads, 0, conns, [Do(Callback())], both, next);
    MovesOn(threads, 0, conns, [], [Do(Callback())], next);
  }

  /** The choices that take a thread from the start of that entry point to the peek. */
  lemma PeekerPeeks(x: Data, conns: seq<nat>) returns (stack: Stack)
    requires Peeked(x)
    ensures Moves([[], []], 0, conns, [], stack) && At(stack, Peeks(x)) && Held(stack) == {}
  {
    var threads := [[], []];
    Starts(threads, 0, Peeker(x), conns);
    HeldOfNothing();
    hide Orderly, Leads, Held;
    assert Quiet(threads, 0);
    hide Quiet, Moves;
    match x
    case LibraryFlag =>
      ToLibrary(threads, conns);
      stack := PeekHere(threads, x, LibraryAddress(), conns);
    case Addresses =>
      ToSend(threads, conns);
      stack := PeekHere(threads, x, ConnectionSend(), conns);
    case DaemonState => stack := PeekHere(threads, x, DaemonSend(), conns);
    case NativeContext => stack := PeekHere(threads, x, Callback(), conns);
    case DriverState =>
      SecondPeek(threads, conns);
      stack := PeekHere(threads, x, Callback().next, conns);
  }

  lemma Chooses(threads: seq<Stack>, conns: seq<nat>, code: Code, choice: Choice)
    requires Quiet(threads, 0) && code.Either? && Orderly([Do(code)]) && (choice == Left || choice == Right)
    ensures Moves(threads, 0, conns, [Do(code)], [Do(if choice == Left then code.a else code.b)])
  {
    StepOf(code, []);
    assert [Do(code)] + [] == [Do(code)];
    Goes(threads, 0, choice, conns, [Do(code)]);
    assert [Do(if choice == Left then code.a else code.b)] + [] == [Do(if choice == Left then code.a else code.b)];
  }

  lemma Sequences(threads: seq<Stack>, conns: seq<nat>, code: Code)
    requires Quiet(threads, 0) && code.Seq? && Orderly([Do(code)])
    ensures Moves(threads, 0, conns, [Do(code)], [Do(code.first), Do(code.next)])
  {
    StepOf(code, []);
    assert [Do(code)] + [] == [Do(code)];
    Goes(threads, 0, Go, conns, [Do(code)]);
    assert [Do(code.first)] + ([Do(code.next)] + []) == [Do(code.first), Do(code.next)];
  }

  /** Two threads are at the same data, one of them to change it. */
  predicate Conflict(threads: seq<Stack>, t: nat, u: nat, a: Access)
  {
    t < |threads| && u < |threads| && t != u && At(threads[t], Writes(a.x)) && At(threads[u], a)
  }

  /** The run of `n` threads leads to the conflict. */
  ghost predicate RunsInto(n: nat, actions: seq<Action>, conns: seq<nat>, threads: seq<Stack>,
                           t: nat, u: nat, a: Access)
  {
    Runs(seq(n, _ => []), actions, conns, threads) && Conflict(threads, t, u, a)
  }

  /** A run of some threads leads to a conflict over the data. */
  ghost predicate Race(conns: seq<nat>, x: Data)
  {
    exists n: nat, actions, threads, t: nat, u: nat, a :: RunsInto(n, actions, conns, threads, t, u, a) && a.x == x
  }

  lemma RaceIsReached(conns: seq<nat>, x: Data)
    requires conns != [] && Peeked(x)
    ensures Race(conns, x)
  {
    var code := Changer(x, conns[0]);
    assert IsEntry(code, conns);
    hide Runs, Uses, Orderly, Held, IsEntry, Changer, Peeked;
    ChangerChanges(x, conns[0]);
    var peeker := PeekerPeeks(x, conns);
    var start: seq<Stack>, one: seq<Stack> := [[], []], [peeker, []];
    assert start[0 := []] == start && start[0 := peeker] == one && one[1 := []] == one;
    var changer := Enters(one, 1, code, conns, Writes(x));
    hide At, Leads;
    LeadsOn(start, one, one[1 := changer], conns);
    RaceFrom(conns, one[1 := changer], x);
  }

  lemma RaceFrom(conns: seq<nat>, threads: seq<Stack>, x: Data)
    requires Leads([[], []], conns, threads) && |threads| == 2
    requires At(threads[0], Peeks(x)) && At(threads[1], Writes(x))
    ensures Race(conns, x)
  {
    hide Runs, At;
    var start: seq<Stack> := seq(2, _ => []);
    assert start == [[], []];
    var actions :| Runs(start, actions, conns, threads);
    assert RunsInto(2, actions, conns, threads, 1, 0, Peeks(x));
  }

  /**
    * Over every run of any number of threads: two of them can be at the same data, one of them to write
    * it, if and only if it is one of the five that the source looks at without a mutex.
    */
  lemma RacesExactly(conns: seq<nat>, x: Data)
    requires conns != []
    ensures Race(conns, x) <==> Peeked(x)
  {
    if Race(conns, x) {
      var n: nat, actions, threads, t: nat, u: nat, a :|
        RunsInto(n, actions, conns, threads, t, u, a) && a.x == x;
      hide Runs;
      OnlyPeeksRace(n, actions, conns, threads, t, u, a);
      RunPeeksWell(seq(n, _ => []), actions, conns, threads);
      assert StackPeeksWell(threads[u]);
      assert PeeksWell(Peek(x)) && Uses(Peek(x), Peeks(x));
    }
    if Peeked(x) {
      RaceIsReached(conns, x);
    }
  }
}
