/**
  * EventQueue as any number of threads run it at once.  Every acquisition of the queue mutex `q`
  * and of the condition variable's own mutex `c` is a step of its own, a wait on the condition
  * gives `c` up and falls asleep in one step, and a sleeper may wake for no reason.
  */
module QueueProtocol {
  import opened Osal

  type Tid = nat

  /** Where a thread is; the letters in the comments are the mutexes it holds there. */
  datatype Pc<+E> =
    | Idle
    // offer
    | OfferLock(e: E)
    | OfferCheck(e: E)          // q
    | SetLock                   // q
    | SetFlag                   // q c
    | NotifyLock                // q
    | Notify                    // q c
    | OfferUnlock               // q
    // poll: cond.wait()
    | WaitLock
    | WaitTest                  // c
    | Asleep
    | Woken
    | WaitUnlock                // c
    // poll: the locked region
    | PollLock
    | TestLock                  // q
    | Test                      // q c
    | EmptyTest                 // q
    | AgainLock                 // q
    | Again                     // q c
    | Take                      // q
    | ResetLock(front: E)       // q
    | Reset(front: E)           // q c
    | PollUnlock(front: E)      // q
    | NothingUnlock             // q   returns a default element
    | GarbageUnlock             // q   would return `front` unassigned
    // size
    | SizeLock
    | SizeRead                  // q

  datatype State<E> = State(
    events: seq<E>,
    flag: bool,
    q: Option<Tid>,
    c: Option<Tid>,
    pcs: map<Tid, Pc<E>>,
    put: seq<E>,     // every element accepted so far, in order
    got: seq<E>)     // every element taken so far, in order

  function Initial<E>(threads: set<Tid>): State<E>
  {
    State([], false, None, None, map t | t in threads :: Idle, [], [])
  }

  datatype Choice<E> = Go | BeginOffer(e: E) | BeginPoll | BeginSize | WakeSpuriously

  datatype Lock = Keep | Acquire | Release
  datatype Edit<E> = Same | Push(e: E) | Pop

  /** What one step does: the next place, the two mutexes, the flag, the queue, the broadcast. */
  datatype Move<E> = Move(pc: Pc<E>, q: Lock, c: Lock, flag: bool, edit: Edit<E>, broadcast: bool)

  function MoveOf<E>(pc: Pc<E>, choice: Choice<E>, events: seq<E>, flag: bool): Option<Move<E>>
  {
    match pc
    case Idle => (
      match choice
      case BeginOffer(e) => Some(Move(OfferLock(e), Keep, Keep, flag, Same, false))
      case BeginPoll => Some(Move(WaitLock, Keep, Keep, flag, Same, false))
      case BeginSize => Some(Move(SizeLock, Keep, Keep, flag, Same, false))
      case _ => None)
    case Asleep => if choice.WakeSpuriously? then Some(Move(Woken, Keep, Keep, flag, Same, false)) else None
    case _ => if choice.Go? then Some(Advance(pc, events, flag)) else None
  }

  function Advance<E>(pc: Pc<E>, events: seq<E>, flag: bool): Move<E>
    requires !pc.Idle? && !pc.Asleep?
  {
    match pc
    case OfferLock(e) => Move(OfferCheck(e), Acquire, Keep, flag, Same, false)
    case OfferCheck(e) =>
      if |events| == CAPACITY then Move(OfferUnlock, Keep, Keep, flag, Same, false)
      else Move(SetLock, Keep, Keep, flag, Push(e), false)
    case SetLock => Move(SetFlag, Keep, Acquire, flag, Same, false)
    case SetFlag => Move(NotifyLock, Keep, Release, true, Same, false)
    case NotifyLock => Move(Notify, Keep, Acquire, flag, Same, false)
    case Notify => Move(OfferUnlock, Keep, Release, true, Same, true)
    case OfferUnlock => Move(Idle, Release, Keep, flag, Same, false)
    case WaitLock => Move(WaitTest, Keep, Acquire, flag, Same, false)
    case WaitTest => Move(if flag then PollLock else Asleep, Keep, Release, flag, Same, false)
    case Woken => Move(WaitUnlock, Keep, Acquire, flag, Same, false)
    case WaitUnlock => Move(PollLock, Keep, Release, flag, Same, false)
    case PollLock => Move(TestLock, Acquire, Keep, flag, Same, false)
    case TestLock => Move(Test, Keep, Acquire, flag, Same, false)
    case Test => Move(if flag then EmptyTest else NothingUnlock, Keep, Release, flag, Same, false)
    case EmptyTest => Move(if events == [] then NothingUnlock else AgainLock, Keep, Keep, flag, Same, false)
    case AgainLock => Move(Again, Keep, Acquire, flag, Same, false)
    case Again => Move(if flag then Take else GarbageUnlock, Keep, Release, flag, Same, false)
    case Take =>
      if events == [] then Move(GarbageUnlock, Keep, Keep, false, Same, false)
      else Move(if |events| == 1 then ResetLock(events[0]) else PollUnlock(events[0]), Keep, Keep, flag, Pop, false)
    case ResetLock(front) => Move(Reset(front), Keep, Acquire, flag, Same, false)
    case Reset(front) => Move(PollUnlock(front), Keep, Release, false, Same, false)
    case PollUnlock(_) => Move(Idle, Release, Keep, flag, Same, false)
    case NothingUnlock => Move(Idle, Release, Keep, flag, Same, false)
    case GarbageUnlock => Move(Idle, Release, Keep, flag, Same, false)
    case SizeLock => Move(SizeRead, Acquire, Keep, flag, Same, false)
    case SizeRead => Move(Idle, Release, Keep, flag, Same, false)
  }

  predicate Allowed(lock: Lock, owner: Option<Tid>)
  {
    lock == Acquire ==> owner == None
  }

  function Owner(lock: Lock, owner: Option<Tid>, t: Tid): Option<Tid>
  {
    match lock
    case Keep => owner
    case Acquire => Some(t)
    case Release => None
  }

  function Edited<E>(edit: Edit<E>, events: seq<E>): seq<E>
  {
    match edit
    case Same => events
    case Push(e) => events + [e]
    case Pop => if events == [] then [] else events[1..]
  }

  /** `pthread_cond_broadcast` */
  function WakeAll<E>(pcs: map<Tid, Pc<E>>): map<Tid, Pc<E>>
  {
    map t | t in pcs :: if pcs[t].Asleep? then Woken else pcs[t]
  }

  function Apply<E>(s: State<E>, t: Tid, m: Move<E>): State<E>
  {
    State(
      Edited(m.edit, s.events),
      m.flag,
      Owner(m.q, s.q, t),
      Owner(m.c, s.c, t),
      (if m.broadcast then WakeAll(s.pcs) else s.pcs)[t := m.pc],
      if m.edit.Push? then s.put + [m.edit.e] else s.put,
      if m.edit.Pop? then s.got + s.events[..Min(1, |s.events|)] else s.got)
  }

  function Min(a: nat, b: nat): nat { if a <= b then a else b }

  /** One step of thread `t`; None when it cannot take that step now. */
  function Next<E>(s: State<E>, t: Tid, choice: Choice<E>): Option<State<E>>
  {
    if t !in s.pcs then None
    else
      match MoveOf(s.pcs[t], choice, s.events, s.flag)
      case None => None
      case Some(m) => if Allowed(m.q, s.q) && Allowed(m.c, s.c) then Some(Apply(s, t, m)) else None
  }

  predicate HoldsQ<E>(pc: Pc<E>)
  {
    pc.OfferCheck? || pc.SetLock? || pc.SetFlag? || pc.NotifyLock? || pc.Notify? || pc.OfferUnlock?
    || pc.TestLock? || pc.Test? || pc.EmptyTest? || pc.AgainLock? || pc.Again? || pc.Take?
    || pc.ResetLock? || pc.Reset? || pc.PollUnlock? || pc.NothingUnlock? || pc.GarbageUnlock? || pc.SizeRead?
  }

  predicate HoldsC<E>(pc: Pc<E>)
  {
    pc.SetFlag? || pc.Notify? || pc.WaitTest? || pc.WaitUnlock? || pc.Test? || pc.Again? || pc.Reset?
  }

  /** The producer has set the flag and is on its way to the broadcast. */
  predicate Notifying<E>(pc: Pc<E>) { pc.NotifyLock? || pc.Notify? }

  // ------------------------------------------------------------- the invariant

  ghost predicate Exclusive<E>(s: State<E>)
  {
    && (s.q.Some? ==> s.q.value in s.pcs)
    && (s.c.Some? ==> s.c.value in s.pcs)
    && (forall t | t in s.pcs :: HoldsQ(s.pcs[t]) <==> s.q == Some(t))
    && (forall t | t in s.pcs :: HoldsC(s.pcs[t]) <==> s.c == Some(t))
  }

  /** What the flag says about the queue while the holder of the queue mutex is at `pc`. */
  ghost predicate FlagAt<E>(pc: Pc<E>, events: seq<E>, flag: bool)
  {
    match pc
    case SetLock | SetFlag => events != []
    case NotifyLock | Notify | EmptyTest | AgainLock | Again | Take => flag && events != []
    case ResetLock(_) | Reset(_) => flag && events == []
    case NothingUnlock => !flag && events == []
    case GarbageUnlock => false
    case _ => flag <==> events != []
  }

  ghost predicate FlagAgrees<E>(s: State<E>)
  {
    if s.q.Some? && s.q.value in s.pcs then FlagAt(s.pcs[s.q.value], s.events, s.flag)
    else s.flag <==> s.events != []
  }

  ghost predicate WakeupPending<E>(s: State<E>)
  {
    s.q.Some? && s.q.value in s.pcs && Notifying(s.pcs[s.q.value])
  }

  ghost predicate NoLostWakeup<E>(s: State<E>)
  {
    s.flag ==> WakeupPending(s) || forall t | t in s.pcs :: !s.pcs[t].Asleep?
  }

  ghost predicate Inv<E>(s: State<E>)
  {
    && Exclusive(s)
    && FlagAgrees(s)
    && NoLostWakeup(s)
    && |s.events| <= CAPACITY
    && s.put == s.got + s.events
  }

  // ------------------------------------------------------------- one move

  ghost predicate Balanced(lock: Lock, held: bool, holds: bool)
  {
    match lock
    case Keep => held == holds
    case Acquire => !held && holds
    case Release => held && !holds
  }

  lemma MoveIsBalanced<E>(pc: Pc<E>, choice: Choice<E>, events: seq<E>, flag: bool)
    requires MoveOf(pc, choice, events, flag).Some?
    ensures var m := MoveOf(pc, choice, events, flag).value;
            Balanced(m.q, HoldsQ(pc), HoldsQ(m.pc)) && Balanced(m.c, HoldsC(pc), HoldsC(m.pc))
  {
  }

  /** Queue and flag are written under the queue mutex only, and stay in agreement there. */
  lemma MoveKeepsFlag<E>(pc: Pc<E>, choice: Choice<E>, events: seq<E>, flag: bool)
    requires MoveOf(pc, choice, events, flag).Some?
    ensures var m := MoveOf(pc, choice, events, flag).value;
            var after := Edited(m.edit, events);
            && (!HoldsQ(pc) ==> after == events && m.flag == flag && !m.broadcast)
            && (HoldsQ(pc) && FlagAt(pc, events, flag) && HoldsQ(m.pc) ==> FlagAt(m.pc, after, m.flag))
            && (HoldsQ(pc) && FlagAt(pc, events, flag) && !HoldsQ(m.pc) ==> (m.flag <==> after != []))
            && (!HoldsQ(pc) && HoldsQ(m.pc) && (flag <==> events != []) ==> FlagAt(m.pc, events, flag))
  {
  }

  /**
    * A thread falls asleep only while the flag is down; whoever raises the flag has the broadcast
    * before it, and leaves the region before the broadcast only by broadcasting.
    */
  lemma MoveKeepsWakeup<E>(pc: Pc<E>, choice: Choice<E>, events: seq<E>, flag: bool)
    requires MoveOf(pc, choice, events, flag).Some?
    ensures var m := MoveOf(pc, choice, events, flag).value;
            && (m.pc.Asleep? ==> !m.flag)
            && (m.flag && !flag ==> Notifying(m.pc) || m.broadcast)
            && (Notifying(pc) ==> Notifying(m.pc) || m.broadcast)
            && (Notifying(pc) || Notifying(m.pc) ==> HoldsQ(pc))
            && (Notifying(m.pc) ==> HoldsQ(m.pc))
  {
  }

  /** A move edits the queue only where the source says: a push below capacity, a pop of a front. */
  lemma MoveEdits<E>(pc: Pc<E>, choice: Choice<E>, events: seq<E>, flag: bool)
    requires MoveOf(pc, choice, events, flag).Some?
    ensures var m := MoveOf(pc, choice, events, flag).value;
            && (m.edit.Push? ==> pc == OfferCheck(m.edit.e) && |events| != CAPACITY)
            && (m.edit.Pop? ==> pc.Take? && events != [])
            && (pc.OfferCheck? && |events| < CAPACITY ==> m.edit == Push(pc.e))
            && (pc.Take? && events != [] ==>
                  m.edit.Pop? && (m.pc == ResetLock(events[0]) || m.pc == PollUnlock(events[0])))
  {
  }

  // ------------------------------------------------------------- one step

  lemma InitialInv<E>(threads: set<Tid>)
    ensures Inv(Initial<E>(threads))
  {
  }

  lemma StepExclusive<E>(s: State<E>, t: Tid, choice: Choice<E>)
    requires Exclusive(s) && Next(s, t, choice).Some?
    ensures Exclusive(Next(s, t, choice).value)
  {
    hide MoveOf, HoldsQ, HoldsC;
    MoveIsBalanced(s.pcs[t], choice, s.events, s.flag);
    SleepersHoldNothing<E>();
  }

  lemma SleepersHoldNothing<E>()
    ensures var a: Pc<E> := Asleep; !HoldsQ(a) && !HoldsC(a)
    ensures var w: Pc<E> := Woken; !HoldsQ(w) && !HoldsC(w) && !Notifying(w)
  {
  }

  lemma StepKeepsFlag<E>(s: State<E>, t: Tid, choice: Choice<E>)
    requires Exclusive(s) && FlagAgrees(s) && Next(s, t, choice).Some?
    ensures FlagAgrees(Next(s, t, choice).value)
  {
    hide MoveOf, HoldsQ, HoldsC, FlagAt;
    MoveIsBalanced(s.pcs[t], choice, s.events, s.flag);
    MoveKeepsFlag(s.pcs[t], choice, s.events, s.flag);
    SleepersHoldNothing<E>();
  }

  lemma StepKeepsWakeup<E>(s: State<E>, t: Tid, choice: Choice<E>)
    requires Exclusive(s) && NoLostWakeup(s) && Next(s, t, choice).Some?
    ensures NoLostWakeup(Next(s, t, choice).value)
  {
    hide MoveOf, HoldsQ, HoldsC, Notifying;
    MoveIsBalanced(s.pcs[t], choice, s.events, s.flag);
    MoveKeepsWakeup(s.pcs[t], choice, s.events, s.flag);
    MoveKeepsFlag(s.pcs[t], choice, s.events, s.flag);
    SleepersHoldNothing<E>();
  }

  /** Whoever is about to take finds an event: the queue mutex has kept it there since the test. */
  lemma TakerFindsAnEvent<E>(s: State<E>, t: Tid)
    requires Exclusive(s) && FlagAgrees(s) && t in s.pcs && s.pcs[t].Take?
    ensures s.events != []
  {
    assert HoldsQ(s.pcs[t]);
  }

  /**
    * Seen from outside a step is an atomic queue operation or nothing: an accepted element joins
    * the end of a queue that is not full, a taken one leaves the front, all else keeps the queue.
    */
  lemma StepIsAtomic<E>(s: State<E>, t: Tid, choice: Choice<E>)
    requires Inv(s) && Next(s, t, choice).Some?
    ensures var s' := Next(s, t, choice).value;
            if s.pcs[t].OfferCheck? then
              s'.events == Offered(s.events, s.pcs[t].e) && s'.got == s.got
            else if s.pcs[t].Take? then
              s.events != [] && s'.events == s.events[1..] && s'.got == s.got + [s.events[0]]
            else
              s'.events == s.events && s'.got == s.got && s'.put == s.put
  {
    hide MoveOf, HoldsC, HoldsQ, NoLostWakeup, FlagAgrees, Exclusive;
    MoveEdits(s.pcs[t], choice, s.events, s.flag);
    if s.pcs[t].Take? {
      TakerFindsAnEvent(s, t);
      assert s.events[..1] == [s.events[0]];
    }
  }

  lemma StepConserves<E>(s: State<E>, t: Tid, choice: Choice<E>)
    requires Inv(s) && Next(s, t, choice).Some?
    ensures var s' := Next(s, t, choice).value;
            |s'.events| <= CAPACITY && s'.put == s'.got + s'.events
  {
    hide MoveOf, HoldsC, HoldsQ, NoLostWakeup, FlagAgrees, Exclusive;
    var m := MoveOf(s.pcs[t], choice, s.events, s.flag).value;
    MoveEdits(s.pcs[t], choice, s.events, s.flag);
    ConservedByEdit(m.edit, s.got, s.events);
  }

  lemma ConservedByEdit<E>(edit: Edit<E>, got: seq<E>, events: seq<E>)
    requires edit.Pop? ==> events != []
    ensures edit.Push? ==> got + events + [edit.e] == got + Edited(edit, events)
    ensures edit.Pop? ==> got + events == got + events[..1] + Edited(edit, events)
  {
    if edit.Pop? {
      assert events == events[..1] + events[1..];
    }
  }

  lemma NextInv<E>(s: State<E>, t: Tid, choice: Choice<E>)
    requires Inv(s) && Next(s, t, choice).Some?
    ensures Inv(Next(s, t, choice).value)
  {
    hide Next, Exclusive, FlagAgrees, NoLostWakeup;
    StepExclusive(s, t, choice);
    StepKeepsFlag(s, t, choice);
    StepKeepsWakeup(s, t, choice);
    StepConserves(s, t, choice);
  }

  // ------------------------------------------------------------- whole runs

  /** Any interleaving of any number of threads. */
  ghost function Run<E>(s: State<E>, steps: seq<(Tid, Choice<E>)>): Option<State<E>>
    decreases |steps|
  {
    if steps == [] then Some(s)
    else
      match Next(s, steps[0].0, steps[0].1)
      case None => None
      case Some(s') => Run(s', steps[1..])
  }

  lemma {:induction false} RunInv<E>(s: State<E>, steps: seq<(Tid, Choice<E>)>)
    requires Inv(s) && Run(s, steps).Some?
    ensures Inv(Run(s, steps).value)
    decreases |steps|
  {
    if steps != [] {
      NextInv(s, steps[0].0, steps[0].1);
      RunInv(Next(s, steps[0].0, steps[0].1).value, steps[1..]);
    }
  }

  predicate InOffer<E>(pc: Pc<E>)
  {
    pc.OfferCheck? || pc.SetLock? || pc.SetFlag? || pc.NotifyLock? || pc.Notify? || pc.OfferUnlock?
  }

  /**
    * No wake-up is lost, in any run: a thread sleeps on a queue that is not empty only while a
    * producer that pushed has its broadcast still before it.  And the queue is a bounded FIFO.
    */
  lemma NoSleeperOnceOffersFinish<E>(threads: set<Tid>, steps: seq<(Tid, Choice<E>)>, t: Tid)
    requires Run(Initial<E>(threads), steps).Some?
    ensures var s := Run(Initial<E>(threads), steps).value;
            && s.put == s.got + s.events && |s.events| <= CAPACITY
            && (s.q == None ==> (s.flag <==> s.events != []))
            && (t in s.pcs && s.pcs[t].Asleep? && s.events != [] ==>
                  exists p | p in s.pcs :: InOffer(s.pcs[p]) && !s.pcs[p].OfferCheck? && !s.pcs[p].OfferUnlock?)
  {
    InitialInv<E>(threads);
    RunInv(Initial<E>(threads), steps);
    var s := Run(Initial<E>(threads), steps).value;
    if t in s.pcs && s.pcs[t].Asleep? && s.events != [] {
      if s.q.Some? {
        var p := s.q.value;
        assert HoldsQ(s.pcs[p]);
        assert InOffer(s.pcs[p]) && !s.pcs[p].OfferCheck? && !s.pcs[p].OfferUnlock?;
      }
    }
  }

  /** poll never returns its unassigned `front`, and gives a default element only from an empty queue. */
  lemma PollNeverReturnsGarbage<E>(threads: set<Tid>, steps: seq<(Tid, Choice<E>)>, t: Tid)
    requires Run(Initial<E>(threads), steps).Some?
    ensures var s := Run(Initial<E>(threads), steps).value;
            t in s.pcs ==> !s.pcs[t].GarbageUnlock? && (s.pcs[t].NothingUnlock? ==> s.events == [])
  {
    InitialInv<E>(threads);
    RunInv(Initial<E>(threads), steps);
    var s := Run(Initial<E>(threads), steps).value;
    if t in s.pcs {
      hide Run;
      NothingFromEmpty(s, t);
    }
  }

  lemma NothingFromEmpty<E>(s: State<E>, t: Tid)
    requires Exclusive(s) && FlagAgrees(s) && t in s.pcs
    ensures !s.pcs[t].GarbageUnlock? && (s.pcs[t].NothingUnlock? ==> s.events == [])
  {
    if s.pcs[t].GarbageUnlock? || s.pcs[t].NothingUnlock? {
      assert HoldsQ(s.pcs[t]);
      assert s.q == Some(t);
    }
  }

  lemma MoveNeeds<E>(pc: Pc<E>, choice: Choice<E>, events: seq<E>, flag: bool)
    requires MoveOf(pc, choice, events, flag).Some?
    ensures var m := MoveOf(pc, choice, events, flag).value;
            && (HoldsC(pc) ==> m.q != Acquire && m.c != Acquire)
            && (m.q == Acquire ==> m.c != Acquire)
  {
  }

  lemma OwnerCanGo<E>(s: State<E>)
    requires Inv(s)
    ensures s.c.Some? || s.q.Some? ==> exists t | t in s.pcs :: Next(s, t, Go).Some?
  {
    if s.c.Some? {
      var g := s.c.value;
      assert HoldsC(s.pcs[g]);
      MoveNeeds(s.pcs[g], Go, s.events, s.flag);
      assert Next(s, g, Go).Some?;
    } else if s.q.Some? {
      var h := s.q.value;
      MoveNeeds(s.pcs[h], Go, s.events, s.flag);
      MoveIsBalanced(s.pcs[h], Go, s.events, s.flag);
      assert Next(s, h, Go).Some?;
    }
  }

  /**
    * The two mutexes never deadlock: when no thread can go on, each is outside the queue's
    * operations or asleep, and if one is asleep the queue is empty.
    */
  lemma StuckMeansAsleepOnEmpty<E>(s: State<E>)
    requires Inv(s)
    requires forall t | t in s.pcs :: Next(s, t, Go).None?
    ensures forall t | t in s.pcs :: s.pcs[t].Idle? || s.pcs[t].Asleep?
    ensures (exists t :: t in s.pcs && s.pcs[t].Asleep?) ==> s.events == [] && !s.flag
  {
    OwnerCanGo(s);
    forall t | t in s.pcs
      ensures s.pcs[t].Idle? || s.pcs[t].Asleep?
    {
      assert Next(s, t, Go).None?;
    }
  }

  // ------------------------------------------------------------- one consumer

  predicate Consuming<E>(pc: Pc<E>)
  {
    pc.WaitLock? || pc.WaitTest? || pc.Asleep? || pc.Woken? || pc.WaitUnlock? || pc.PollLock? || pc.TestLock?
    || pc.Test? || pc.EmptyTest? || pc.AgainLock? || pc.Again? || pc.Take? || pc.ResetLock? || pc.Reset?
    || pc.PollUnlock? || pc.NothingUnlock? || pc.GarbageUnlock?
  }

  ghost predicate OnlyConsumer<E>(s: State<E>, t: Tid)
  {
    t in s.pcs && forall u | u in s.pcs && u != t :: !Consuming(s.pcs[u])
  }

  /** `t` is about to poll, or polling, a queue that has something for it. */
  ghost predicate WillTake<E>(s: State<E>, t: Tid)
  {
    && OnlyConsumer(s, t) && s.flag && s.events != []
    && (s.pcs[t].Idle? || s.pcs[t].WaitLock? || s.pcs[t].WaitTest? || s.pcs[t].PollLock? || s.pcs[t].TestLock?
        || s.pcs[t].Test? || s.pcs[t].EmptyTest? || s.pcs[t].AgainLock? || s.pcs[t].Again? || s.pcs[t].Take?)
  }

  /** A single consumer that read a positive size need not fear to block in the poll that follows. */
  lemma SizeThenPollTakes<E>(s: State<E>, t: Tid)
    requires Inv(s) && OnlyConsumer(s, t) && s.pcs[t].SizeRead? && s.events != []
    ensures Next(s, t, Go).Some? && WillTake(Next(s, t, Go).value, t)
  {
    assert HoldsQ(s.pcs[t]);
  }

  /** Until it takes the front nothing can put it to sleep, whatever the producers do meanwhile. */
  lemma WillTakeIsKept<E>(s: State<E>, u: Tid, choice: Choice<E>, t: Tid)
    requires Inv(s) && WillTake(s, t) && Next(s, u, choice).Some?
    requires u != t ==> choice != BeginPoll
    requires s.pcs[t].Idle? && u == t ==> choice == BeginPoll
    ensures var s' := Next(s, u, choice).value;
            if u == t && s.pcs[t].Take? then s'.got == s.got + [s.events[0]] else WillTake(s', t)
  {
    hide HoldsC, NoLostWakeup;
    StepIsAtomic(s, u, choice);
    var m := MoveOf(s.pcs[u], choice, s.events, s.flag).value;
    if u == t {
      OwnMoveWillTake(s.pcs[t], choice, s.events, s.flag);
    } else {
      OtherMoveWillTake(s.pcs[u], choice, s.events, s.flag);
    }
  }

  lemma OwnMoveWillTake<E>(pc: Pc<E>, choice: Choice<E>, events: seq<E>, flag: bool)
    requires MoveOf(pc, choice, events, flag).Some? && flag && events != []
    requires pc.Idle? ==> choice == BeginPoll
    ensures var m := MoveOf(pc, choice, events, flag).value;
            && (pc.Idle? ==> m.pc.WaitLock? && m.flag && m.edit.Same?)
            && (pc.WaitLock? || pc.WaitTest? || pc.PollLock? || pc.TestLock? || pc.Test? || pc.EmptyTest?
                || pc.AgainLock? || pc.Again? ==>
                  && m.flag && m.edit.Same? && !m.broadcast
                  && (m.pc.WaitTest? || m.pc.PollLock? || m.pc.TestLock? || m.pc.Test? || m.pc.EmptyTest?
                      || m.pc.AgainLock? || m.pc.Again? || m.pc.Take?))
  {
  }

  lemma OtherMoveWillTake<E>(pc: Pc<E>, choice: Choice<E>, events: seq<E>, flag: bool)
    requires MoveOf(pc, choice, events, flag).Some? && flag && events != []
    requires choice != BeginPoll && !Consuming(pc)
    ensures var m := MoveOf(pc, choice, events, flag).value;
            m.flag && !m.edit.Pop? && !Consuming(m.pc)
            && (m.broadcast ==> pc.Notify?)
  {
  }

  // ------------------------------------------------------------- one whole poll

  /** Nobody but `t` polls, and `t` does nothing else. */
  predicate OnlyPolls<E(==)>(steps: seq<(Tid, Choice<E>)>, t: Tid)
  {
    forall i | 0 <= i < |steps| ::
      if steps[i].0 == t then steps[i].1.Go? || steps[i].1.BeginPoll? else !steps[i].1.BeginPoll?
  }

  function OwnSteps<E(==)>(steps: seq<(Tid, Choice<E>)>, t: Tid): nat
    decreases |steps|
  {
    if steps == [] then 0 else (if steps[0].0 == t then 1 else 0) + OwnSteps(steps[1..], t)
  }

  /** The steps a poll has to make before it takes the front, if it does not sleep. */
  function PollDistance<E>(pc: Pc<E>): nat
  {
    match pc
    case Idle => 10
    case WaitLock => 9
    case WaitTest => 8
    case PollLock => 7
    case TestLock => 6
    case Test => 5
    case EmptyTest => 4
    case AgainLock => 3
    case Again => 2
    case Take => 1
    case _ => 0
  }

  lemma OwnStepShortens<E>(pc: Pc<E>, choice: Choice<E>, events: seq<E>)
    requires MoveOf(pc, choice, events, true).Some? && events != [] && (pc.Idle? ==> choice.BeginPoll?)
    requires PollDistance(pc) > 1
    ensures PollDistance(MoveOf(pc, choice, events, true).value.pc) < PollDistance(pc)
  {
  }

  /** A step of another thread leaves the poll where it is and the front at the front. */
  lemma OtherLeavesFront<E>(s: State<E>, u: Tid, choice: Choice<E>, t: Tid)
    requires Inv(s) && WillTake(s, t) && u != t && !choice.BeginPoll? && Next(s, u, choice).Some?
    ensures var s' := Next(s, u, choice).value;
            s'.pcs[t] == s.pcs[t] && s'.got == s.got && s'.events != [] && s'.events[0] == s.events[0]
  {
    hide HoldsC, NoLostWakeup, FlagAgrees;
    OtherMoveWillTake(s.pcs[u], choice, s.events, s.flag);
  }

  lemma OwnLeavesFront<E>(s: State<E>, choice: Choice<E>, t: Tid)
    requires Inv(s) && WillTake(s, t) && !s.pcs[t].Take? && Next(s, t, choice).Some?
    requires s.pcs[t].Idle? ==> choice.BeginPoll?
    ensures var s' := Next(s, t, choice).value;
            t in s'.pcs && PollDistance(s'.pcs[t]) < PollDistance(s.pcs[t]) && s'.got == s.got && s'.events == s.events
  {
    hide HoldsC, NoLostWakeup, FlagAgrees, Exclusive;
    OwnMoveWillTake(s.pcs[t], choice, s.events, s.flag);
    OwnStepShortens(s.pcs[t], choice, s.events);
  }

  /** At some point of the run `t` took the entry that was in front when the run began. */
  ghost predicate TookFront<E>(s: State<E>, steps: seq<(Tid, Choice<E>)>)
    requires s.events != []
  {
    exists k | 0 <= k <= |steps| :: Run(s, steps[..k]).Some? && Run(s, steps[..k]).value.got == s.got + [s.events[0]]
  }

  lemma TookLater<E>(s: State<E>, steps: seq<(Tid, Choice<E>)>)
    requires steps != [] && Next(s, steps[0].0, steps[0].1).Some? && s.events != []
    requires var s1 := Next(s, steps[0].0, steps[0].1).value;
             s1.got == s.got && s1.events != [] && s1.events[0] == s.events[0] && TookFront(s1, steps[1..])
    ensures TookFront(s, steps)
  {
    hide Next;
    var s1 := Next(s, steps[0].0, steps[0].1).value;
    var k :| 0 <= k <= |steps| - 1 && Run(s1, steps[1..][..k]).Some?
             && Run(s1, steps[1..][..k]).value.got == s1.got + [s1.events[0]];
    assert steps[..k + 1][1..] == steps[1..][..k];
  }

  lemma TookNow<E>(s: State<E>, steps: seq<(Tid, Choice<E>)>)
    requires steps != [] && s.events != [] && Next(s, steps[0].0, steps[0].1).Some?
    requires Next(s, steps[0].0, steps[0].1).value.got == s.got + [s.events[0]]
    ensures TookFront(s, steps)
  {
    hide Next;
    assert steps[..1][1..] == [];
    assert Run(s, steps[..1]) == Next(s, steps[0].0, steps[0].1);
  }

  /**
    * A poll by the only consumer of a queue that is not empty never sleeps: over any run it has
    * taken the entry that was in front, or it has made fewer than ten steps and is still about to.
    */
  lemma {:induction false} SizedPollTakes<E>(s: State<E>, steps: seq<(Tid, Choice<E>)>, t: Tid)
    requires Inv(s) && WillTake(s, t) && OnlyPolls(steps, t) && Run(s, steps).Some?
    ensures TookFront(s, steps)
            || (WillTake(Run(s, steps).value, t)
                && OwnSteps(steps, t) + PollDistance(Run(s, steps).value.pcs[t]) <= PollDistance(s.pcs[t]))
    decreases |steps|
  {
    if steps != [] {
      var (u, choice) := steps[0];
      assert s.pcs[t].Idle? && u == t ==> choice.BeginPoll?;
      assert OnlyPolls(steps[1..], t);
      assert u != t ==> choice != BeginPoll;
      hide Inv, Next, WillTake, PollDistance, TookFront, OnlyPolls;
      var s1 := Next(s, u, choice).value;
      NextInv(s, u, choice);
      WillTakeIsKept(s, u, choice, t);
      WillTakeHas(s, t);
      if u == t && s.pcs[t].Take? {
        TookNow(s, steps);
      } else {
        if u == t {
          OwnLeavesFront(s, choice, t);
        } else {
          OtherLeavesFront(s, u, choice, t);
        }
        SizedPollTakes(s1, steps[1..], t);
        if TookFront(s1, steps[1..]) {
          TookLater(s, steps);
        }
      }
    }
  }

  lemma WillTakeHas<E>(s: State<E>, t: Tid)
    requires WillTake(s, t)
    ensures s.events != [] && t in s.pcs && !s.pcs[t].Asleep?
  {
  }

  // ------------------------------------------------------------- the atomic queue

  /** What an operation does to the queue: an offer, a poll that takes an event, one that finds none. */
  datatype Op<E> = Offers(e: E) | Takes(front: E) | FindsNothing

  function AtomicNext<E(==)>(events: seq<E>, op: Op<E>): Option<seq<E>>
  {
    match op
    case Offers(e) => Some(Offered(events, e))
    case Takes(front) => if events != [] && events[0] == front then Some(events[1..]) else None
    case FindsNothing => if events == [] then Some(events) else None
  }

  function AtomicRun<E(==)>(events: seq<E>, ops: seq<Op<E>>): Option<seq<E>>
    decreases |ops|
  {
    if ops == [] then Some(events)
    else
      match AtomicNext(events, ops[0])
      case None => None
      case Some(events') => AtomicRun(events', ops[1..])
  }

  lemma {:induction false} AtomicRunOn<E>(events: seq<E>, a: seq<Op<E>>, b: seq<Op<E>>)
    requires AtomicRun(events, a).Some?
    ensures AtomicRun(events, a + b) == AtomicRun(AtomicRun(events, a).value, b)
    decreases |a|
  {
    if a == [] {
      assert a + b == b;
    } else {
      AtomicRunOn(AtomicNext(events, a[0]).value, a[1..], b);
      assert (a + b)[1..] == a[1..] + b;
    }
  }

  /** The operation that takes effect when the thread at `pc` goes on, if one does. */
  function EffectAt<E>(pc: Pc<E>, events: seq<E>, flag: bool): seq<Op<E>>
  {
    match pc
    case OfferCheck(e) => [Offers(e)]
    case Test => if flag then [] else [FindsNothing]
    case EmptyTest => if events == [] then [FindsNothing] else []
    case Take => if events == [] then [] else [Takes(events[0])]
    case _ => []
  }

  /** The operations that take effect along a run, in order. */
  function Effects<E>(s: State<E>, steps: seq<(Tid, Choice<E>)>): seq<Op<E>>
    requires Run(s, steps).Some?
    decreases |steps|
  {
    if steps == [] then []
    else EffectAt(s.pcs[steps[0].0], s.events, s.flag) + Effects(Next(s, steps[0].0, steps[0].1).value, steps[1..])
  }

  lemma EffectMatchesEdit<E>(pc: Pc<E>, choice: Choice<E>, events: seq<E>, flag: bool)
    requires MoveOf(pc, choice, events, flag).Some? && |events| <= CAPACITY && FlagAt(pc, events, flag)
    ensures var effect, edit := EffectAt(pc, events, flag), MoveOf(pc, choice, events, flag).value.edit;
            && |effect| <= 1
            && if effect == [] then edit.Same? else AtomicNext(events, effect[0]) == Some(Edited(edit, events))
  {
  }

  lemma MoveEffect<E>(pc: Pc<E>, choice: Choice<E>, events: seq<E>, flag: bool)
    requires MoveOf(pc, choice, events, flag).Some? && |events| <= CAPACITY && FlagAt(pc, events, flag)
    ensures AtomicRun(events, EffectAt(pc, events, flag)) ==
            Some(Edited(MoveOf(pc, choice, events, flag).value.edit, events))
  {
    hide AtomicRun, EffectAt, MoveOf, AtomicNext, FlagAt;
    EffectMatchesEdit(pc, choice, events, flag);
    var effect := EffectAt(pc, events, flag);
    if effect == [] {
      NoOperations(events);
    } else {
      assert effect == [effect[0]];
      OneOperation(events, effect[0]);
    }
  }

  lemma OneOperation<E>(events: seq<E>, op: Op<E>)
    ensures AtomicRun(events, [op]) == AtomicNext(events, op)
  {
    assert [op][1..] == [];
  }

  /** A thread that is about to change or judge the queue holds its mutex; others have no effect. */
  lemma EffectNeedsMutex<E>(pc: Pc<E>, choice: Choice<E>, events: seq<E>, flag: bool)
    requires MoveOf(pc, choice, events, flag).Some? && !HoldsQ(pc)
    ensures EffectAt(pc, events, flag) == [] && MoveOf(pc, choice, events, flag).value.edit.Same?
  {
  }

  lemma StepRefines<E>(s: State<E>, t: Tid, choice: Choice<E>)
    requires Inv(s) && Next(s, t, choice).Some?
    ensures AtomicRun(s.events, EffectAt(s.pcs[t], s.events, s.flag)) == Some(Next(s, t, choice).value.events)
  {
    var pc := s.pcs[t];
    if HoldsQ(pc) {
      assert s.q == Some(t);
      hide Exclusive, NoLostWakeup, MoveOf, EffectAt, FlagAt, AtomicRun;
      MoveEffect(pc, choice, s.events, s.flag);
    } else {
      hide Inv, MoveOf, EffectAt;
      EffectNeedsMutex(pc, choice, s.events, s.flag);
    }
  }

  /**
    * Every run of the protocol, with any threads and any interleaving, does to the queue what the
    * operations that take effect in it do one after the other, each at one step.
    */
  lemma {:induction false} RunRefines<E>(s: State<E>, steps: seq<(Tid, Choice<E>)>)
    requires Inv(s) && Run(s, steps).Some?
    ensures AtomicRun(s.events, Effects(s, steps)) == Some(Run(s, steps).value.events)
    decreases |steps|
  {
    if steps != [] {
      hide Inv, Next, EffectAt, AtomicRun;
      var (t, choice) := steps[0];
      var s1 := Next(s, t, choice).value;
      StepRefines(s, t, choice);
      NextInv(s, t, choice);
      RunRefines(s1, steps[1..]);
      AtomicRunOn(s.events, EffectAt(s.pcs[t], s.events, s.flag), Effects(s1, steps[1..]));
    } else {
      NoOperations(s.events);
    }
  }

  lemma NoOperations<E>(events: seq<E>)
    ensures AtomicRun(events, []) == Some(events)
  {
  }

  // ------------------------------------------------------------- each call takes effect once

  /** An operation as its caller sees it come back. */
  datatype Answer<E> = Returned | Got(front: E) | GotNothing

  function AnswerTo<E>(op: Op<E>): Answer<E>
  {
    match op
    case Offers(_) => Returned
    case Takes(front) => Got(front)
    case FindsNothing => GotNothing
  }

  /** The answer of an operation that has taken effect and is on its way back. */
  function Due<E>(pc: Pc<E>): seq<Answer<E>>
  {
    match pc
    case SetLock | SetFlag | NotifyLock | Notify | OfferUnlock => [Returned]
    case ResetLock(front) => [Got(front)]
    case Reset(front) => [Got(front)]
    case PollUnlock(front) => [Got(front)]
    case NothingUnlock => [GotNothing]
    case _ => []
  }

  /** The answer that the step of a thread at `pc` gives its caller, if it ends a call of offer or poll. */
  function AnswerAt<E>(pc: Pc<E>): seq<Answer<E>>
  {
    match pc
    case OfferUnlock => [Returned]
    case PollUnlock(front) => [Got(front)]
    case NothingUnlock => [GotNothing]
    case _ => []
  }

  function AnswersTo<E>(ops: seq<Op<E>>): seq<Answer<E>> { seq(|ops|, i requires 0 <= i < |ops| => AnswerTo(ops[i])) }

  /** The answers to the operations of thread `t` that took effect along a run. */
  function EffectsOf<E>(s: State<E>, steps: seq<(Tid, Choice<E>)>, t: Tid): seq<Answer<E>>
    requires t in s.pcs && Run(s, steps).Some?
    decreases |steps|
  {
    if steps == [] then []
    else
      OwnEffect(s, steps[0].0, t)
      + EffectsOf(Next(s, steps[0].0, steps[0].1).value, steps[1..], t)
  }

  /** The answers thread `t` got along a run. */
  function AnswersOf<E>(s: State<E>, steps: seq<(Tid, Choice<E>)>, t: Tid): seq<Answer<E>>
    requires t in s.pcs && Run(s, steps).Some?
    decreases |steps|
  {
    if steps == [] then []
    else
      OwnAnswer(s, steps[0].0, t)
      + AnswersOf(Next(s, steps[0].0, steps[0].1).value, steps[1..], t)
  }

  lemma OwnMoveAnswers<E>(pc: Pc<E>, choice: Choice<E>, events: seq<E>, flag: bool)
    requires MoveOf(pc, choice, events, flag).Some?
    ensures Due(pc) + AnswersTo(EffectAt(pc, events, flag)) ==
            AnswerAt(pc) + Due(MoveOf(pc, choice, events, flag).value.pc)
  {
  }

  lemma WakingOwesNothing<E>(s: State<E>, u: Tid, choice: Choice<E>, t: Tid)
    requires Next(s, u, choice).Some? && t in s.pcs && u != t
    ensures t in Next(s, u, choice).value.pcs && Due(Next(s, u, choice).value.pcs[t]) == Due(s.pcs[t])
  {
    hide MoveOf;
  }

  function OwnEffect<E>(s: State<E>, u: Tid, t: Tid): seq<Answer<E>>
    requires t in s.pcs
  {
    if u == t then AnswersTo(EffectAt(s.pcs[t], s.events, s.flag)) else []
  }

  function OwnAnswer<E>(s: State<E>, u: Tid, t: Tid): seq<Answer<E>>
    requires t in s.pcs
  {
    if u == t then AnswerAt(s.pcs[t]) else []
  }

  lemma StepAnswers<E>(s: State<E>, u: Tid, choice: Choice<E>, t: Tid)
    requires Next(s, u, choice).Some? && t in s.pcs
    ensures var s1 := Next(s, u, choice).value;
            t in s1.pcs && Due(s.pcs[t]) + OwnEffect(s, u, t) == OwnAnswer(s, u, t) + Due(s1.pcs[t])
  {
    hide Due, EffectAt, AnswerAt, MoveOf, AnswersTo;
    if u == t {
      OwnMoveAnswers(s.pcs[t], choice, s.events, s.flag);
    } else {
      WakingOwesNothing(s, u, choice, t);
      assert Due(s.pcs[t]) + [] == [] + Due(s.pcs[t]);
    }
  }

  /**
    * Along any run the answers thread `t` gets are, in order, those to its operations that took
    * effect: each call of offer or poll takes effect once, between its start and its return.
    */
  lemma {:induction false} EveryCallTakesEffectOnce<E>(s: State<E>, steps: seq<(Tid, Choice<E>)>, t: Tid)
    requires t in s.pcs && Run(s, steps).Some?
    ensures t in Run(s, steps).value.pcs
    ensures Due(s.pcs[t]) + EffectsOf(s, steps, t) == AnswersOf(s, steps, t) + Due(Run(s, steps).value.pcs[t])
    decreases |steps|
  {
    hide Next, Due, EffectAt, AnswerAt, AnswersTo, OwnEffect, OwnAnswer;
    if steps == [] {
      assert Due(s.pcs[t]) + [] == [] + Due(s.pcs[t]);
    } else {
      var (u, choice) := steps[0];
      var s1 := Next(s, u, choice).value;
      StepAnswers(s, u, choice, t);
      EveryCallTakesEffectOnce(s1, steps[1..], t);
      Regroup(Due(s.pcs[t]), OwnEffect(s, u, t), EffectsOf(s1, steps[1..], t),
              OwnAnswer(s, u, t), Due(s1.pcs[t]), AnswersOf(s1, steps[1..], t), Due(Run(s1, steps[1..]).value.pcs[t]));
    }
  }

  lemma Regroup<A>(due: seq<A>, effect: seq<A>, effects: seq<A>,
                   answer: seq<A>, due1: seq<A>, answers: seq<A>, due2: seq<A>)
    requires due + effect == answer + due1 && due1 + effects == answers + due2
    ensures due + (effect + effects) == (answer + answers) + due2
  {
    assert due + (effect + effects) == (due + effect) + effects == answer + (due1 + effects);
  }

  // ------------------------------------------------------------- a poll waits

  /** From where a poll no longer waits, up to the taking. */
  predicate PastWait<E>(pc: Pc<E>)
  {
    pc.Woken? || pc.WaitUnlock? || pc.PollLock? || pc.TestLock? || pc.Test? || pc.EmptyTest? || pc.AgainLock?
    || pc.Again? || pc.Take?
  }

  predicate Resetting<E>(pc: Pc<E>) { pc.ResetLock? || pc.Reset? }

  /** `t` finds nothing nowhere, and where it no longer waits there is something for it. */
  ghost predicate Sure<E>(s: State<E>, t: Tid)
  {
    && t in s.pcs && !s.pcs[t].NothingUnlock?
    && (PastWait(s.pcs[t]) ==> s.flag && s.events != [])
    && forall u | u in s.pcs && u != t :: !Resetting(s.pcs[u])
  }

  /** Neither another thread's taking nor a wake-up of `t` for no reason. */
  predicate Undisturbed<E>(s: State<E>, u: Tid, choice: Choice<E>, t: Tid)
  {
    if u == t then !choice.WakeSpuriously? else u in s.pcs ==> !s.pcs[u].Take?
  }

  lemma FlagMeansEvents<E>(s: State<E>, t: Tid)
    requires Exclusive(s) && FlagAgrees(s) && Sure(s, t) && s.flag
    ensures s.events != [] || Resetting(s.pcs[t])
  {
    if s.q.Some? && s.q.value in s.pcs && s.q.value != t {
      assert !Resetting(s.pcs[s.q.value]);
    }
  }

  lemma OwnMoveIsSure<E>(pc: Pc<E>, choice: Choice<E>, events: seq<E>, flag: bool)
    requires MoveOf(pc, choice, events, flag).Some? && !choice.WakeSpuriously? && !pc.NothingUnlock?
    requires PastWait(pc) ==> flag && events != []
    requires pc.WaitTest? && flag ==> events != []
    ensures var m := MoveOf(pc, choice, events, flag).value;
            && !m.pc.NothingUnlock?
            && (PastWait(m.pc) ==> m.flag && Edited(m.edit, events) != [])
  {
  }

  lemma OtherMoveIsSure<E>(pc: Pc<E>, choice: Choice<E>, events: seq<E>, flag: bool)
    requires MoveOf(pc, choice, events, flag).Some? && !pc.Take? && !Resetting(pc)
    ensures var m := MoveOf(pc, choice, events, flag).value;
            && !Resetting(m.pc) && !m.edit.Pop? && (flag ==> m.flag)
            && (m.broadcast ==> m.flag && pc.Notify?)
  {
  }

  lemma SureStep<E>(s: State<E>, u: Tid, choice: Choice<E>, t: Tid)
    requires Inv(s) && Sure(s, t) && Next(s, u, choice).Some? && Undisturbed(s, u, choice, t)
    ensures Sure(Next(s, u, choice).value, t)
  {
    hide NoLostWakeup, PastWait, Resetting;
    var m := MoveOf(s.pcs[u], choice, s.events, s.flag).value;
    if u == t {
      assert s.pcs[t].WaitTest? && s.flag ==> s.events != [] by {
        if s.pcs[t].WaitTest? && s.flag {
          FlagMeansEvents(s, t);
          WaitTestWaits(s.pcs[t]);
        }
      }
      hide FlagAgrees, Exclusive, MoveOf;
      OwnMoveIsSure(s.pcs[t], choice, s.events, s.flag);
      WokenStays(s, t);
    } else {
      assert m.broadcast ==> s.events != [] by {
        OtherMoveIsSure(s.pcs[u], choice, s.events, s.flag);
        if s.pcs[u].Notify? {
          assert s.q == Some(u) by { assert HoldsQ(s.pcs[u]); }
        }
      }
      hide FlagAgrees, Exclusive, MoveOf;
      OtherMoveIsSure(s.pcs[u], choice, s.events, s.flag);
      WokenStays(s, t);
    }
  }

  lemma WaitTestWaits<E>(pc: Pc<E>)
    requires pc.WaitTest?
    ensures !Resetting(pc)
  {
  }

  lemma WokenStays<E>(s: State<E>, t: Tid)
    requires t in s.pcs
    ensures forall u | u in s.pcs :: Resetting(WakeAll(s.pcs)[u]) == Resetting(s.pcs[u])
    ensures !WakeAll(s.pcs)[t].NothingUnlock? || s.pcs[t].NothingUnlock?
    ensures PastWait(WakeAll(s.pcs)[t]) ==> PastWait(s.pcs[t]) || s.pcs[t].Asleep?
  {
  }

  predicate UndisturbedRun<E(==)>(s: State<E>, steps: seq<(Tid, Choice<E>)>, t: Tid)
    decreases |steps|
  {
    steps == []
    || (Undisturbed(s, steps[0].0, steps[0].1, t)
        && (Next(s, steps[0].0, steps[0].1).Some? ==>
              UndisturbedRun(Next(s, steps[0].0, steps[0].1).value, steps[1..], t)))
  }

  lemma {:induction false} SureRun<E>(s: State<E>, steps: seq<(Tid, Choice<E>)>, t: Tid)
    requires Inv(s) && Sure(s, t) && UndisturbedRun(s, steps, t) && Run(s, steps).Some?
    ensures Sure(Run(s, steps).value, t)
    ensures GotNothing !in AnswersOf(s, steps, t)
    decreases |steps|
  {
    if steps != [] {
      var (u, choice) := steps[0];
      var s1 := Next(s, u, choice).value;
      assert GotNothing !in OwnAnswer(s, u, t) by { hide Inv, Next, Run; }
      hide Inv, Next, Sure, Undisturbed, OwnAnswer;
      SureStep(s, u, choice, t);
      NextInv(s, u, choice);
      SureRun(s1, steps[1..], t);
    }
  }

  /**
    * A poll waits: over any run from the start in which no other thread takes an event and `t` does
    * not wake for no reason, no poll of `t` comes back with nothing, nor is about to.
    */
  lemma PollWaits<E>(threads: set<Tid>, steps: seq<(Tid, Choice<E>)>, t: Tid)
    requires t in threads && Run(Initial<E>(threads), steps).Some? && UndisturbedRun(Initial<E>(threads), steps, t)
    ensures GotNothing !in AnswersOf(Initial<E>(threads), steps, t)
    ensures var s := Run(Initial<E>(threads), steps).value;
            && t in s.pcs && !s.pcs[t].NothingUnlock?
            && (PastWait(s.pcs[t]) ==> s.events != [])
  {
    InitialInv<E>(threads);
    SureRun(Initial<E>(threads), steps, t);
  }

  // ------------------------------------------------------------- each call is answered

  datatype Call = OfferCall | PollCall | SizeCall

  /** The call that the thread is in. */
  function CallAt<E>(pc: Pc<E>): seq<Call>
  {
    if pc.Idle? then []
    else if InOffer(pc) || pc.OfferLock? then [OfferCall]
    else if pc.SizeLock? || pc.SizeRead? then [SizeCall]
    else [PollCall]
  }

  function Asked<E>(choice: Choice<E>): seq<Call>
  {
    match choice
    case BeginOffer(_) => [OfferCall]
    case BeginPoll => [PollCall]
    case BeginSize => [SizeCall]
    case _ => []
  }

  /** The call that a step of a thread at `pc` ends. */
  function Ended<E>(pc: Pc<E>): seq<Call>
  {
    match pc
    case OfferUnlock => [OfferCall]
    case PollUnlock(_) => [PollCall]
    case NothingUnlock => [PollCall]
    case SizeRead => [SizeCall]
    case _ => []
  }

  function AskedBy<E>(steps: seq<(Tid, Choice<E>)>, t: Tid): seq<Call>
    decreases |steps|
  {
    if steps == [] then [] else (if steps[0].0 == t then Asked(steps[0].1) else []) + AskedBy(steps[1..], t)
  }

  function EndedBy<E>(s: State<E>, steps: seq<(Tid, Choice<E>)>, t: Tid): seq<Call>
    requires t in s.pcs && Run(s, steps).Some?
    decreases |steps|
  {
    if steps == [] then []
    else
      (if steps[0].0 == t then Ended(s.pcs[t]) else [])
      + EndedBy(Next(s, steps[0].0, steps[0].1).value, steps[1..], t)
  }

  lemma MoveOfCall<E>(pc: Pc<E>, choice: Choice<E>, events: seq<E>, flag: bool)
    requires MoveOf(pc, choice, events, flag).Some? && !pc.GarbageUnlock?
    ensures var m := MoveOf(pc, choice, events, flag).value;
            !m.pc.GarbageUnlock? ==> CallAt(pc) + Asked(choice) == Ended(pc) + CallAt(m.pc)
  {
  }

  lemma NoGarbage<E>(s: State<E>, t: Tid)
    requires Inv(s) && t in s.pcs
    ensures !s.pcs[t].GarbageUnlock?
  {
    hide NoLostWakeup;
    NothingFromEmpty(s, t);
  }

  lemma OtherStepOfCall<E>(s: State<E>, u: Tid, choice: Choice<E>, t: Tid)
    requires Next(s, u, choice).Some? && t in s.pcs && u != t
    ensures t in Next(s, u, choice).value.pcs && CallAt(Next(s, u, choice).value.pcs[t]) == CallAt(s.pcs[t])
  {
    hide MoveOf;
  }

  lemma OwnStepOfCall<E>(s: State<E>, t: Tid, choice: Choice<E>)
    requires Next(s, t, choice).Some?
    ensures MoveOf(s.pcs[t], choice, s.events, s.flag).Some? && t in Next(s, t, choice).value.pcs
    ensures Next(s, t, choice).value.pcs[t] == MoveOf(s.pcs[t], choice, s.events, s.flag).value.pc
  {
    hide MoveOf;
  }

  lemma StepOfCall<E>(s: State<E>, u: Tid, choice: Choice<E>, t: Tid)
    requires Inv(s) && Next(s, u, choice).Some? && t in s.pcs
    ensures var s1 := Next(s, u, choice).value;
            && t in s1.pcs
            && CallAt(s.pcs[t]) + (if u == t then Asked(choice) else [])
               == (if u == t then Ended(s.pcs[t]) else []) + CallAt(s1.pcs[t])
  {
    hide Inv, Next, MoveOf, CallAt, Asked, Ended;
    var s1 := Next(s, u, choice).value;
    if u == t {
      OwnStepOfCall(s, t, choice);
      NextInv(s, t, choice);
      NoGarbage(s, t);
      NoGarbage(s1, t);
      MoveOfCall(s.pcs[t], choice, s.events, s.flag);
    } else {
      OtherStepOfCall(s, u, choice, t);
      assert CallAt(s.pcs[t]) + [] == [] + CallAt(s1.pcs[t]);
    }
  }

  /** Calls are asked and ended one for one, in order and in kind: only the last may be still going on. */
  lemma {:induction false} EveryCallIsAnswered<E>(s: State<E>, steps: seq<(Tid, Choice<E>)>, t: Tid)
    requires Inv(s) && t in s.pcs && Run(s, steps).Some?
    ensures t in Run(s, steps).value.pcs
    ensures CallAt(s.pcs[t]) + AskedBy(steps, t) == EndedBy(s, steps, t) + CallAt(Run(s, steps).value.pcs[t])
    decreases |steps|
  {
    hide Inv, Next, CallAt, Asked, Ended;
    if steps == [] {
      assert CallAt(s.pcs[t]) + [] == [] + CallAt(s.pcs[t]);
    } else {
      var (u, choice) := steps[0];
      var s1 := Next(s, u, choice).value;
      StepOfCall(s, u, choice, t);
      NextInv(s, u, choice);
      EveryCallIsAnswered(s1, steps[1..], t);
      Regroup(CallAt(s.pcs[t]), if u == t then Asked(choice) else [], AskedBy(steps[1..], t),
              if u == t then Ended(s.pcs[t]) else [], CallAt(s1.pcs[t]), EndedBy(s1, steps[1..], t),
              CallAt(Run(s1, steps[1..]).value.pcs[t]));
    }
  }

  // ------------------------------------------------------------- a poll sleeps at most once

  /** In a call that no longer waits for the condition: offer, size, and poll from its wake-up on. */
  predicate Awake<E>(pc: Pc<E>) { !pc.Idle? && !pc.WaitLock? && !pc.WaitTest? && !pc.Asleep? }

  /** How many of its own steps such a call has to make at most. */
  function StepsLeft<E>(pc: Pc<E>): nat
  {
    match pc
    case Woken => 12
    case WaitUnlock => 11
    case PollLock => 10
    case TestLock => 9
    case Test => 8
    case EmptyTest | OfferLock(_) => 7
    case AgainLock | OfferCheck(_) => 6
    case Again | SetLock => 5
    case Take | SetFlag => 4
    case ResetLock(_) | NotifyLock => 3
    case Reset(_) | Notify | SizeLock => 2
    case _ => 1
  }

  lemma AwakeMoves<E>(pc: Pc<E>, choice: Choice<E>, events: seq<E>, flag: bool)
    requires MoveOf(pc, choice, events, flag).Some? && Awake(pc) && !pc.GarbageUnlock?
    ensures Ended(pc) != []
            || (Awake(MoveOf(pc, choice, events, flag).value.pc)
                && StepsLeft(MoveOf(pc, choice, events, flag).value.pc) < StepsLeft(pc))
  {
  }

  lemma AwakeStays<E>(s: State<E>, u: Tid, choice: Choice<E>, t: Tid)
    requires Next(s, u, choice).Some? && t in s.pcs && u != t && Awake(s.pcs[t])
    ensures t in Next(s, u, choice).value.pcs && Next(s, u, choice).value.pcs[t] == s.pcs[t]
  {
    hide MoveOf;
  }

  /**
    * A poll that has woken does not sleep again, whatever it finds, and any call that does not wait
    * ends: over any run it has ended, or it has made fewer than twelve steps and is still awake.
    */
  lemma {:induction false} AwakeCallEnds<E>(s: State<E>, steps: seq<(Tid, Choice<E>)>, t: Tid)
    requires Inv(s) && t in s.pcs && Awake(s.pcs[t]) && Run(s, steps).Some?
    ensures EndedBy(s, steps, t) != []
            || (t in Run(s, steps).value.pcs && Awake(Run(s, steps).value.pcs[t])
                && OwnSteps(steps, t) + StepsLeft(Run(s, steps).value.pcs[t]) <= StepsLeft(s.pcs[t]))
    ensures StepsLeft(s.pcs[t]) <= 12
    decreases |steps|
  {
    if steps != [] {
      var (u, choice) := steps[0];
      hide Inv, Next, Awake, StepsLeft, Ended;
      var s1 := Next(s, u, choice).value;
      NextInv(s, u, choice);
      if u == t {
        NoGarbage(s, t);
        OwnStepOfCall(s, t, choice);
        AwakeMoves(s.pcs[t], choice, s.events, s.flag);
      } else {
        AwakeStays(s, u, choice, t);
      }
      if Awake(s1.pcs[t]) {
        AwakeCallEnds(s1, steps[1..], t);
      }
    }
  }
}
