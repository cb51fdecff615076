/**
  * Routing over time: for any history of connections that open and close, listeners that come and
  * go, sources that change and frames that arrive, what each listener was told.
  */
module Routing {
  import opened Bytes
  import opened BusProtocol
  import opened Lists
  import opened Buses
  import opened Connections

  /** The bus's flag, its driver's state and its listeners, and the value of every connection made so far. */
  datatype System = System(started: bool, status: Status, open: seq<Connection>, conns: map<Connection, Conn>)

  datatype Event =
    | BusStarts(nativeOk: bool) | BusStops(nativeOk: bool)
    | Opens(c: Connection) | Closes(c: Connection)
    | Adds(c: Connection, listener: Listener) | Removes(c: Connection, listener: Listener)
    | SetsSource(c: Connection, source: Byte)
    | Arrives(frame: Frame)

  predicate InScope(conns: map<Connection, Conn>, e: Event)
  {
    match e
    case Opens(c) => c in conns
    case Closes(c) => c in conns
    case Adds(c, _) => c in conns
    case Removes(c, _) => c in conns
    case SetsSource(c, _) => c in conns
    case Arrives(f) => f != []
    case _ => true
  }

  function After(s: System, e: Event): System
    requires InScope(s.conns, e)
  {
    match e
    case BusStarts(ok) =>
      if s.status == Closed && !ok then s
      else s.(started := true, status := if s.status == Closed then Opened else s.status)
    case BusStops(ok) =>
      s.(started := false, status := if s.status == Opened then (if ok then Closed else Closing) else s.status)
    case Opens(c) => if s.started then s.(open := s.open + [c]) else s
    case Closes(c) =>
      s.(conns := s.conns[c := s.conns[c].(listeners := [])], open := if s.started then Without(s.open, c) else s.open)
    case Adds(c, l) => s.(conns := s.conns[c := s.conns[c].(listeners := s.conns[c].listeners + [l])])
    case Removes(c, l) => s.(conns := s.conns[c := s.conns[c].(listeners := Without(s.conns[c].listeners, l))])
    case SetsSource(_, _) => s
    case Arrives(_) => s
  }

  /** Before anything happened: connections were made, none is open, none has a listener. */
  predicate Fresh(s: System)
  {
    !s.started && s.status == Closed && s.open == [] && forall c | c in s.conns :: s.conns[c].listeners == []
  }

  predicate AllInScope(s: System, es: seq<Event>) { forall i | 0 <= i < |es| :: InScope(s.conns, es[i]) }

  function AfterAll(s: System, es: seq<Event>): (r: System)
    requires AllInScope(s, es)
    ensures r.conns.Keys == s.conns.Keys
  {
    if es == [] then s else After(AfterAll(s, es[..|es| - 1]), es[|es| - 1])
  }

  ghost predicate OpenAreKnown(s: System) { forall c | c in s.open :: c in s.conns }

  function ConnsOf(conns: map<Connection, Conn>, list: seq<Connection>): seq<Conn>
    requires forall c | c in list :: c in conns
  {
    seq(|list|, i requires 0 <= i < |list| => conns[list[i]])
  }

  lemma {:induction false} OpenStayKnown(s: System, es: seq<Event>)
    requires Fresh(s) && AllInScope(s, es)
    ensures OpenAreKnown(AfterAll(s, es))
  {
    if es != [] {
      var n := |es| - 1;
      OpenStayKnown(s, es[..n]);
      var before := AfterAll(s, es[..n]);
      match es[n]
      case Closes(c) =>
        forall d | d in Without(before.open, c)
          ensures d in before.conns
        {
          WithoutHas(before.open, c, d);
        }
      case _ =>
    }
  }

  // ------------------------------------------------------------- what the listeners are told

  /** The frames among the deliveries that go to one listener. */
  function Told(log: seq<Delivery>, l: Listener): seq<Frame>
  {
    if log == [] then [] else Told(log[..|log| - 1], l) + if log[|log| - 1].to == l then [log[|log| - 1].frame] else []
  }

  lemma {:induction false} ToldConcat(a: seq<Delivery>, b: seq<Delivery>, l: Listener)
    ensures Told(a + b, l) == Told(a, l) + Told(b, l)
  {
    if b == [] {
      assert a + b == a;
    } else {
      var n := |b| - 1;
      ToldConcat(a, b[..n], l);
      assert (a + b)[..|a| + n] == a + b[..n];
    }
  }

  function Copies(f: Frame, n: nat): seq<Frame> { seq(n, _ => f) }

  lemma CopiesAdd(f: Frame, m: nat, n: nat)
    ensures Copies(f, m) + Copies(f, n) == Copies(f, m + n)
  {
  }

  /** The log of one listener after a history: what every arriving frame's deliveries told it. */
  function Log(s: System, es: seq<Event>, l: Listener): seq<Frame>
    requires Fresh(s) && AllInScope(s, es)
  {
    if es == [] then []
    else
      var n := |es| - 1;
      var before := AfterAll(s, es[..n]);
      OpenStayKnown(s, es[..n]);
      Log(s, es[..n], l)
      + if es[n].Arrives? then Told(NotifiedAll(ConnsOf(before.conns, before.open), es[n].frame), l) else []
  }

  // ------------------------------------------------------------- what they ought to be told

  /** The last start or stop that had an effect, and what a failed native close leaves behind. */
  function StatusAfter(es: seq<Event>): Status
  {
    if es == [] then Closed
    else
      var before := StatusAfter(es[..|es| - 1]);
      match es[|es| - 1]
      case BusStarts(ok) => if before == Closed && ok then Opened else before
      case BusStops(ok) => if before != Opened then before else if ok then Closed else Closing
      case _ => before
  }

  /** The last event that was a stop or a start that succeeded was a start. */
  predicate StartedAfter(es: seq<Event>)
  {
    if es == [] then false
    else
      var before := es[..|es| - 1];
      match es[|es| - 1]
      case BusStarts(ok) => ok || StatusAfter(before) != Closed || StartedAfter(before)
      case BusStops(_) => false
      case _ => StartedAfter(before)
  }

  /** The opens of `c` since its last close, not counting those a stopped bus refused. */
  function OpensOf(es: seq<Event>, c: Connection): nat
  {
    if es == [] then 0
    else
      var before := es[..|es| - 1];
      match es[|es| - 1]
      case Opens(d) => OpensOf(before, c) + if d == c && StartedAfter(before) then 1 else 0
      case Closes(d) => if d == c && StartedAfter(before) then 0 else OpensOf(before, c)
      case _ => OpensOf(before, c)
  }

  /** The registrations of `l` with `c` since it was last removed there, or `c` closed. */
  function RegistrationsOf(es: seq<Event>, c: Connection, l: Listener): nat
  {
    if es == [] then 0
    else
      var before := es[..|es| - 1];
      match es[|es| - 1]
      case Adds(d, m) => RegistrationsOf(before, c, l) + if d == c && m == l then 1 else 0
      case Removes(d, m) => if d == c && m == l then 0 else RegistrationsOf(before, c, l)
      case Closes(d) => if d == c then 0 else RegistrationsOf(before, c, l)
      case _ => RegistrationsOf(before, c, l)
  }

  /** The connections made with the source `d`, and the sniffers, which were made with 15. */
  function MadeFor(s: System, cs: seq<Connection>, d: nat): seq<Connection>
    requires forall c | c in cs :: c in s.conns
  {
    if cs == [] then []
    else (if s.conns[cs[0]].filterSource in {d, 0xF} then [cs[0]] else []) + MadeFor(s, cs[1..], d)
  }

  /** Whom a frame is for: everybody if its destination is 15, else those made for the destination. */
  function Addressees(s: System, cs: seq<Connection>, f: Frame): seq<Connection>
    requires f != [] && forall c | c in cs :: c in s.conns
  {
    if f[0] % 0x10 == 0xF then cs else MadeFor(s, cs, f[0] % 0x10)
  }

  /** One for each registration of `l` with each opening of these connections. */
  function Heard(es: seq<Event>, cs: seq<Connection>, l: Listener): nat
  {
    if cs == [] then 0 else OpensOf(es, cs[0]) * RegistrationsOf(es, cs[0], l) + Heard(es, cs[1..], l)
  }

  /** How many times an arriving frame is due to a listener, by the connections `cs`. */
  function Due(s: System, es: seq<Event>, cs: seq<Connection>, l: Listener, f: Frame): nat
    requires f != [] && forall c | c in cs :: c in s.conns
  {
    Heard(es, Addressees(s, cs, f), l)
  }

  /** Every frame, in the order of arrival, as often as it was due when it arrived. */
  function Expected(s: System, es: seq<Event>, cs: seq<Connection>, l: Listener): seq<Frame>
    requires AllInScope(s, es) && forall c | c in cs :: c in s.conns
  {
    if es == [] then []
    else
      var n := |es| - 1;
      Expected(s, es[..n], cs, l)
      + if es[n].Arrives? then Copies(es[n].frame, Due(s, es[..n], cs, l, es[n].frame)) else []
  }

  // ------------------------------------------------------------- the state counts the history

  lemma {:induction false} OpenCounts(s: System, es: seq<Event>, c: Connection)
    requires Fresh(s) && AllInScope(s, es)
    ensures var r := AfterAll(s, es);
            r.started == StartedAfter(es) && r.status == StatusAfter(es) && Count(r.open, c) == OpensOf(es, c)
  {
    if es != [] {
      var n := |es| - 1;
      OpenCounts(s, es[..n], c);
      var before := AfterAll(s, es[..n]);
      match es[n]
      case Opens(d) => CountAppend(before.open, d, c);
      case Closes(d) => CountWithout(before.open, d, c);
      case _ =>
    }
  }

  /** The registrations of `l` with `c` after one more event. */
  function RegistrationsAfter(e: Event, c: Connection, l: Listener, before: nat): nat
  {
    match e
    case Adds(d, m) => before + if d == c && m == l then 1 else 0
    case Removes(d, m) => if d == c && m == l then 0 else before
    case Closes(d) => if d == c then 0 else before
    case _ => before
  }

  lemma ListenersStep(s: System, e: Event, c: Connection, l: Listener)
    requires InScope(s.conns, e) && c in s.conns
    ensures var conn := After(s, e).conns[c];
            && conn.filterSource == s.conns[c].filterSource
            && Count(conn.listeners, l) == RegistrationsAfter(e, c, l, Count(s.conns[c].listeners, l))
  {
    hide Count, Without;
    match e
    case Adds(d, m) => CountAppend(s.conns[d].listeners, m, l);
    case Removes(d, m) => CountWithout(s.conns[d].listeners, m, l);
    case Closes(_) => NothingCounted(l);
    case _ =>
  }

  lemma NothingCounted(l: Listener)
    ensures Count([], l) == 0
  {
  }

  lemma {:induction false} ListenersCount(s: System, es: seq<Event>, c: Connection, l: Listener)
    requires Fresh(s) && AllInScope(s, es) && c in s.conns
    ensures var conn := AfterAll(s, es).conns[c];
            conn.filterSource == s.conns[c].filterSource && Count(conn.listeners, l) == RegistrationsOf(es, c, l)
  {
    if es == [] {
      NothingCounted(l);
    } else {
      hide After, Count;
      var n := |es| - 1;
      ListenersCount(s, es[..n], c, l);
      ListenersStep(AfterAll(s, es[..n]), es[n], c, l);
    }
  }

  /** How often a connection tells `l` of one frame each time it is notified. */
  function Share(conn: Conn, l: Listener, f: Frame): nat
    requires f != []
  {
    if Passes(conn.filterSource, f) then Count(conn.listeners, l) else 0
  }

  lemma {:induction false} ToldByEach(listeners: seq<Listener>, l: Listener, f: Frame)
    ensures Told(ToEach(listeners, f), l) == Copies(f, Count(listeners, l))
  {
    if listeners != [] {
      var n := |listeners| - 1;
      ToldByEach(listeners[..n], l, f);
      assert listeners == listeners[..n] + [listeners[n]];
      CountAppend(listeners[..n], listeners[n], l);
      assert ToEach(listeners, f)[..n] == ToEach(listeners[..n], f);
    }
  }

  function Shares(conns: seq<Conn>, l: Listener, f: Frame): nat
    requires f != []
  {
    if conns == [] then 0 else Shares(conns[..|conns| - 1], l, f) + Share(conns[|conns| - 1], l, f)
  }

  lemma {:induction false} ToldByAll(conns: seq<Conn>, l: Listener, f: Frame)
    requires f != []
    ensures Told(NotifiedAll(conns, f), l) == Copies(f, Shares(conns, l, f))
  {
    if conns != [] {
      var n := |conns| - 1;
      ToldByAll(conns[..n], l, f);
      ToldConcat(NotifiedAll(conns[..n], f), Notified(conns[n], f), l);
      ToldByEach(conns[n].listeners, l, f);
      CopiesAdd(f, Shares(conns[..n], l, f), Share(conns[n], l, f));
    }
  }

  /** Shares by position on the bus's list, regrouped by connection. */
  function Grouped(conns: map<Connection, Conn>, open: seq<Connection>, cs: seq<Connection>, l: Listener, f: Frame): nat
    requires f != [] && forall c | c in cs :: c in conns
    decreases |cs|
  {
    if cs == [] then 0
    else Count(open, cs[0]) * Share(conns[cs[0]], l, f) + Grouped(conns, open, cs[1..], l, f)
  }

  predicate Distinct(cs: seq<Connection>) { forall i, j | 0 <= i < j < |cs| :: cs[i] != cs[j] }

  lemma {:induction false} GroupedGrows(conns: map<Connection, Conn>, open: seq<Connection>, c: Connection,
                                        cs: seq<Connection>, l: Listener, f: Frame)
    requires f != [] && Distinct(cs) && c in conns && forall d | d in cs :: d in conns
    ensures Grouped(conns, open + [c], cs, l, f)
         == Grouped(conns, open, cs, l, f) + if c in cs then Share(conns[c], l, f) else 0
    decreases |cs|
  {
    if cs != [] {
      GroupedGrows(conns, open, c, cs[1..], l, f);
      CountAppend(open, c, cs[0]);
      assert c in cs <==> c == cs[0] || c in cs[1..] by { assert cs == [cs[0]] + cs[1..]; }
      if c == cs[0] {
        Distribute(Count(open, c), Share(conns[c], l, f));
      }
    }
  }

  lemma Distribute(n: nat, k: nat)
    ensures (n + 1) * k == n * k + k
  {
  }

  lemma {:induction false} GroupedNothing(conns: map<Connection, Conn>, cs: seq<Connection>, l: Listener, f: Frame)
    requires f != [] && forall c | c in cs :: c in conns
    ensures Grouped(conns, [], cs, l, f) == 0
    decreases |cs|
  {
    if cs != [] {
      GroupedNothing(conns, cs[1..], l, f);
    }
  }

  lemma {:induction false} SharesAreGrouped(conns: map<Connection, Conn>, open: seq<Connection>, cs: seq<Connection>,
                                            l: Listener, f: Frame)
    requires f != [] && Distinct(cs) && (forall c | c in cs :: c in conns)
    requires forall c | c in open :: c in cs
    ensures Shares(ConnsOf(conns, open), l, f) == Grouped(conns, open, cs, l, f)
    decreases |open|
  {
    if open == [] {
      GroupedNothing(conns, cs, l, f);
    } else {
      var n := |open| - 1;
      SharesAreGrouped(conns, open[..n], cs, l, f);
      GroupedGrows(conns, open[..n], open[n], cs, l, f);
      assert open == open[..n] + [open[n]];
      assert ConnsOf(conns, open)[..n] == ConnsOf(conns, open[..n]);
    }
  }

  lemma AddresseesStep(s: System, cs: seq<Connection>, f: Frame)
    requires cs != [] && f != [] && forall c | c in cs :: c in s.conns
    ensures Addressees(s, cs, f) ==
            (if Passes(s.conns[cs[0]].filterSource, f) then [cs[0]] else []) + Addressees(s, cs[1..], f)
  {
    assert cs == [cs[0]] + cs[1..];
  }

  lemma HeardStep(es: seq<Event>, c: Connection, cs: seq<Connection>, l: Listener)
    ensures Heard(es, [c] + cs, l) == OpensOf(es, c) * RegistrationsOf(es, c, l) + Heard(es, cs, l)
    ensures Heard(es, [] + cs, l) == Heard(es, cs, l)
  {
    assert ([c] + cs)[1..] == cs && [] + cs == cs;
  }

  lemma {:induction false} GroupedIsDue(s: System, es: seq<Event>, cs: seq<Connection>, l: Listener, f: Frame)
    requires Fresh(s) && AllInScope(s, es) && f != [] && forall c | c in cs :: c in s.conns
    ensures var r := AfterAll(s, es); Grouped(r.conns, r.open, cs, l, f) == Due(s, es, cs, l, f)
    decreases |cs|
  {
    if cs != [] {
      hide Addressees, Heard, Passes;
      GroupedIsDue(s, es, cs[1..], l, f);
      OpenCounts(s, es, cs[0]);
      ListenersCount(s, es, cs[0], l);
      AddresseesStep(s, cs, f);
      HeardStep(es, cs[0], Addressees(s, cs[1..], f), l);
    } else {
      assert Addressees(s, cs, f) == [];
    }
  }

  /** Each connection a frame is for, and no other. */
  lemma {:induction false} AddresseesAre(s: System, cs: seq<Connection>, f: Frame, c: Connection)
    requires f != [] && (forall d | d in cs :: d in s.conns)
    ensures c in Addressees(s, cs, f) <==>
            c in cs
            && (f[0] % 0x10 == 0xF || s.conns[c].filterSource == f[0] % 0x10 || s.conns[c].filterSource == 0xF)
  {
    if cs != [] {
      AddresseesAre(s, cs[1..], f, c);
      assert c in cs <==> c == cs[0] || c in cs[1..];
    }
  }

  // ------------------------------------------------------------- the theorem

  /**
    * Each listener is told exactly the frames it ought to be, in order: a frame counts once for every
    * registration with every opening of a connection it is for.  A frame to 15 is for all connections,
    * a frame to another destination for those made with that source or with 15.  Changes of the source
    * leave no trace in what is expected.
    */
  lemma {:induction false} RoutingIsExact(s: System, es: seq<Event>, cs: seq<Connection>, l: Listener)
    requires Fresh(s) && AllInScope(s, es)
    requires Distinct(cs) && forall c :: c in cs <==> c in s.conns
    ensures Log(s, es, l) == Expected(s, es, cs, l)
  {
    if es != [] {
      var n := |es| - 1;
      RoutingIsExact(s, es[..n], cs, l);
      if es[n].Arrives? {
        var before, f := AfterAll(s, es[..n]), es[n].frame;
        OpenStayKnown(s, es[..n]);
        ToldByAll(ConnsOf(before.conns, before.open), l, f);
        SharesAreGrouped(before.conns, before.open, cs, l, f);
        GroupedIsDue(s, es[..n], cs, l, f);
      }
    }
  }

  // ------------------------------------------------------------- the objects

  /** The system that the objects on the heap stand for. */
  ghost function SystemOf(bus: Bus<Connection>, cs: set<Connection>): System
    reads bus, bus.driver, cs
  {
    System(bus.started, bus.driver.status, bus.listeners, map c | c in cs :: c.Value())
  }

  /** The objects are a bus and the connections made for it. */
  ghost predicate Together(bus: Bus<Connection>, cs: set<Connection>)
    reads bus, bus.Parts(), cs
  {
    bus.Valid() && (forall c | c in cs :: c.bus == bus) && (forall c | c in bus.listeners :: c in cs)
  }

  /** The reader's loop on the objects tells what routing says for the system. */
  method ArriveAt(bus: Bus<Connection>, ghost cs: set<Connection>, frame: Frame) returns (log: seq<Delivery>)
    requires Together(bus, cs) && frame != []
    ensures log == NotifiedAll(ConnsOf(SystemOf(bus, cs).conns, bus.listeners), frame)
  {
    hide NotifiedAll;
    log := Deliver(bus, frame);
    assert Values(bus.listeners) == ConnsOf(SystemOf(bus, cs).conns, bus.listeners);
  }

  /** A start or a stop of the bus is one step of the system. */
  method BusHappens(bus: Bus<Connection>, ghost cs: set<Connection>, e: Event)
    requires Together(bus, cs) && (e.BusStarts? || e.BusStops?)
    modifies bus`started, bus.Parts()
    ensures Together(bus, cs) && SystemOf(bus, cs) == After(old(SystemOf(bus, cs)), e)
  {
    if e.BusStarts? {
      var _ := bus.Start(e.nativeOk);
    } else {
      var _ := bus.Stop(e.nativeOk);
    }
  }

  /** An open or a close of a connection is one step of the system. */
  method OpeningHappens(bus: Bus<Connection>, ghost cs: set<Connection>, e: Event)
    requires Together(bus, cs) && (e.Opens? || e.Closes?) && e.c in cs
    modifies bus`listeners, e.c
    ensures Together(bus, cs) && SystemOf(bus, cs) == After(old(SystemOf(bus, cs)), e)
  {
    if e.Opens? {
      var _ := e.c.Open();
    } else {
      WithoutIsWithin(bus.listeners, e.c, cs);
      hide Without;
      var _ := e.c.Close();
    }
  }

  lemma WithoutIsWithin(list: seq<Connection>, c: Connection, cs: set<Connection>)
    requires forall d | d in list :: d in cs
    ensures forall d | d in Without(list, c) :: d in cs
  {
    forall d | d in Without(list, c)
      ensures d in cs
    {
      WithoutHas(list, c, d);
    }
  }

  /** Every other call on a connection is one step of the system. */
  method ListenerHappens(bus: Bus<Connection>, ghost cs: set<Connection>, e: Event)
    requires Together(bus, cs) && (e.Adds? || e.Removes? || e.SetsSource?) && e.c in cs
    modifies e.c
    ensures Together(bus, cs) && SystemOf(bus, cs) == After(old(SystemOf(bus, cs)), e)
  {
    hide Without;
    if e.Adds? {
      e.c.AddFrameListener(e.listener);
    } else if e.Removes? {
      e.c.RemoveFrameListener(e.listener);
    } else {
      e.c.SetSource(e.source);
    }
  }

  /** One event, made of calls on the objects, is one step of the system and tells what it says. */
  method Happen(bus: Bus<Connection>, ghost cs: set<Connection>, e: Event) returns (log: seq<Delivery>)
    requires Together(bus, cs) && InScope(SystemOf(bus, cs).conns, e)
    modifies bus`started, bus`listeners, bus.Parts(), cs
    ensures Together(bus, cs) && SystemOf(bus, cs) == After(old(SystemOf(bus, cs)), e)
    ensures log == if e.Arrives? then
                     old(NotifiedAll(ConnsOf(SystemOf(bus, cs).conns, bus.listeners), e.frame))
                   else []
  {
    hide NotifiedAll;
    log := [];
    if e.Arrives? {
      log := ArriveAt(bus, cs, e.frame);
    } else if e.BusStarts? || e.BusStops? {
      BusHappens(bus, cs, e);
    } else if e.Opens? || e.Closes? {
      OpeningHappens(bus, cs, e);
    } else {
      ListenerHappens(bus, cs, e);
    }
  }
}
