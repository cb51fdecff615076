/**
  * A connection: its filter, its listeners, and the source it stamps on what it sends.  What every
  * listener is told over a whole history of opens, closes, registrations and received frames.
  */
module Connections {
  import opened Bytes
  import opened Frames
  import opened Messages
  import opened Codec
  import opened BusProtocol
  import opened Drivers
  import opened Lists
  import opened Buses

  const UNREGISTERED: Byte := 0xF
  const BROADCAST: Byte := 0xF

  type Listener = nat

  /** One call of a listener's notify. */
  datatype Delivery = Delivery(to: Listener, frame: Frame)

  /** What routing looks at in a connection. */
  datatype Conn = Conn(filterSource: Byte, listeners: seq<Listener>)

  /** A frame passes a filter when it is for everybody, for the filter's source, or the filter is a sniffer's. */
  predicate Passes(filterSource: Byte, frame: Frame)
    requires frame != []
  {
    filterSource == UNREGISTERED || Low(frame[0]) == BROADCAST || Low(frame[0]) == filterSource
  }

  function ToEach(listeners: seq<Listener>, frame: Frame): seq<Delivery>
  {
    seq(|listeners|, i requires 0 <= i < |listeners| => Delivery(listeners[i], frame))
  }

  function Notified(conn: Conn, frame: Frame): seq<Delivery>
    requires frame != []
  {
    if Passes(conn.filterSource, frame) then ToEach(conn.listeners, frame) else []
  }

  /** The deliveries of one frame to the connections on the bus's list, in its order. */
  function NotifiedAll(conns: seq<Conn>, frame: Frame): seq<Delivery>
    requires frame != []
  {
    if conns == [] then [] else NotifiedAll(conns[..|conns| - 1], frame) + Notified(conns[|conns| - 1], frame)
  }

  /** The connections are told one after the other, in the order of the bus's list. */
  lemma {:induction false} NotifiedInOrder(before: seq<Conn>, conn: Conn, after: seq<Conn>, frame: Frame)
    requires frame != []
    ensures NotifiedAll(before + [conn] + after, frame)
         == NotifiedAll(before, frame) + Notified(conn, frame) + NotifiedAll(after, frame)
    decreases |after|
  {
    hide Notified;
    var all := before + [conn] + after;
    if after == [] {
      assert all == before + [conn] && all[..|all| - 1] == before;
    } else {
      var rest := after[..|after| - 1];
      NotifiedInOrder(before, conn, rest, frame);
      assert all[..|all| - 1] == before + [conn] + rest;
    }
  }

  // ------------------------------------------------------------- stamping

  /** The frame after `matchSource`. */
  function Stamped(bytes: Frame, source: Byte, claimed: bool): Frame
    requires bytes != []
  {
    if claimed then [Pack(Low(source), Low(bytes[0]))] + bytes[1..] else bytes
  }

  /** Stamping puts a claimed source in the initiator nibble and touches nothing else. */
  lemma StampSetsInitiator(bytes: Frame, source: Byte, claimed: bool)
    requires bytes != []
    ensures var r := Stamped(bytes, source, claimed);
            && r != [] && r[1..] == bytes[1..] && Low(r[0]) == Low(bytes[0])
            && High(r[0]) == (if claimed then Low(source) else High(bytes[0]))
            && (r == bytes <==> !claimed || High(bytes[0]) == Low(source))
  {
    hide Pack;
    PackedNibbles(Low(source), Low(bytes[0]));
    PackOfNibbles(bytes[0]);
    assert bytes == [bytes[0]] + bytes[1..];
  }

  /** The header sendTo builds already carries the source, so stamping it changes nothing. */
  lemma SendToIsStamped(source: Byte, to: Byte, body: Frame, claimed: bool)
    requires to < 0x10
    ensures var full := [Pack(source, to)] + body;
            Stamped(full, source, claimed) == full && High(full[0]) == Low(source) && Low(full[0]) == to
  {
    hide Or;
    assert source * 0x10 % 0x100 == Low(source) * 0x10;
    hide Pack;
    PackedNibbles(Low(source), to);
    assert ([Pack(source, to)] + body)[1..] == body;
  }

  // ------------------------------------------------------------- the class

  class Connection {
    const bus: Bus<Connection>
    const filterSource: Byte  // the filter copies the source when the connection is made
    var source: Byte
    var listeners: seq<Listener>

    ghost function Value(): Conn
      reads this
    {
      Conn(filterSource, listeners)
    }

    constructor (bus: Bus<Connection>, source: Byte)
      ensures this.bus == bus && filterSource == source && this.source == source && listeners == []
    {
      this.bus := bus;
      this.filterSource := source;
      this.source := source;
      listeners := [];
    }

    method Open() returns (outcome: Outcome)
      modifies bus`listeners
      ensures outcome == if bus.started then Done else InvalidState
      ensures bus.listeners == if bus.started then old(bus.listeners) + [this] else old(bus.listeners)
    {
      outcome := bus.AddFrameListener(this);
    }

    /** The connection's own listeners are gone even when the bus refuses. */
    method Close() returns (outcome: Outcome)
      modifies this`listeners, bus`listeners
      ensures listeners == []
      ensures outcome == if bus.started then Done else InvalidState
      ensures bus.listeners == if bus.started then Without(old(bus.listeners), this) else old(bus.listeners)
    {
      listeners := [];
      outcome := bus.RemoveFrameListener(this);
    }

    method AddFrameListener(listener: Listener)
      modifies this`listeners
      ensures listeners == old(listeners) + [listener]
    {
      listeners := listeners + [listener];
    }

    method RemoveFrameListener(listener: Listener)
      modifies this`listeners
      ensures listeners == Without(old(listeners), listener)
    {
      var kept := RemoveAll(listeners, listener);
      listeners := kept;
    }

    method SetSource(from: Byte)
      modifies this`source
      ensures source == from
    {
      source := from;
    }

    method IsFiltered(frame: Frame) returns (filtered: bool)
      requires frame != []
      ensures filtered <==> !Passes(filterSource, frame)
      ensures filtered <==> filterSource != 0xF && Low(frame[0]) != 0xF && Low(frame[0]) != filterSource
    {
      filtered := true;
      if filterSource == UNREGISTERED {
        filtered := false;
      } else {
        var to := Low(frame[0]);
        if to == BROADCAST || to == filterSource {
          filtered := false;
        } else {
          filtered := true;
        }
      }
    }

    method Notify(frame: Frame) returns (log: seq<Delivery>)
      requires frame != []
      ensures log == Notified(Value(), frame)
      ensures filterSource == 0xF || Low(frame[0]) == 0xF || Low(frame[0]) == filterSource ==>
                |log| == |listeners| && forall i | 0 <= i < |log| :: log[i] == Delivery(listeners[i], frame)
      ensures filterSource != 0xF && Low(frame[0]) != 0xF && Low(frame[0]) != filterSource ==> log == []
    {
      log := [];
      var filtered := IsFiltered(frame);
      if !filtered {
        for i := 0 to |listeners|
          invariant log == ToEach(listeners[..i], frame)
        {
          log := log + [Delivery(listeners[i], frame)];
        }
        assert listeners[..|listeners|] == listeners;
      }
    }

    /** Alters the caller's frame in place. */
    method MatchSource(frame: CECFrame)
      requires frame.Valid() && frame.len > 0
      modifies frame.buf
      ensures frame.Valid() && frame.len > 0
      ensures frame.Contents() == Stamped(old(frame.Contents()), source, source in bus.driver.addresses)
    {
      ghost var before := frame.Contents();
      StampSetsInitiator(before, source, source in bus.driver.addresses);
      var claimed := bus.driver.IsValidLogicalAddress(source);
      if claimed {
        if High(frame.buf[0]) != Low(source) {
          frame.buf[0] := Or(Low(source) * 0x10 % 0x100, Low(frame.buf[0])) % 0x100;
          assert frame.Contents() == [Pack(Low(source), Low(before[0]))] + before[1..];
        }
      }
    }

    /** The sends of a connection that pass the exceptions of the bus on. */
    method Send(frame: CECFrame, timeout: int, replies: nat -> Reply)
        returns (outcome: Outcome, calls: nat, slept: nat)
      requires bus.Valid() && frame.Valid() && frame.len > 0
      modifies frame.buf, bus.driver`native
      ensures bus.Valid() && frame.Valid()
      ensures frame.Contents() == Stamped(old(frame.Contents()), source, source in bus.driver.addresses)
      ensures !bus.started ==> outcome == InvalidState && calls == 0
      ensures bus.started ==> 1 <= calls <= Attempts(timeout)
      ensures bus.started && calls < Attempts(timeout) ==> outcome == Done
      ensures frame.Contents() != []
      ensures bus.started ==> outcome == Attempt(bus.driver.status, frame.Contents(), replies(calls - 1))
      ensures bus.started ==>
                forall i: nat | i < calls - 1 :: Attempt(bus.driver.status, frame.Contents(), replies(i)) != Done
      ensures slept == 250 * ((if bus.started then calls else Attempts(timeout)) - 1)
      ensures bus.driver.native == old(bus.driver.native) + TxCalls(bus.driver.status, frame.Contents(), calls)
    {
      MatchSource(frame);
      outcome, calls, slept := bus.Send(frame.buf[..frame.len], timeout, replies);
    }

    /** The frame sendTo puts on the bus. */
    ghost function Outgoing(to: Byte, body: CECFrame): (full: Frame)
      reads this, bus, bus.driver, body, body.buf
      requires body.Valid()
      ensures full != [] && full[1..] == body.Contents()
    {
      Stamped([Pack(source, to)] + body.Contents(), source, source in bus.driver.addresses)
    }

    /** `fits` is false when the append of the body throws. */
    method SendTo(to: Byte, body: CECFrame, timeout: int, replies: nat -> Reply)
        returns (fits: bool, outcome: Outcome, calls: nat)
      requires bus.Valid() && body.Valid()
      modifies bus.driver`native
      ensures bus.Valid()
      ensures fits <==> |body.Contents()| < 128
      ensures !fits ==> calls == 0 && bus.driver.native == old(bus.driver.native)
      ensures fits && bus.started ==> 1 <= calls <= Attempts(timeout)
      ensures fits && bus.started ==> outcome == Attempt(bus.driver.status, Outgoing(to, body), replies(calls - 1))
      ensures fits && bus.started ==>
                forall i: nat | i < calls - 1 :: Attempt(bus.driver.status, Outgoing(to, body), replies(i)) != Done
      ensures fits && !bus.started ==> outcome == InvalidState && calls == 0
      ensures fits ==>
                bus.driver.native == old(bus.driver.native) + TxCalls(bus.driver.status, Outgoing(to, body), calls)
      ensures to < 0x10 ==> Outgoing(to, body) == [Pack(source, to)] + body.Contents()
    {
      hide Pack;
      if to < 0x10 {
        SendToIsStamped(source, to, body.Contents(), source in bus.driver.addresses);
      }
      var full := new CECFrame();
      var started := SerializeHeader(Header(source, to), full);
      fits := full.AppendFrame(body);
      if !fits {
        return false, Done, 0;
      }
      assert full.Contents() == [Pack(source, to)] + body.Contents();
      var slept;
      outcome, calls, slept := Send(full, timeout, replies);
    }
  }

  ghost function Values(conns: seq<Connection>): seq<Conn>
    reads conns
  {
    seq(|conns|, i requires 0 <= i < |conns| reads conns => conns[i].Value())
  }

  /** The reader's loop over the listeners of the bus. */
  method Deliver(bus: Bus<Connection>, frame: Frame) returns (log: seq<Delivery>)
    requires frame != []
    ensures log == NotifiedAll(Values(bus.listeners), frame)
  {
    log := [];
    for i := 0 to |bus.listeners|
      invariant log == NotifiedAll(Values(bus.listeners)[..i], frame)
    {
      var more := bus.listeners[i].Notify(frame);
      log := log + more;
      assert Values(bus.listeners)[..i + 1][..i] == Values(bus.listeners)[..i];
    }
    assert Values(bus.listeners)[..|bus.listeners|] == Values(bus.listeners);
  }
}
