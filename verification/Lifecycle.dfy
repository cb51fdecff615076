/**
  * Enabling and disabling the daemon: CECIARMMgr over LibCCEC over the bus and the driver.  All of
  * them agree on whether CEC is on, as long as no native open or close fails.
  */
module Lifecycle {
  import opened BusProtocol
  import opened Drivers
  import opened Lists
  import opened Buses
  import opened Connections

  class LibCCEC {
    const bus: Bus<Connection>
    var initialized: bool

    constructor (bus: Bus<Connection>)
      ensures this.bus == bus && !initialized
    {
      this.bus := bus;
      initialized := false;
    }

    method Init(nativeOk: bool) returns (outcome: Outcome)
      requires bus.Valid()
      modifies this, bus`started, bus.Parts()
      ensures bus.Valid()
      ensures old(initialized) ==>
                outcome == InvalidState && initialized && bus.started == old(bus.started)
                && bus.driver.status == old(bus.driver.status) && bus.driver.native == old(bus.driver.native)
      ensures !old(initialized) ==> (outcome == Done <==> old(bus.driver.status) != Closed || nativeOk)
      ensures !old(initialized) && outcome == Done ==> initialized && bus.started
      ensures !old(initialized) && outcome == Done ==>
                bus.driver.status == if old(bus.driver.status) == Closed then Opened else old(bus.driver.status)
      ensures !old(initialized) && outcome != Done ==>
                !initialized && bus.started == old(bus.started) && bus.driver.status == old(bus.driver.status)
    {
      if initialized {
        return InvalidState;
      }
      outcome := bus.driver.Open(nativeOk);
      if outcome != Done {
        return;
      }
      outcome := bus.Start(nativeOk);
      if outcome != Done {
        return;
      }
      initialized := true;
    }

    method Term(nativeOk: bool) returns (outcome: Outcome)
      requires bus.Valid()
      modifies this, bus`started, bus.Parts()
      ensures bus.Valid()
      ensures !old(initialized) ==>
                outcome == InvalidState && !initialized && bus.started == old(bus.started)
                && bus.driver.status == old(bus.driver.status)
      ensures old(initialized) ==> !bus.started && (outcome == Done <==> old(bus.driver.status) != Opened || nativeOk)
      ensures old(initialized) ==> initialized == (outcome != Done)
      ensures old(initialized) && old(bus.driver.status) == Opened ==>
                bus.driver.status == if nativeOk then Closed else Closing
      ensures old(initialized) && old(bus.driver.status) != Opened ==> bus.driver.status == old(bus.driver.status)
    {
      if !initialized {
        return InvalidState;
      }
      outcome := bus.Stop(nativeOk);
      if outcome != Done {
        return;
      }
      outcome := bus.driver.Close(nativeOk);
      if outcome != Done {
        return;
      }
      initialized := false;
    }
  }

  /** CEC is off, or on, or a failed native close has left the layers in disagreement. */
  datatype Mode = Off | On | Broken

  /** What an enable (or a disable) makes of a mode.  Disabling a broken daemon dereferences null. */
  function ModeAfter(mode: Mode, on: bool, nativeOk: bool): Mode
  {
    match mode
    case Off => if on && nativeOk then On else Off
    case On => if on then On else if nativeOk then Off else Broken
    case Broken => Broken
  }

  class CECIARMMgr {
    const lib: LibCCEC
    const frameListener: Listener
    var started: bool
    var connection: Connection?
    var published: Connection?  // m_connection, which _Send looks at

    /** Every layer says that CEC is on, or every layer says that it is off. */
    ghost predicate Agrees(on: bool)
      reads this, lib, lib.bus, lib.bus.driver
    {
      && started == on && (connection != null) == on && published == connection
      && lib.initialized == on && lib.bus.started == on
      && lib.bus.driver.status == if on then Opened else Closed
    }

    ghost predicate IsIn(mode: Mode)
      reads this, lib, lib.bus, lib.bus.driver
    {
      match mode
      case Off => Agrees(false)
      case On => Agrees(true)
      case Broken =>
        && started && connection == null && published == null && lib.initialized
        && !lib.bus.started && lib.bus.driver.status == Closing
    }

    ghost predicate Valid()
      reads this, lib, lib.bus, lib.bus.Parts()
    {
      && lib.bus.Valid() && (connection != null ==> connection.bus == lib.bus)
      && (IsIn(Off) || IsIn(On) || IsIn(Broken))
    }

    constructor (lib: LibCCEC, frameListener: Listener)
      requires lib.bus.Valid() && !lib.initialized && !lib.bus.started && lib.bus.driver.status == Closed
      ensures this.lib == lib && this.frameListener == frameListener && Valid() && IsIn(Off)
    {
      this.lib := lib;
      this.frameListener := frameListener;
      started := false;
      connection := null;
      published := null;
    }

    method Start(nativeOk: bool) returns (outcome: Outcome)
      requires Valid()
      modifies this, lib, lib.bus`started, lib.bus`listeners, lib.bus.Parts()
      ensures Valid()
      ensures forall mode :: old(IsIn(mode)) ==> IsIn(ModeAfter(mode, true, nativeOk))
      ensures outcome == if old(started) then InvalidState else if nativeOk then Done else IOFailure
      ensures old(started) ==> connection == old(connection) && lib.bus.driver.native == old(lib.bus.driver.native)
      ensures old(started) || !nativeOk ==> lib.bus.listeners == old(lib.bus.listeners)
      ensures !old(started) && nativeOk ==>
                fresh(connection) && lib.bus.listeners == old(lib.bus.listeners) + [connection]
      ensures !old(started) && nativeOk ==> connection.Value() == Conn(UNREGISTERED, [frameListener])
    {
      if started {
        return InvalidState;
      }
      outcome := lib.Init(nativeOk);
      if outcome != Done {
        return IOFailure;
      }
      var c := new Connection(lib.bus, UNREGISTERED);
      connection := c;
      var _ := c.Open();
      c.AddFrameListener(frameListener);
      published := c;
      started := true;
      return Done;
    }

    /** After a failed native close the next stop calls through a connection that is null. */
    method Stop(nativeOk: bool) returns (outcome: Outcome, crashed: bool)
      requires Valid()
      modifies this, lib, lib.bus`started, lib.bus`listeners, lib.bus.Parts(), connection
      ensures Valid()
      ensures forall mode :: old(IsIn(mode)) ==> IsIn(ModeAfter(mode, false, nativeOk))
      ensures crashed <==> old(IsIn(Broken))
      ensures !crashed ==> outcome == if !old(started) then InvalidState else if nativeOk then Done else IOFailure
      ensures lib.bus.listeners == if old(connection) == null then old(lib.bus.listeners)
                                   else Without<Connection>(old(lib.bus.listeners), old(connection))
    {
      hide Without, OpenRegion, CloseRegion;
      crashed := false;
      if !started {
        return InvalidState, false;
      }
      if connection == null {
        // connection->removeFrameListener
        return Done, true;
      }
      var c: Connection := connection;
      c.RemoveFrameListener(frameListener);
      var _ := c.Close();
      published := null;
      connection := null;
      outcome := lib.Term(nativeOk);
      if outcome != Done {
        return IOFailure, false;
      }
      started := false;
      return Done, false;
    }

    /** `_Enable` */
    method Enable(on: bool, nativeOk: bool) returns (crashed: bool)
      requires Valid()
      modifies this, lib, lib.bus`started, lib.bus`listeners, lib.bus.Parts(), connection
      ensures Valid()
      ensures forall mode :: old(IsIn(mode)) ==> IsIn(ModeAfter(mode, on, nativeOk))
      ensures crashed <==> !on && old(IsIn(Broken))
      ensures on ==> connection == old(connection) || (old(connection) == null && fresh(connection))
      ensures !on ==> connection == null
      ensures lib.bus.listeners ==
                if on then old(lib.bus.listeners) + (if connection == old(connection) then [] else [connection])
                else if old(connection) == null then old(lib.bus.listeners)
                else Without<Connection>(old(lib.bus.listeners), old(connection))
    {
      crashed := false;
      if on {
        var _ := Start(nativeOk);
      } else {
        var outcome;
        outcome, crashed := Stop(nativeOk);
      }
    }
  }

  /** Taking a newcomer off a list again gives the list back. */
  lemma {:induction false} WithoutNewcomer<T>(list: seq<T>, x: T)
    requires x !in list
    ensures Without(list, x) == list && Without(list + [x], x) == list
    decreases |list|
  {
    WithoutAppend(list, x, x);
    if list != [] {
      WithoutNewcomer(list[1..], x);
    }
  }

  datatype Request = Request(on: bool, nativeOk: bool)

  function ModeOf(requests: seq<Request>): Mode
  {
    if requests == [] then Off
    else
      var last := requests[|requests| - 1];
      ModeAfter(ModeOf(requests[..|requests| - 1]), last.on, last.nativeOk)
  }

  /** With no failing native call the mode is what the last request asked for. */
  lemma {:induction false} LastRequestDecides(requests: seq<Request>)
    requires forall i | 0 <= i < |requests| :: requests[i].nativeOk
    ensures ModeOf(requests) == if requests != [] && requests[|requests| - 1].on then On else Off
  {
    if requests != [] {
      LastRequestDecides(requests[..|requests| - 1]);
    }
  }

  /** The daemon is broken exactly if a disable of a daemon that was on met a failing native close. */
  lemma {:induction false} BrokenExactly(requests: seq<Request>)
    ensures ModeOf(requests) == Broken <==>
              exists i | 0 <= i < |requests| ::
                !requests[i].on && !requests[i].nativeOk && ModeOf(requests[..i]) == On
  {
    if requests != [] {
      var n := |requests| - 1;
      var before := requests[..n];
      BrokenExactly(before);
      assert forall i | 0 <= i <= n :: before[..i] == requests[..i];
      if ModeOf(before) == Broken {
        var i :| 0 <= i < n && !before[i].on && !before[i].nativeOk && ModeOf(before[..i]) == On;
        assert !requests[i].on && !requests[i].nativeOk && ModeOf(requests[..i]) == On;
      } else if ModeOf(requests) == Broken {
        assert !requests[n].on && !requests[n].nativeOk && ModeOf(requests[..n]) == On;
      }
    }
  }

  /**
    * Any sequence of enables and disables, repeated or not, with native calls that succeed or fail,
    * up to a crash: all layers are in the mode that the requests give, and the listeners of the bus
    * are those there were before, and the daemon's own connection while it is on.
    */
  method EnableAll(mgr: CECIARMMgr, requests: seq<Request>) returns (done: nat, crashed: bool)
    requires mgr.Valid() && mgr.IsIn(Off)
    modifies mgr, mgr.lib, mgr.lib.bus`started, mgr.lib.bus`listeners, mgr.lib.bus.Parts()
    ensures done <= |requests| && mgr.Valid() && mgr.IsIn(ModeOf(requests[..done]))
    ensures !crashed ==> done == |requests|
    ensures crashed <==> done < |requests| && ModeOf(requests[..done]) == Broken && !requests[done].on
    ensures mgr.lib.bus.listeners ==
            old(mgr.lib.bus.listeners) + if mgr.connection != null then [mgr.connection] else []
  {
    ghost var listeners := mgr.lib.bus.listeners;
    done, crashed := 0, false;
    while done < |requests|
      invariant 0 <= done <= |requests| && mgr.Valid() && mgr.IsIn(ModeOf(requests[..done]))
      invariant mgr.connection != null ==> fresh(mgr.connection) && mgr.connection !in listeners
      invariant mgr.lib.bus.listeners == listeners + if mgr.connection != null then [mgr.connection] else []
    {
      if mgr.connection != null {
        WithoutNewcomer<Connection>(listeners, mgr.connection);
      }
      crashed := mgr.Enable(requests[done].on, requests[done].nativeOk);
      if crashed {
        return;
      }
      assert requests[..done + 1][..done] == requests[..done];
      done := done + 1;
    }
    assert requests[..done] == requests;
  }
}
