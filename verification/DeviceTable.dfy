/**
  * The cache of the fourteen CEC devices, and what a listener to its change events can know of it.
  * Names are the octets before the terminating zero.
  */
module DeviceTable {
  import opened Bytes
  import opened Osal

  const DEVICES := 14
  const NAME_LENGTH := 15  // MAX_LENGTH_OF_OSD_NAME, with the terminating zero
  const POWER_AT_RESET := 1

  type Name = seq<Byte>

  datatype Device = Device(logicalAddress: int, powerState: int, isConnected: int, osdName: Name)

  /** The union in CECHost_DeviceStatus_t; a name is a buffer that need not end in zero. */
  datatype Status = PowerStatus(power: int) | OsdName(buffer: seq<Byte>) | ConnectedStatus(connected: int) | OtherStatus

  datatype Change = PowerIs(power: int) | NameIs(name: Name) | ConnectedIs(connected: int)

  datatype Event = Event(logicalAddress: nat, change: Change)

  predicate IsBuffer(status: Status) { status.OsdName? ==> |status.buffer| == NAME_LENGTH }

  /** The octets before the first zero. */
  function Text(buffer: seq<Byte>): Name
    decreases |buffer|
  {
    if buffer == [] || buffer[0] == 0 then [] else [buffer[0]] + Text(buffer[1..])
  }

  /** What strncpy keeps of a buffer, when a zero must follow. */
  function Stored(buffer: seq<Byte>): Name
    requires |buffer| == NAME_LENGTH
  {
    Text(buffer[..NAME_LENGTH - 1])
  }

  predicate Terminated(buffer: seq<Byte>) { 0 in buffer }

  lemma {:induction false} TextOfPrefix(buffer: seq<Byte>, n: nat)
    requires n <= |buffer|
    ensures Text(buffer[..n]) == if |Text(buffer)| <= n then Text(buffer) else buffer[..n]
    ensures |Text(buffer)| <= |buffer|
    ensures Text(buffer) == buffer[..|Text(buffer)|] && (|Text(buffer)| == |buffer| <==> 0 !in buffer)
    decreases |buffer|
  {
    if buffer != [] {
      assert buffer == [buffer[0]] + buffer[1..];
      TextOfPrefix(buffer[1..], if n == 0 then 0 else n - 1);
      if n > 0 {
        assert buffer[..n][1..] == buffer[1..][..n - 1];
        assert buffer[..n] == [buffer[0]] + buffer[1..][..n - 1];
      }
    }
  }

  /** A terminated name is stored whole; one that is not loses its fifteenth octet. */
  lemma StoredName(buffer: seq<Byte>)
    requires |buffer| == NAME_LENGTH
    ensures if Terminated(buffer) then Stored(buffer) == Text(buffer)
            else Text(buffer) == buffer && Stored(buffer) == buffer[..NAME_LENGTH - 1]
    ensures |Stored(buffer)| < NAME_LENGTH
  {
    TextOfPrefix(buffer, NAME_LENGTH - 1);
    TextOfPrefix(buffer, NAME_LENGTH);
    TextOfPrefix(buffer[..NAME_LENGTH - 1], 0);
    assert buffer[..NAME_LENGTH] == buffer;
  }

  function ResetDevice(i: int): Device { Device(i, POWER_AT_RESET, 0, []) }

  function Reset(): seq<Device> { seq(DEVICES, i => ResetDevice(i)) }

  /** What an event tells of a device; a disconnect implies the rest of the reset. */
  function Told(d: Device, change: Change): Device
  {
    match change
    case PowerIs(p) => d.(powerState := p)
    case NameIs(n) => d.(osdName := n)
    case ConnectedIs(c) =>
      if c == 0 then d.(isConnected := 0, powerState := POWER_AT_RESET, osdName := []) else d.(isConnected := c)
  }

  function ToldTable(table: seq<Device>, e: Event): seq<Device>
    requires e.logicalAddress < |table|
  {
    table[e.logicalAddress := Told(table[e.logicalAddress], e.change)]
  }

  /** The field a status is about has the status's value already. */
  predicate Shows(d: Device, status: Status)
  {
    match status
    case PowerStatus(p) => d.powerState == p
    case OsdName(buffer) => d.osdName == Text(buffer)
    case ConnectedStatus(c) => d.isConnected == c
    case OtherStatus => true
  }

  /** An unterminated name is never what a device shows, however often it is set. */
  lemma UnterminatedNeverShows(d: Device, buffer: seq<Byte>)
    requires |buffer| == NAME_LENGTH && |d.osdName| < NAME_LENGTH && !Terminated(buffer)
    ensures !Shows(d, OsdName(buffer)) && !Shows(Updated(d, OsdName(buffer)), OsdName(buffer))
  {
    StoredName(buffer);
  }

  /**
    * An event goes out exactly when the entry changes, but for one kind of status: a name without a
    * terminating zero that the entry already holds, cut, sends an event and changes nothing.
    */
  lemma EventMeansChange(d: Device, status: Status)
    requires IsBuffer(status)
    ensures var d' := if Shows(d, status) then d else Updated(d, status);
            (!Shows(d, status) <==> d' != d)
            <==> !(status.OsdName? && !Terminated(status.buffer) && Stored(status.buffer) == d.osdName)
  {
    hide Text, Stored;
    if status.OsdName? {
      StoredName(status.buffer);
    }
  }

  /** What setting a status that a device does not show makes of it. */
  function Updated(d: Device, status: Status): Device
    requires IsBuffer(status)
  {
    match status
    case PowerStatus(p) => d.(powerState := p)
    case OsdName(buffer) => d.(osdName := Stored(buffer))
    case ConnectedStatus(c) =>
      var d' := d.(isConnected := c);
      if c == 0 then d'.(powerState := POWER_AT_RESET).(osdName := []) else d'
    case OtherStatus => d
  }

  function Set(table: seq<Device>, address: nat, status: Status): seq<Device>
    requires address < |table| && IsBuffer(status)
  {
    if Shows(table[address], status) then table else table[address := Updated(table[address], status)]
  }

  // ------------------------------------------------------------- the cache

  class DeviceStatus {
    const devices: array<Device>

    ghost predicate Valid()
      reads this, devices
    {
      devices.Length == DEVICES && NamesFit(devices[..])
    }

    /** The part of CECHost_Init that fills the cache. */
    constructor ()
      ensures Valid() && fresh(devices) && devices[..] == Reset()
      ensures devices.Length == 14 && forall i | 0 <= i < 14 :: devices[i] == Device(i, 1, 0, [])
    {
      devices := new Device[DEVICES](i => ResetDevice(i));
    }

    /**
      * `broadcast` is whether the bus takes the event.  An event goes out exactly for a status that
      * the addressed field does not already show, and it tells what the cache did.
      */
    method SetDeviceStatus(address: nat, status: Status, broadcast: bool) returns (ok: bool, sent: Option<Event>)
      requires Valid() && address < DEVICES && IsBuffer(status)
      modifies devices
      ensures Valid()
      ensures sent.Some? <==> !Shows(old(devices[address]), status)
      ensures sent.Some? ==>
                sent.value.logicalAddress == address && devices[..] == ToldTable(old(devices[..]), sent.value)
      ensures devices[..] == Set(old(devices[..]), address, status)
      ensures forall i | 0 <= i < 14 && i != address :: devices[i] == old(devices[i])
      ensures forall p | status == PowerStatus(p) && old(devices[address].powerState) != p ::
                devices[address] == old(devices[address]).(powerState := p) && sent == Some(Event(address, PowerIs(p)))
      ensures forall c | status == ConnectedStatus(c) && c != 0 && old(devices[address].isConnected) != c ::
                && devices[address] == old(devices[address]).(isConnected := c)
                && sent == Some(Event(address, ConnectedIs(c)))
      ensures status == ConnectedStatus(0) && old(devices[address].isConnected) != 0 ==>
                && devices[address] == Device(old(devices[address].logicalAddress), 1, 0, [])
                && sent == Some(Event(address, ConnectedIs(0)))
      ensures forall buffer | status == OsdName(buffer) && old(devices[address].osdName) != Text(buffer) ::
                && devices[address] == old(devices[address]).(osdName := Text(buffer[..14]))
                && sent == Some(Event(address, NameIs(Text(buffer[..14]))))
      ensures ok <==> sent == None || broadcast
    {
      sent := None;
      ok := true;
      match status {
        case PowerStatus(p) =>
          if devices[address].powerState != p {
            devices[address] := devices[address].(powerState := p);
            sent := Some(Event(address, PowerIs(p)));
            ok := broadcast;
          }
        case OsdName(buffer) =>
          StoredName(buffer);
          if devices[address].osdName != Text(buffer) {
            devices[address] := devices[address].(osdName := Stored(buffer));
            sent := Some(Event(address, NameIs(Stored(buffer))));
            ok := broadcast;
          }
        case ConnectedStatus(c) =>
          if devices[address].isConnected != c {
            devices[address] := devices[address].(isConnected := c);
            if c == 0 {
              devices[address] := devices[address].(powerState := 1);
              devices[address] := devices[address].(osdName := []);
            }
            sent := Some(Event(address, ConnectedIs(c)));
            ok := broadcast;
          }
        case OtherStatus =>
      }
    }

    /** The hot-plug handler on a disconnect; it sends nothing. */
    method Disconnected()
      requires Valid()
      modifies devices
      ensures Valid() && devices[..] == Reset()
      ensures forall i | 0 <= i < 14 :: devices[i] == Device(i, 1, 0, [])
    {
      for i := 0 to DEVICES
        invariant forall j | 0 <= j < i :: devices[j] == ResetDevice(j)
      {
        devices[i] := devices[i].(logicalAddress := i);
        devices[i] := devices[i].(powerState := 1);
        devices[i] := devices[i].(isConnected := 0);
        devices[i] := devices[i].(osdName := []);
      }
      assert devices[..] == Reset();
    }
  }

  predicate NamesFit(table: seq<Device>) { forall i | 0 <= i < |table| :: |table[i].osdName| < NAME_LENGTH }

  // ------------------------------------------------------------- histories

  datatype Input = SetStatus(address: nat, status: Status, broadcast: bool) | HotUnplug

  predicate Legal(inputs: seq<Input>)
  {
    forall i | 0 <= i < |inputs| && inputs[i].SetStatus? :: inputs[i].address < DEVICES && IsBuffer(inputs[i].status)
  }

  function TableAfter(inputs: seq<Input>): (table: seq<Device>)
    requires Legal(inputs)
    ensures |table| == DEVICES
  {
    if inputs == [] then Reset()
    else
      match inputs[|inputs| - 1]
      case SetStatus(a, status, _) => Set(TableAfter(inputs[..|inputs| - 1]), a, status)
      case HotUnplug => Reset()
  }

  /** Each entry keeps its place and its address, and room for the zero after its name. */
  lemma {:induction false} EntriesKeepTheirAddress(inputs: seq<Input>, i: nat)
    requires Legal(inputs) && i < DEVICES
    ensures TableAfter(inputs)[i].logicalAddress == i && |TableAfter(inputs)[i].osdName| < NAME_LENGTH
  {
    if inputs != [] {
      EntriesKeepTheirAddress(inputs[..|inputs| - 1], i);
      match inputs[|inputs| - 1]
      case SetStatus(_, status, _) =>
        if status.OsdName? {
          StoredName(status.buffer);
        }
      case HotUnplug =>
    }
  }

  function ChangeOf(status: Status): Change
    requires !status.OtherStatus? && IsBuffer(status)
  {
    match status
    case PowerStatus(p) => PowerIs(p)
    case OsdName(buffer) => NameIs(Stored(buffer))
    case ConnectedStatus(c) => ConnectedIs(c)
  }

  /** What a listener hears: the events that were broadcast, and the plug being pulled. */
  datatype Notice = Heard(e: Event) | Unplugged

  function Notices(inputs: seq<Input>): seq<Notice>
    requires Legal(inputs)
  {
    if inputs == [] then []
    else
      var before := inputs[..|inputs| - 1];
      match inputs[|inputs| - 1]
      case SetStatus(a, status, broadcast) =>
        Notices(before)
        + if !Shows(TableAfter(before)[a], status) && broadcast then [Heard(Event(a, ChangeOf(status)))] else []
      case HotUnplug => Notices(before) + [Unplugged]
  }

  predicate InRange(notices: seq<Notice>)
  {
    forall i | 0 <= i < |notices| && notices[i].Heard? :: notices[i].e.logicalAddress < DEVICES
  }

  /** The table a listener builds for itself. */
  function Replay(notices: seq<Notice>): (table: seq<Device>)
    requires InRange(notices)
    ensures |table| == DEVICES
  {
    if notices == [] then Reset()
    else
      match notices[|notices| - 1]
      case Heard(e) => ToldTable(Replay(notices[..|notices| - 1]), e)
      case Unplugged => Reset()
  }

  lemma {:induction false} NoticesInRange(inputs: seq<Input>)
    requires Legal(inputs)
    ensures InRange(Notices(inputs))
  {
    if inputs != [] {
      NoticesInRange(inputs[..|inputs| - 1]);
    }
  }

  /** Every event about device i since the plug was last pulled was taken by the bus. */
  predicate HeardOf(inputs: seq<Input>, i: nat)
    requires Legal(inputs)
  {
    if inputs == [] then true
    else
      var before := inputs[..|inputs| - 1];
      match inputs[|inputs| - 1]
      case SetStatus(a, status, broadcast) =>
        HeardOf(before, i) && (a == i && !Shows(TableAfter(before)[a], status) ==> broadcast)
      case HotUnplug => true
  }

  lemma ReplayOne(notices: seq<Notice>, n: Notice)
    requires InRange(notices) && (n.Heard? ==> n.e.logicalAddress < DEVICES)
    ensures InRange(notices + [n])
    ensures Replay(notices + [n]) ==
            match n { case Heard(e) => ToldTable(Replay(notices), e) case Unplugged => Reset() }
  {
    assert (notices + [n])[..|notices|] == notices;
  }

  lemma ToldIsUpdated(d: Device, status: Status)
    requires IsBuffer(status) && !Shows(d, status)
    ensures Told(d, ChangeOf(status)) == Updated(d, status)
  {
    hide Text, Stored;
  }

  /** A listener's entry for a device is the cache's own, if it heard of every change to the device. */
  lemma {:induction false} ReplayIsTheTable(inputs: seq<Input>, i: nat)
    requires Legal(inputs) && i < DEVICES && HeardOf(inputs, i)
    ensures InRange(Notices(inputs)) && Replay(Notices(inputs))[i] == TableAfter(inputs)[i]
  {
    hide Text;
    NoticesInRange(inputs);
    if inputs != [] {
      hide Updated, Told, ChangeOf, Replay;
      var before := inputs[..|inputs| - 1];
      NoticesInRange(before);
      match inputs[|inputs| - 1]
      case SetStatus(a, status, broadcast) =>
        ReplayIsTheTable(before, i);
        if !Shows(TableAfter(before)[a], status) && broadcast {
          ToldIsUpdated(TableAfter(before)[a], status);
          ReplayOne(Notices(before), Heard(Event(a, ChangeOf(status))));
        } else {
          assert Notices(inputs) == Notices(before);
        }
      case HotUnplug =>
        ReplayOne(Notices(before), Unplugged);
    }
  }

  predicate AllTaken(inputs: seq<Input>)
  {
    forall i | 0 <= i < |inputs| && inputs[i].SetStatus? :: inputs[i].broadcast
  }

  lemma {:induction false} AllTakenIsHeard(inputs: seq<Input>, i: nat)
    requires Legal(inputs) && AllTaken(inputs)
    ensures HeardOf(inputs, i)
  {
    if inputs != [] {
      AllTakenIsHeard(inputs[..|inputs| - 1], i);
    }
  }

  /** With a bus that takes every event, the log of changes reproduces the cache. */
  lemma LogReproducesTable(inputs: seq<Input>)
    requires Legal(inputs) && AllTaken(inputs)
    ensures InRange(Notices(inputs)) && Replay(Notices(inputs)) == TableAfter(inputs)
  {
    NoticesInRange(inputs);
    forall i: nat | i < DEVICES
      ensures Replay(Notices(inputs))[i] == TableAfter(inputs)[i]
    {
      AllTakenIsHeard(inputs, i);
      ReplayIsTheTable(inputs, i);
    }
  }

  /** The notices of a listener that does not hear of the plug. */
  function EventsOnly(notices: seq<Notice>): seq<Notice>
  {
    if notices == [] then []
    else EventsOnly(notices[..|notices| - 1])
         + if notices[|notices| - 1].Heard? then [notices[|notices| - 1]] else []
  }

  lemma {:induction false} EventsInRange(notices: seq<Notice>)
    requires InRange(notices)
    ensures InRange(EventsOnly(notices))
  {
    if notices != [] {
      EventsInRange(notices[..|notices| - 1]);
    }
  }

  datatype Field = PowerField | NameField | ConnectedField

  predicate SameField(d: Device, d': Device, f: Field)
  {
    match f
    case PowerField => d.powerState == d'.powerState
    case NameField => d.osdName == d'.osdName
    case ConnectedField => d.isConnected == d'.isConnected
  }

  /** What an event tells of a field; a disconnect tells of all three. */
  predicate Touches(change: Change, f: Field)
  {
    match change
    case PowerIs(_) => f == PowerField
    case NameIs(_) => f == NameField
    case ConnectedIs(c) => f == ConnectedField || c == 0
  }

  /** An event that tells of field `f` of device `i` was heard since the plug was last pulled. */
  predicate ToldSince(notices: seq<Notice>, i: nat, f: Field)
  {
    if notices == [] then false
    else
      match notices[|notices| - 1]
      case Heard(e) => (e.logicalAddress == i && Touches(e.change, f)) || ToldSince(notices[..|notices| - 1], i, f)
      case Unplugged => false
  }

  lemma EventsOnlyOne(notices: seq<Notice>, n: Notice)
    ensures EventsOnly(notices + [n]) == EventsOnly(notices) + if n.Heard? then [n] else []
  {
    assert (notices + [n])[..|notices|] == notices;
  }

  lemma ToldKeepsFields(d: Device, d': Device, change: Change, f: Field)
    ensures Touches(change, f) ==> SameField(Told(d, change), Told(d', change), f)
    ensures !Touches(change, f) ==> SameField(Told(d, change), d, f)
  {
  }

  /** A field told of since the last unplug is known; one not told of was reset and is so still. */
  lemma {:induction false} FieldByField(notices: seq<Notice>, i: nat, f: Field)
    requires InRange(notices) && InRange(EventsOnly(notices)) && i < DEVICES
    ensures var alone, full := Replay(EventsOnly(notices))[i], Replay(notices)[i];
            if ToldSince(notices, i, f) then SameField(alone, full, f) else SameField(full, ResetDevice(i), f)
  {
    if notices != [] {
      hide Told, Touches, Replay;
      var before, last := notices[..|notices| - 1], notices[|notices| - 1];
      assert notices == before + [last];
      EventsInRange(before);
      FieldByField(before, i, f);
      EventsOnlyOne(before, last);
      ReplayOne(before, last);
      if last.Heard? {
        ReplayOne(EventsOnly(before), last);
        if last.e.logicalAddress == i {
          ToldKeepsFields(Replay(EventsOnly(before))[i], Replay(before)[i], last.e.change, f);
          ToldKeepsFields(Replay(before)[i], Replay(before)[i], last.e.change, f);
        }
      }
    } else {
      assert Replay([]) == Reset();
    }
  }

  /**
    * When a listener that hears the events but not of the plug has a field of a device right, after
    * any history whose events about the device were taken: exactly if it was told of the field since
    * the plug was last pulled, or what it has for the field is the reset value.
    */
  lemma EventsAloneAreRight(inputs: seq<Input>, i: nat, f: Field)
    requires Legal(inputs) && HeardOf(inputs, i) && i < DEVICES
    ensures InRange(EventsOnly(Notices(inputs)))
    ensures var alone := Replay(EventsOnly(Notices(inputs)))[i];
            SameField(alone, TableAfter(inputs)[i], f)
            <==> ToldSince(Notices(inputs), i, f) || SameField(alone, ResetDevice(i), f)
  {
    hide Replay;
    NoticesInRange(inputs);
    EventsInRange(Notices(inputs));
    ReplayIsTheTable(inputs, i);
    FieldByField(Notices(inputs), i, f);
  }

  predicate NoUnplug(inputs: seq<Input>) { HotUnplug !in inputs }

  lemma {:induction false} NoUnplugIsEventsOnly(inputs: seq<Input>)
    requires Legal(inputs) && NoUnplug(inputs)
    ensures EventsOnly(Notices(inputs)) == Notices(inputs)
  {
    if inputs != [] {
      hide Shows, ChangeOf;
      var before := inputs[..|inputs| - 1];
      NoUnplugIsEventsOnly(before);
      assert inputs[|inputs| - 1] != HotUnplug;
      if Notices(inputs) != Notices(before) {
        assert Notices(inputs)[..|Notices(inputs)| - 1] == Notices(before);
      }
    }
  }

  /**
    * A listener that hears the events but not of the plug is right after the first unplug exactly if
    * the unplug had nothing to reset: the handler broadcasts nothing.
    */
  lemma EventsAloneAfterUnplug(inputs: seq<Input>)
    requires Legal(inputs) && AllTaken(inputs) && NoUnplug(inputs)
    ensures var pulled := inputs + [HotUnplug];
            && Legal(pulled) && InRange(EventsOnly(Notices(pulled)))
            && (Replay(EventsOnly(Notices(pulled))) == TableAfter(pulled) <==> TableAfter(inputs) == Reset())
  {
    hide Replay;
    var pulled := inputs + [HotUnplug];
    assert pulled[..|inputs|] == inputs;
    assert Notices(pulled) == Notices(inputs) + [Unplugged];
    assert Notices(pulled)[..|Notices(inputs)|] == Notices(inputs);
    assert EventsOnly(Notices(pulled)) == EventsOnly(Notices(inputs));
    NoticesInRange(inputs);
    NoUnplugIsEventsOnly(inputs);
    LogReproducesTable(inputs);
  }

  /** The broadcast events alone do not: pulling the plug resets the cache in silence. */
  lemma EventsAloneMissTheReset()
    ensures var inputs := [SetStatus(0, PowerStatus(0), true), HotUnplug];
            var heard := Notices(inputs)[..1];
            InRange(heard) && Replay(heard) != TableAfter(inputs)
  {
    hide Text, Reset;
    var first := SetStatus(0, PowerStatus(0), true);
    var inputs := [first, HotUnplug];
    FirstIsHeard();
    assert inputs[..1] == [first];
    assert Notices(inputs) == [Heard(Event(0, PowerIs(0))), Unplugged];
    assert [] + [Heard(Event(0, PowerIs(0)))] == Notices(inputs)[..1];
    ReplayOne([], Heard(Event(0, PowerIs(0))));
    ResetPower();
  }

  lemma ResetPower()
    ensures Reset()[0].powerState == POWER_AT_RESET
  {
  }

  lemma FirstIsHeard()
    ensures Notices([SetStatus(0, PowerStatus(0), true)]) == [Heard(Event(0, PowerIs(0)))]
  {
    hide Text, Reset;
    var first := SetStatus(0, PowerStatus(0), true);
    assert [first][..0] == [];
    assert TableAfter([]) == Reset();
    ResetPower();
  }
}
