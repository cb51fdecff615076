/**
  * The typed CEC messages, the operands they carry and how both are cut out of a frame
  * (ccec/include/ccec/OpCode.hpp, Operands.hpp, Messages.hpp).
  */
module Messages {
  import opened Bytes

  /** Op_t is an unsigned 32-bit integer; the codes that are sent fit one octet. */
  type Op = o: int | 0 <= o < 0x1_0000_0000

  const POLLING: Op := 0x200

  /** The payload of an operand, `CECBytes::str`. */
  type Operand = seq<Byte>

  const PHYSICAL_ADDRESS_LENGTH: nat := 2
  const OSD_STRING_LENGTH: nat := 13
  const OSD_NAME_LENGTH: nat := 14
  const LANGUAGE_LENGTH: nat := 3
  const VENDOR_ID_LENGTH: nat := 3
  const DESCRIPTOR_LENGTH: nat := 3
  const MAX_FORMATS: nat := 4

  datatype Header = Header(from: Byte, to: Byte)

  /** The message classes; the last group is never built by the decoder. */
  datatype Message =
    | ActiveSource(address: Operand)
    | InActiveSource(address: Operand)
    | ImageViewOn
    | TextViewOn
    | RequestActiveSource
    | Standby
    | GetCECVersion
    | CECVersion(version: Operand)
    | SetMenuLanguage(language: Operand)
    | GiveOSDName
    | GivePhysicalAddress
    | ReportPhysicalAddress(address: Operand, deviceType: Operand)
    | GiveDeviceVendorID
    | RoutingChange(source: Operand, sink: Operand)
    | RoutingInformation(sink: Operand)
    | SetStreamPath(sink: Operand)
    | GetMenuLanguage
    | DeviceVendorID(vendorId: Operand)
    | SetOSDString(osdString: Operand)
    | SetOSDName(osdName: Operand)
    | GiveDevicePowerStatus
    | ReportPowerStatus(status: Operand)
    | FeatureAbort(feature: Op, reason: Operand)
    | Abort
    | InitiateArc
    | TerminateArc
    | RequestShortAudioDescriptor(formats: seq<Operand>)
    | ReportShortAudioDescriptor(descriptors: seq<Operand>)
    | SystemAudioModeRequest(address: Operand)
    | SetSystemAudioMode(status: Operand)
    | ReportAudioStatus(status: Operand)
    | Polling
    | GiveAudioStatus
    | UserControlPressed(command: Operand)
    | UserControlReleased
    | RequestArcInitiation
    | ReportArcInitiation
    | RequestArcTermination
    | ReportArcTermination

  function OpCode(m: Message): Op
  {
    match m
    case ActiveSource(_) => 0x82
    case InActiveSource(_) => 0x9D
    case ImageViewOn => 0x04
    case TextViewOn => 0x0D
    case RequestActiveSource => 0x85
    case Standby => 0x36
    case GetCECVersion => 0x9F
    case CECVersion(_) => 0x9E
    case SetMenuLanguage(_) => 0x32
    case GiveOSDName => 0x46
    case GivePhysicalAddress => 0x83
    case ReportPhysicalAddress(_, _) => 0x84
    case GiveDeviceVendorID => 0x8C
    case RoutingChange(_, _) => 0x80
    case RoutingInformation(_) => 0x81
    case SetStreamPath(_) => 0x86
    case GetMenuLanguage => 0x91
    case DeviceVendorID(_) => 0x87
    case SetOSDString(_) => 0x64
    case SetOSDName(_) => 0x47
    case GiveDevicePowerStatus => 0x8F
    case ReportPowerStatus(_) => 0x90
    case FeatureAbort(_, _) => 0x00
    case Abort => 0xFF
    case InitiateArc => 0xC0
    case TerminateArc => 0xC5
    case RequestShortAudioDescriptor(_) => 0xA4
    case ReportShortAudioDescriptor(_) => 0xA3
    case SystemAudioModeRequest(_) => 0x70
    case SetSystemAudioMode(_) => 0x72
    case ReportAudioStatus(_) => 0x7A
    case Polling => POLLING
    case GiveAudioStatus => 0x71
    case UserControlPressed(_) => 0x44
    case UserControlReleased => 0x45
    case RequestArcInitiation => 0xC3
    case ReportArcInitiation => 0xC1
    case RequestArcTermination => 0xC4
    case ReportArcTermination => 0xC2
  }

  /**
    * What building an operand or a message from a frame can come to.  `Undefined` is the pointer
    * range of CECBytes whose length has wrapped around below zero.
    */
  datatype Parsed<+T> = Parsed(value: T) | InvalidParam | BeyondFrame | Undefined {
    predicate IsFailure() { !Parsed? }

    function PropagateFailure<U>(): Parsed<U>
      requires !Parsed?
    {
      match this
      case InvalidParam => InvalidParam
      case BeyondFrame => BeyondFrame
      case Undefined => Undefined
    }

    function Extract(): T
      requires Parsed?
    {
      value
    }
  }

  /**
    * `CECBytes(frame, start, max)`.  The constructor validates while the object is still a plain
    * CECBytes, so all that is asked of the octets is that there is at least one.
    */
  function ParseOperand(frame: seq<Byte>, start: nat, max: nat): Parsed<Operand>
  {
    if start > |frame| then Undefined
    else
      var length := if start + max > |frame| then |frame| - start else max;
      if length == 0 then InvalidParam else Parsed(frame[start..start + length])
  }

  /** `n` consecutive operands of `width` octets each. */
  function ParseOperands(frame: seq<Byte>, start: nat, width: nat, n: nat): Parsed<seq<Operand>>
    decreases n
  {
    if n == 0 then Parsed([])
    else
      var first :- ParseOperand(frame, start, width);
      var rest :- ParseOperands(frame, start + width, width, n - 1);
      Parsed([first] + rest)
  }

  function Concat(operands: seq<Operand>): seq<Byte>
  {
    if operands == [] then [] else operands[0] + Concat(operands[1..])
  }

  predicate AllOfLength(operands: seq<Operand>, width: nat)
  {
    forall i | 0 <= i < |operands| :: |operands[i]| == width
  }

  /** Operands that fit are cut at exact multiples of the width, and nothing is lost between them. */
  lemma {:induction false} ParseOperandsCuts(frame: seq<Byte>, start: nat, width: nat, n: nat, end: nat)
    requires width > 0 && end == start + width * n && end <= |frame|
    ensures ParseOperands(frame, start, width, n).Parsed?
    ensures var operands := ParseOperands(frame, start, width, n).value;
            && |operands| == n && AllOfLength(operands, width)
            && Concat(operands) == frame[start..end]
    decreases n
  {
    if n > 0 {
      assert end == start + width + width * (n - 1);
      assert width * (n - 1) >= 0;
      ParseOperandsCuts(frame, start + width, width, n - 1, end);
      var rest := ParseOperands(frame, start + width, width, n - 1).value;
      ConcatCons(frame[start..start + width], rest);
      assert frame[start..end] == frame[start..start + width] + frame[start + width..end];
    }
  }

  lemma ConcatCons(first: Operand, rest: seq<Operand>)
    ensures Concat([first] + rest) == first + Concat(rest)
  {
    assert ([first] + rest)[1..] == rest;
  }

  /** Cutting the concatenation of equally long operands gives the operands back. */
  lemma {:induction false} ParseOperandsOfConcat(prefix: seq<Byte>, operands: seq<Operand>, width: nat)
    requires width > 0 && AllOfLength(operands, width)
    ensures |Concat(operands)| == width * |operands|
    ensures ParseOperands(prefix + Concat(operands), |prefix|, width, |operands|) == Parsed(operands)
    decreases |operands|
  {
    var frame := prefix + Concat(operands);
    if operands != [] {
      ParseOperandsOfConcat(prefix + operands[0], operands[1..], width);
      assert frame == prefix + operands[0] + Concat(operands[1..]);
      assert |Concat(operands)| == width + width * (|operands| - 1);
      assert frame[|prefix|..|prefix| + width] == operands[0];
      assert [operands[0]] + operands[1..] == operands;
    }
  }

  /**
    * The loop of the audio-descriptor constructors that the decoder calls
    * (Messages.hpp:483-491 and 536-543): one operand is pushed back per round.
    */
  method BuildDescriptors(frame: seq<Byte>, width: nat, count: nat) returns (r: Parsed<seq<Operand>>)
    ensures r == ParseOperands(frame, 0, width, count)
  {
    var pushed: seq<Operand> := [];
    r := Parsed(pushed);
    var i := 0;
    PrependNothing(ParseOperands(frame, 0, width, count));
    while i < count
      invariant 0 <= i <= count && |pushed| == i
      invariant ParseOperands(frame, 0, width, count) ==
                Append(pushed, ParseOperands(frame, i * width, width, count - i))
    {
      var next := ParseOperand(frame, i * width, width);
      if next.IsFailure() {
        return next.PropagateFailure();
      }
      assert (i + 1) * width == i * width + width;
      AppendAssociates(pushed, next.value, ParseOperands(frame, (i + 1) * width, width, count - i - 1));
      pushed := pushed + [next.value];
      i := i + 1;
    }
    assert pushed + [] == pushed;
    r := Parsed(pushed);
  }

  ghost function Append(pushed: seq<Operand>, rest: Parsed<seq<Operand>>): Parsed<seq<Operand>>
  {
    if rest.Parsed? then Parsed(pushed + rest.value) else rest
  }

  lemma PrependNothing(rest: Parsed<seq<Operand>>)
    ensures Append([], rest) == rest
  {
    if rest.Parsed? {
      assert [] + rest.value == rest.value;
    }
  }

  lemma AppendAssociates(pushed: seq<Operand>, next: Operand, rest: Parsed<seq<Operand>>)
    ensures Append(pushed, Append([next], rest)) == Append(pushed + [next], rest)
  {
    if rest.Parsed? {
      assert pushed + ([next] + rest.value) == pushed + [next] + rest.value;
    }
  }

  /** `serialize` of SystemAudioModeRequest reads both octets of its address. */
  predicate Encodable(m: Message)
  {
    m.SystemAudioModeRequest? ==> |m.address| >= PHYSICAL_ADDRESS_LENGTH
  }

  /** The octets `OpCode::serialize` appends: none for a poll, else the low octet. */
  function OpCodeBytes(op: Op): seq<Byte>
  {
    if op == POLLING then [] else [op % 0x100]
  }

  /** The octets `serialize` appends after the opcode. */
  function OperandBytes(m: Message): seq<Byte>
    requires Encodable(m)
  {
    match m
    case ActiveSource(address) => address
    case InActiveSource(address) => address
    case CECVersion(version) => version
    case SetMenuLanguage(language) => language
    case ReportPhysicalAddress(address, deviceType) => address + deviceType
    case RoutingChange(source, sink) => source + sink
    case RoutingInformation(sink) => sink
    case SetStreamPath(sink) => sink
    case DeviceVendorID(vendorId) => vendorId
    case SetOSDString(osdString) => osdString
    case SetOSDName(osdName) => osdName
    case ReportPowerStatus(status) => status
    case FeatureAbort(feature, reason) => OpCodeBytes(feature) + reason
    case RequestShortAudioDescriptor(formats) => Concat(formats)
    case ReportShortAudioDescriptor(descriptors) => Concat(descriptors)
    case SystemAudioModeRequest(address) => if IsUnspecified(address) then [] else address
    case SetSystemAudioMode(status) => status
    case ReportAudioStatus(status) => status
    case UserControlPressed(command) => command
    case _ => []
  }

  /** The address F.F.F.F, compared nibble by nibble. */
  predicate IsUnspecified(address: Operand)
    requires |address| >= PHYSICAL_ADDRESS_LENGTH
  {
    Low(address[1]) == 0xF && High(address[1]) == 0xF && Low(address[0]) == 0xF && High(address[0]) == 0xF
  }
}
