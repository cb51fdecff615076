/**
  * Encoding and decoding of whole frames (ccec/include/ccec/Header.hpp, MessageEncoder.hpp,
  * ccec/src/MessageDecoder.cpp), and the laws that tie the two together.
  */
module Codec {
  import opened Bytes
  import opened Frames
  import opened Messages

  /** What `MessageDecoder::decode` does with a frame. */
  datatype Decoded =
    | Processed(header: Header, message: Message)  // exactly one call of processor.process
    | Nothing                                      // unhandled opcode, or an exception caught inside
    | Throws                                       // out_of_range leaves decode
    | Undefined

  function DecodeHeader(octet: Byte): Header
  {
    Header(High(octet), Low(octet))
  }

  /** The `switch` over the opcode; the classes without operands are below. */
  function ParseMessage(op: Byte, body: seq<Byte>): Parsed<Dispatch>
  {
    match op
    case 0x82 => var a :- ParseOperand(body, 0, PHYSICAL_ADDRESS_LENGTH); Parsed(Call(ActiveSource(a)))
    case 0x9D => var a :- ParseOperand(body, 0, PHYSICAL_ADDRESS_LENGTH); Parsed(Call(InActiveSource(a)))
    case 0x9E => var v :- ParseOperand(body, 0, 1); Parsed(Call(CECVersion(v)))
    case 0x32 => var l :- ParseOperand(body, 0, LANGUAGE_LENGTH); Parsed(Call(SetMenuLanguage(l)))
    case 0x84 =>
      var a :- ParseOperand(body, 0, PHYSICAL_ADDRESS_LENGTH);
      var t :- ParseOperand(body, PHYSICAL_ADDRESS_LENGTH, 1);
      Parsed(Call(ReportPhysicalAddress(a, t)))
    case 0x80 =>
      var source :- ParseOperand(body, 0, PHYSICAL_ADDRESS_LENGTH);
      var sink :- ParseOperand(body, PHYSICAL_ADDRESS_LENGTH, PHYSICAL_ADDRESS_LENGTH);
      Parsed(Call(RoutingChange(source, sink)))
    case 0x81 => var a :- ParseOperand(body, 0, PHYSICAL_ADDRESS_LENGTH); Parsed(Call(RoutingInformation(a)))
    case 0x86 => var a :- ParseOperand(body, 0, PHYSICAL_ADDRESS_LENGTH); Parsed(Call(SetStreamPath(a)))
    case 0x87 => var v :- ParseOperand(body, 0, VENDOR_ID_LENGTH); Parsed(Call(DeviceVendorID(v)))
    case 0x64 => var s :- ParseOperand(body, 0, OSD_STRING_LENGTH); Parsed(Call(SetOSDString(s)))
    case 0x47 => var s :- ParseOperand(body, 0, OSD_NAME_LENGTH); Parsed(Call(SetOSDName(s)))
    case 0x90 => var s :- ParseOperand(body, 0, 1); Parsed(Call(ReportPowerStatus(s)))
    case 0x00 =>
      if body == [] then BeyondFrame
      else
        var reason :- ParseOperand(body, 1, 1);
        Parsed(Call(FeatureAbort(body[0], reason)))
    case 0xA4 =>
      var formats :- ParseOperands(body, 0, 1, Min(MAX_FORMATS, |body|));
      Parsed(Call(RequestShortAudioDescriptor(formats)))
    case 0xA3 =>
      var descriptors :- ParseOperands(body, 0, DESCRIPTOR_LENGTH, |body| / DESCRIPTOR_LENGTH);
      Parsed(Call(ReportShortAudioDescriptor(descriptors)))
    case 0x70 => var a :- ParseOperand(body, 0, PHYSICAL_ADDRESS_LENGTH); Parsed(Call(SystemAudioModeRequest(a)))
    case 0x72 => var s :- ParseOperand(body, 0, 1); Parsed(Call(SetSystemAudioMode(s)))
    case 0x7A => var s :- ParseOperand(body, 0, 1); Parsed(Call(ReportAudioStatus(s)))
    case _ => Parsed(BareMessage(op))
  }

  function BareMessage(op: Byte): Dispatch
  {
    match op
    case 0x04 => Call(ImageViewOn)
    case 0x0D => Call(TextViewOn)
    case 0x85 => Call(RequestActiveSource)
    case 0x36 => Call(Standby)
    case 0x9F => Call(GetCECVersion)
    case 0x46 => Call(GiveOSDName)
    case 0x83 => Call(GivePhysicalAddress)
    case 0x8C => Call(GiveDeviceVendorID)
    case 0x91 => Call(GetMenuLanguage)
    case 0x8F => Call(GiveDevicePowerStatus)
    case 0xFF => Call(Abort)
    case 0xC0 => Call(InitiateArc)
    case 0xC5 => Call(TerminateArc)
    case _ => NoCall
  }

  datatype Dispatch = Call(message: Message) | NoCall

  function Decode(frame: seq<Byte>): Decoded
  {
    if frame == [] then Throws
    else if |frame| == 1 then Processed(DecodeHeader(frame[0]), Polling)
    else
      match ParseMessage(frame[1], frame[2..])
      case Parsed(Call(message)) => Processed(DecodeHeader(frame[0]), message)
      case Undefined => Decoded.Undefined
      case _ => Nothing
  }

  function Encode(h: Header, m: Message): seq<Byte>
    requires Encodable(m)
  {
    [Pack(h.from, h.to)] + OpCodeBytes(OpCode(m)) + OperandBytes(m)
  }

  /** `Header::serialize`: append the destination, then or the source into the same octet. */
  method SerializeHeader(h: Header, out: CECFrame) returns (ok: bool)
    requires out.Valid()
    modifies out`len, out.buf
    ensures out.Valid()
    ensures ok <==> |old(out.Contents())| < MAX_LENGTH
    ensures out.Contents() == old(out.Contents()) + if ok then [Pack(h.from, h.to)] else []
  {
    ok := out.Append(h.to);
    if ok {
      var last := out.len - 1;
      assert out.buf[last] == h.to;
      var _ := out.Put(last, Or(h.from * 0x10 % 0x100, out.buf[last]) % 0x100);
    }
  }

  /** `CECBytes::serialize`: one append per octet; an overflow throws after the octets that fit. */
  method SerializeOperand(operand: Operand, out: CECFrame) returns (ok: bool)
    requires out.Valid()
    modifies out`len, out.buf
    ensures out.Valid()
    ensures ok <==> |old(out.Contents())| + |operand| <= MAX_LENGTH
    ensures ok ==> out.Contents() == old(out.Contents()) + operand
  {
    ok := true;
    for i := 0 to |operand|
      invariant out.Valid() && |old(out.Contents())| + i <= MAX_LENGTH
      invariant out.Contents() == old(out.Contents()) + operand[..i]
    {
      assert operand[..i + 1] == operand[..i] + [operand[i]];
      ok := out.Append(operand[i]);
      if !ok {
        return false;
      }
    }
    assert operand[..|operand|] == operand;
  }

  /** `MessageEncoder::encode(h, m, out)`; false is the out_of_range exception. */
  method EncodeInto(h: Header, m: Message, out: CECFrame) returns (ok: bool)
    requires out.Valid() && Encodable(m)
    modifies out`len, out.buf
    ensures out.Valid()
    ensures ok <==> |old(out.Contents())| + |Encode(h, m)| <= MAX_LENGTH
    ensures ok ==> out.Contents() == old(out.Contents()) + Encode(h, m)
  {
    hide OperandBytes, OpCode, Pack;
    ok := SerializeHeader(h, out);
    if !ok {
      return;
    }
    ok := SerializeOpCode(OpCode(m), out);
    if !ok {
      return;
    }
    ok := SerializeOperand(OperandBytes(m), out);
    AppendedInTurn(old(out.Contents()), [Pack(h.from, h.to)], OpCodeBytes(OpCode(m)), OperandBytes(m));
  }

  lemma AppendedInTurn(start: seq<Byte>, a: seq<Byte>, b: seq<Byte>, c: seq<Byte>)
    ensures start + a + b + c == start + (a + b + c)
  {
  }

  method SerializeOpCode(op: Op, out: CECFrame) returns (ok: bool)
    requires out.Valid()
    modifies out`len, out.buf
    ensures out.Valid()
    ensures ok <==> |old(out.Contents())| + |OpCodeBytes(op)| <= MAX_LENGTH
    ensures ok ==> out.Contents() == old(out.Contents()) + OpCodeBytes(op)
  {
    ok := true;
    if op != POLLING {
      ok := out.Append(op % 0x100);
    }
  }

  // ------------------------------------------------------------- decode after encode

  predicate Within(operand: Operand, max: nat) { 1 <= |operand| <= max }

  /**
    * The messages that survive a trip through a frame: those of a dispatched class whose operands
    * keep their lengths.  An operand followed by another must have its full length.
    */
  predicate Canonical(m: Message)
  {
    match m
    case ActiveSource(address) => Within(address, PHYSICAL_ADDRESS_LENGTH)
    case InActiveSource(address) => Within(address, PHYSICAL_ADDRESS_LENGTH)
    case CECVersion(version) => Within(version, 1)
    case SetMenuLanguage(language) => Within(language, LANGUAGE_LENGTH)
    case ReportPhysicalAddress(address, deviceType) => |address| == PHYSICAL_ADDRESS_LENGTH && |deviceType| == 1
    case RoutingChange(source, sink) => |source| == PHYSICAL_ADDRESS_LENGTH && Within(sink, PHYSICAL_ADDRESS_LENGTH)
    case RoutingInformation(sink) => Within(sink, PHYSICAL_ADDRESS_LENGTH)
    case SetStreamPath(sink) => Within(sink, PHYSICAL_ADDRESS_LENGTH)
    case DeviceVendorID(vendorId) => Within(vendorId, VENDOR_ID_LENGTH)
    case SetOSDString(osdString) => Within(osdString, OSD_STRING_LENGTH)
    case SetOSDName(osdName) => Within(osdName, OSD_NAME_LENGTH)
    case ReportPowerStatus(status) => Within(status, 1)
    case FeatureAbort(feature, reason) => feature < 0x100 && |reason| == 1
    case RequestShortAudioDescriptor(formats) => |formats| <= MAX_FORMATS && AllOfLength(formats, 1)
    case ReportShortAudioDescriptor(descriptors) => AllOfLength(descriptors, DESCRIPTOR_LENGTH)
    case SystemAudioModeRequest(address) => |address| == PHYSICAL_ADDRESS_LENGTH && !IsUnspecified(address)
    case SetSystemAudioMode(status) => Within(status, 1)
    case ReportAudioStatus(status) => Within(status, 1)
    case _ => Dispatched(m)
  }

  predicate Dispatched(m: Message)
  {
    !(m.GiveAudioStatus? || m.UserControlPressed? || m.UserControlReleased? || m.RequestArcInitiation?
      || m.ReportArcInitiation? || m.RequestArcTermination? || m.ReportArcTermination?)
  }

  /** A single operand that ends the frame comes back unless it is empty or has to be cut. */
  lemma LastOperand(prefix: seq<Byte>, operand: Operand, max: nat)
    requires max > 0
    ensures ParseOperand(prefix + operand, |prefix|, max)
         == if operand == [] then InvalidParam
            else Parsed(if |operand| <= max then operand else operand[..max])
  {
    var k := Min(|operand|, max);
    assert (prefix + operand)[|prefix|..|prefix| + k] == operand[..k];
    assert operand[..|operand|] == operand;
  }

  /** The body of `m` parses back to `m` exactly when `m` is canonical. */
  ghost predicate BodyRoundTrips(m: Message)
    requires Encodable(m)
  {
    ParseMessage(OpCode(m) % 0x100, OperandBytes(m)) == Parsed(Call(m)) <==> Canonical(m)
  }

  predicate TakesOneOperand(op: Byte)
  {
    op in {0x82, 0x9D, 0x81, 0x86, 0x70, 0x9E, 0x90, 0x72, 0x7A, 0x32, 0x87, 0x64, 0x47}
  }

  function MaxLength(op: Byte): nat
  {
    if op == 0x47 then OSD_NAME_LENGTH
    else if op == 0x64 then OSD_STRING_LENGTH
    else if op == 0x32 || op == 0x87 then VENDOR_ID_LENGTH
    else if op in {0x9E, 0x90, 0x72, 0x7A} then 1
    else PHYSICAL_ADDRESS_LENGTH
  }

  function OneOperandMessage(op: Byte, operand: Operand): Message
  {
    match op
    case 0x82 => ActiveSource(operand)
    case 0x9D => InActiveSource(operand)
    case 0x81 => RoutingInformation(operand)
    case 0x86 => SetStreamPath(operand)
    case 0x9E => CECVersion(operand)
    case 0x90 => ReportPowerStatus(operand)
    case 0x72 => SetSystemAudioMode(operand)
    case 0x7A => ReportAudioStatus(operand)
    case 0x32 => SetMenuLanguage(operand)
    case 0x87 => DeviceVendorID(operand)
    case 0x64 => SetOSDString(operand)
    case 0x47 => SetOSDName(operand)
    case _ => SystemAudioModeRequest(operand)
  }

  /** The thirteen one-operand cases of the switch differ in class and length limit only. */
  lemma ParseOneOperand(op: Byte, body: seq<Byte>)
    requires TakesOneOperand(op)
    ensures ParseMessage(op, body) ==
            var operand :- ParseOperand(body, 0, MaxLength(op)); Parsed(Call(OneOperandMessage(op, operand)))
  {
    hide ParseOperand, ParseOperands, BareMessage;
  }

  lemma AddressRoundTrips(m: Message)
    requires m.ActiveSource? || m.InActiveSource? || m.RoutingInformation? || m.SetStreamPath?
    ensures BodyRoundTrips(m)
  {
    hide ParseMessage, ParseOperand;
    ParseOneOperand(OpCode(m), OperandBytes(m));
    LastOperand([], OperandBytes(m), PHYSICAL_ADDRESS_LENGTH);
    assert [] + OperandBytes(m) == OperandBytes(m);
  }

  lemma OctetRoundTrips(m: Message)
    requires m.CECVersion? || m.ReportPowerStatus? || m.SetSystemAudioMode? || m.ReportAudioStatus?
    ensures BodyRoundTrips(m)
  {
    hide ParseMessage, ParseOperand;
    ParseOneOperand(OpCode(m), OperandBytes(m));
    LastOperand([], OperandBytes(m), 1);
    assert [] + OperandBytes(m) == OperandBytes(m);
  }

  lemma TextRoundTrips(m: Message)
    requires m.SetMenuLanguage? || m.DeviceVendorID? || m.SetOSDString? || m.SetOSDName?
    ensures BodyRoundTrips(m)
  {
    hide ParseMessage, ParseOperand;
    ParseOneOperand(OpCode(m), OperandBytes(m));
    LastOperand([], OperandBytes(m), MaxLength(OpCode(m)));
    assert [] + OperandBytes(m) == OperandBytes(m);
  }

  lemma AudioModeRoundTrips(m: Message)
    requires m.SystemAudioModeRequest? && Encodable(m)
    ensures BodyRoundTrips(m)
  {
    hide ParseMessage, ParseOperand;
    ParseOneOperand(OpCode(m), OperandBytes(m));
    LastOperand([], OperandBytes(m), PHYSICAL_ADDRESS_LENGTH);
    assert [] + OperandBytes(m) == OperandBytes(m);
  }

  lemma PhysicalAddressRoundTrips(m: Message)
    requires m.ReportPhysicalAddress?
    ensures BodyRoundTrips(m)
  {
    var body := m.address + m.deviceType;
    if |m.address| == PHYSICAL_ADDRESS_LENGTH {
      LastOperand(m.address, m.deviceType, 1);
      assert body[0..2] == m.address;
    }
    assert OpCode(m) == 0x84 && OperandBytes(m) == body;
  }

  lemma RoutingRoundTrips(m: Message)
    requires m.RoutingChange?
    ensures BodyRoundTrips(m)
  {
    if |m.source| == PHYSICAL_ADDRESS_LENGTH {
      LastOperand(m.source, m.sink, PHYSICAL_ADDRESS_LENGTH);
      assert OperandBytes(m)[0..2] == m.source;
    }
  }

  lemma AbortRoundTrips(m: Message)
    requires m.FeatureAbort?
    ensures BodyRoundTrips(m)
  {
    if m.feature < 0x100 {
      LastOperand([m.feature], m.reason, 1);
    }
  }

  lemma FormatsRoundTrip(m: Message)
    requires m.RequestShortAudioDescriptor?
    ensures BodyRoundTrips(m)
  {
    hide ParseMessage;
    var body := OperandBytes(m);
    var n := Min(MAX_FORMATS, |body|);
    ParseOperandsCuts(body, 0, 1, n, n);
    if AllOfLength(m.formats, 1) {
      ParseOperandsOfConcat([], m.formats, 1);
      assert [] + body == body;
    }
    var parsed := ParseOperands(body, 0, 1, n).value;
    assert parsed == m.formats <==> Canonical(m);
    ParseFormats(body, parsed);
  }

  lemma DescriptorsRoundTrip(m: Message)
    requires m.ReportShortAudioDescriptor?
    ensures BodyRoundTrips(m)
  {
    hide ParseMessage;
    var body := OperandBytes(m);
    var n := |body| / DESCRIPTOR_LENGTH;
    ParseOperandsCuts(body, 0, DESCRIPTOR_LENGTH, n, DESCRIPTOR_LENGTH * n);
    if AllOfLength(m.descriptors, DESCRIPTOR_LENGTH) {
      ParseOperandsOfConcat([], m.descriptors, DESCRIPTOR_LENGTH);
      assert [] + body == body;
    }
    var parsed := ParseOperands(body, 0, DESCRIPTOR_LENGTH, n).value;
    assert parsed == m.descriptors <==> Canonical(m);
    ParseDescriptors(body, parsed);
  }

  predicate Bare(m: Message)
  {
    match m
    case ImageViewOn | TextViewOn | RequestActiveSource | Standby | GetCECVersion | GiveOSDName
       | GivePhysicalAddress | GiveDeviceVendorID | GetMenuLanguage | GiveDevicePowerStatus
       | Abort | InitiateArc | TerminateArc => true
    case _ => !Dispatched(m)
  }

  lemma BareRoundTrips(m: Message)
    requires Bare(m)
    ensures BodyRoundTrips(m)
  {
    hide ParseMessage, OperandBytes;
    BareOpCode(m);
    ParseBare(OpCode(m) % 0x100, OperandBytes(m));
  }

  lemma BareOpCode(m: Message)
    requires Bare(m)
    ensures !TakesOperands(OpCode(m) % 0x100)
    ensures BareMessage(OpCode(m) % 0x100) == if Dispatched(m) then Call(m) else NoCall
  {
    hide OpCode, BareMessage, TakesOperands;
    if Dispatched(m) {
      BareClass(m);
    } else {
      EncoderOnlyClass(m);
    }
  }

  lemma BareClass(m: Message)
    requires Bare(m) && Dispatched(m)
    ensures OpCode(m) < 0x100 && BareMessage(OpCode(m)) == Call(m) && !TakesOperands(OpCode(m))
  {
  }

  lemma EncoderOnlyClass(m: Message)
    requires !Dispatched(m)
    ensures OpCode(m) < 0x100 && BareMessage(OpCode(m)) == NoCall && !TakesOperands(OpCode(m))
  {
  }

  predicate TakesOperands(op: Byte)
  {
    op in {0x82, 0x9D, 0x9E, 0x32, 0x84, 0x80, 0x81, 0x86, 0x87, 0x64, 0x47, 0x90, 0x00, 0xA4, 0xA3, 0x70, 0x72, 0x7A}
  }

  lemma ParseBare(op: Byte, body: seq<Byte>)
    requires !TakesOperands(op)
    ensures ParseMessage(op, body) == Parsed(BareMessage(op))
  {
    hide BareMessage, ParseOperand, ParseOperands;
  }

  lemma ParseFormats(body: seq<Byte>, formats: seq<Operand>)
    requires ParseOperands(body, 0, 1, Min(MAX_FORMATS, |body|)) == Parsed(formats)
    ensures ParseMessage(0xA4, body) == Parsed(Call(RequestShortAudioDescriptor(formats)))
  {
    hide BareMessage, ParseOperand, ParseOperands;
  }

  lemma ParseDescriptors(body: seq<Byte>, descriptors: seq<Operand>)
    requires ParseOperands(body, 0, DESCRIPTOR_LENGTH, |body| / DESCRIPTOR_LENGTH) == Parsed(descriptors)
    ensures ParseMessage(0xA3, body) == Parsed(Call(ReportShortAudioDescriptor(descriptors)))
  {
    hide BareMessage, ParseOperand, ParseOperands;
  }

  lemma AllBodiesRoundTrip(m: Message)
    requires Encodable(m) && m != Polling
    ensures BodyRoundTrips(m)
  {
    hide ParseMessage, BodyRoundTrips, OperandBytes, OpCode, Canonical;
    match m
    case ActiveSource(_) => AddressRoundTrips(m);
    case InActiveSource(_) => AddressRoundTrips(m);
    case RoutingInformation(_) => AddressRoundTrips(m);
    case SetStreamPath(_) => AddressRoundTrips(m);
    case CECVersion(_) => OctetRoundTrips(m);
    case ReportPowerStatus(_) => OctetRoundTrips(m);
    case SetSystemAudioMode(_) => OctetRoundTrips(m);
    case ReportAudioStatus(_) => OctetRoundTrips(m);
    case SetMenuLanguage(_) => TextRoundTrips(m);
    case DeviceVendorID(_) => TextRoundTrips(m);
    case SetOSDString(_) => TextRoundTrips(m);
    case SetOSDName(_) => TextRoundTrips(m);
    case SystemAudioModeRequest(_) => AudioModeRoundTrips(m);
    case ReportPhysicalAddress(_, _) => PhysicalAddressRoundTrips(m);
    case RoutingChange(_, _) => RoutingRoundTrips(m);
    case FeatureAbort(_, _) => AbortRoundTrips(m);
    case RequestShortAudioDescriptor(_) => FormatsRoundTrip(m);
    case ReportShortAudioDescriptor(_) => DescriptorsRoundTrip(m);
    case _ => BareRoundTrips(m);
  }

  /**
    * Decoding what was encoded makes one process call with the same header and message exactly
    * when both addresses are four-bit numbers and the message is canonical.
    */
  lemma DecodeAfterEncode(h: Header, m: Message)
    requires Encodable(m)
    ensures Decode(Encode(h, m)) == Processed(h, m) <==> h.from < 0x10 && h.to < 0x10 && Canonical(m)
  {
    hide ParseMessage, Pack, OpCode;
    HeaderRoundTrips(h);
    if m != Polling {
      hide OperandBytes, Canonical;
      assert OpCode(m) != POLLING by { NotPolling(m); }
      assert Encode(h, m)[2..] == OperandBytes(m);
      AllBodiesRoundTrip(m);
    } else {
      assert OpCode(m) == POLLING by { NotPolling(m); }
    }
  }

  lemma NotPolling(m: Message)
    ensures OpCode(m) == POLLING <==> m == Polling
  {
  }

  lemma HeaderRoundTrips(h: Header)
    ensures DecodeHeader(Pack(h.from, h.to)) == h <==> h.from < 0x10 && h.to < 0x10
  {
    hide Pack;
    if h.from < 0x10 && h.to < 0x10 {
      PackedNibbles(h.from, h.to);
    }
  }

  /** Every canonical message fits the frame buffer if its descriptors do: at most 42 of them. */
  lemma CanonicalFits(h: Header, m: Message)
    requires Encodable(m) && Canonical(m)
    ensures |Encode(h, m)| <= MAX_LENGTH <==> (m.ReportShortAudioDescriptor? ==> |m.descriptors| <= 42)
  {
    if m.ReportShortAudioDescriptor? {
      ParseOperandsOfConcat([], m.descriptors, DESCRIPTOR_LENGTH);
    } else if m.RequestShortAudioDescriptor? {
      ParseOperandsOfConcat([], m.formats, 1);
    }
  }

  /** The address F.F.F.F is sent as no operand at all, which the decoder refuses. */
  lemma UnspecifiedAddressIsLost(h: Header)
    ensures var m := SystemAudioModeRequest([0xFF, 0xFF]);
            Encodable(m) && Decode(Encode(h, m)) == Nothing
  {
    assert Encode(h, SystemAudioModeRequest([0xFF, 0xFF]))[2..] == [];
  }

  /** The classes the decoder never builds are never dispatched as anything else either. */
  lemma EncoderOnlyMessagesAreIgnored(h: Header, m: Message)
    requires !Dispatched(m)
    ensures Decode(Encode(h, m)) == Nothing
  {
    hide ParseMessage, OperandBytes;
    BareOpCode(m);
    assert Encode(h, m)[2..] == OperandBytes(m);
    ParseBare(OpCode(m) % 0x100, OperandBytes(m));
  }

  // ------------------------------------------------------------- encode after decode

  /** How many operand octets of an `n`-octet body the decoder keeps. */
  function Kept(m: Message, n: nat): nat
  {
    match m
    case ActiveSource(_) => Min(n, PHYSICAL_ADDRESS_LENGTH)
    case InActiveSource(_) => Min(n, PHYSICAL_ADDRESS_LENGTH)
    case CECVersion(_) => Min(n, 1)
    case SetMenuLanguage(_) => Min(n, LANGUAGE_LENGTH)
    case ReportPhysicalAddress(_, _) => Min(n, 3)
    case RoutingChange(_, _) => Min(n, 4)
    case RoutingInformation(_) => Min(n, PHYSICAL_ADDRESS_LENGTH)
    case SetStreamPath(_) => Min(n, PHYSICAL_ADDRESS_LENGTH)
    case DeviceVendorID(_) => Min(n, VENDOR_ID_LENGTH)
    case SetOSDString(_) => Min(n, OSD_STRING_LENGTH)
    case SetOSDName(_) => Min(n, OSD_NAME_LENGTH)
    case ReportPowerStatus(_) => Min(n, 1)
    case FeatureAbort(_, _) => Min(n, 2)
    case RequestShortAudioDescriptor(_) => Min(n, MAX_FORMATS)
    case ReportShortAudioDescriptor(_) => n / DESCRIPTOR_LENGTH * DESCRIPTOR_LENGTH
    case SystemAudioModeRequest(address) =>
      if |address| >= 2 && IsUnspecified(address) then 0 else Min(n, PHYSICAL_ADDRESS_LENGTH)
    case SetSystemAudioMode(_) => Min(n, 1)
    case ReportAudioStatus(_) => Min(n, 1)
    case _ => 0
  }

  /**
    * What `op` parses out of `body` serializes, under the same opcode, to the first `Kept` octets
    * of `body`, and is canonical unless it is the unspecified audio-mode request.
    */
  ghost predicate Reserializes(op: Byte, body: seq<Byte>)
  {
    ParseMessage(op, body).Parsed? && ParseMessage(op, body).value.Call?
      && Encodable(ParseMessage(op, body).value.message)
    ==>
      var m := ParseMessage(op, body).value.message;
      && OpCode(m) == op
      && Kept(m, |body|) <= |body|
      && OperandBytes(m) == body[..Kept(m, |body|)]
      && (Canonical(m) <==> !(m.SystemAudioModeRequest? && IsUnspecified(m.address)))
  }

  lemma SingleReserializes(op: Byte, body: seq<Byte>)
    requires TakesOneOperand(op)
    ensures Reserializes(op, body)
  {
    hide ParseMessage;
    ParseOneOperand(op, body);
  }

  lemma PairReserializes(op: Byte, body: seq<Byte>)
    requires op in {0x84, 0x80, 0x00}
    ensures Reserializes(op, body)
  {
    if op == 0x00 && |body| > 1 {
      assert body[..2] == [body[0]] + body[1..2];
    } else if |body| > 2 {
      assert body[..3] == body[..2] + body[2..3];
      assert body[..Min(|body|, 4)] == body[..2] + body[2..Min(|body|, 4)];
    }
  }

  lemma DescriptorsReserialize(op: Byte, body: seq<Byte>)
    requires op in {0xA4, 0xA3}
    ensures Reserializes(op, body)
  {
    if op == 0xA4 {
      var n := Min(MAX_FORMATS, |body|);
      ParseOperandsCuts(body, 0, 1, n, n);
    } else {
      var n := |body| / DESCRIPTOR_LENGTH;
      ParseOperandsCuts(body, 0, DESCRIPTOR_LENGTH, n, DESCRIPTOR_LENGTH * n);
    }
  }

  lemma AllReserialize(op: Byte, body: seq<Byte>)
    ensures Reserializes(op, body)
  {
    if TakesOneOperand(op) {
      SingleReserializes(op, body);
    } else if op in {0x84, 0x80, 0x00} {
      PairReserializes(op, body);
    } else if op in {0xA4, 0xA3} {
      DescriptorsReserialize(op, body);
    } else {
      hide ParseMessage;
      ParseBare(op, body);
    }
  }

  lemma ReencodesBody(op: Byte, body: seq<Byte>, m: Message, h: Header)
    requires ParseMessage(op, body) == Parsed(Call(m)) && Encodable(m)
    ensures Kept(m, |body|) <= |body|
    ensures m != Polling && Encode(h, m) == [Pack(h.from, h.to), op] + body[..Kept(m, |body|)]
    ensures Canonical(m) <==> !(m.SystemAudioModeRequest? && IsUnspecified(m.address))
  {
    hide ParseMessage, OperandBytes, Kept, Canonical;
    AllReserialize(op, body);
    assert OpCode(m) == op;
    assert [Pack(h.from, h.to)] + [op] == [Pack(h.from, h.to), op];
  }

  /**
    * Re-encoding a dispatched frame gives a prefix of it, of exactly the length the message class
    * keeps; decoding that prefix gives the same call again, the F.F.F.F request alone excepted.
    */
  lemma EncodeAfterDecode(frame: seq<Byte>)
    requires Decode(frame).Processed? && Encodable(Decode(frame).message)
    ensures var Processed(h, m) := Decode(frame);
            && Encode(h, m) <= frame
            && (m != Polling ==> |Encode(h, m)| == 2 + Kept(m, |frame| - 2))
            && (Decode(Encode(h, m)) == Processed(h, m)
                <==> !(m.SystemAudioModeRequest? && IsUnspecified(m.address)))
  {
    var Processed(h, m) := Decode(frame);
    PackOfNibbles(frame[0]);
    DecodeAfterEncode(h, m);
    if |frame| > 1 {
      ReencodesBody(frame[1], frame[2..], m, h);
      assert frame == [frame[0], frame[1]] + frame[2..];
    }
  }

  /** A dispatched frame cannot be encoded again only if it is a one-octet audio-mode request. */
  lemma DispatchedIsEncodable(frame: seq<Byte>)
    requires Decode(frame).Processed?
    ensures Encodable(Decode(frame).message) <==> !(|frame| == 3 && frame[1] == 0x70)
  {
  }

  /** The pointer wrap-around is reached exactly by one operand octet where two operands are due. */
  lemma UndefinedExactly(frame: seq<Byte>)
    ensures Decode(frame).Undefined? <==> |frame| == 3 && (frame[1] == 0x84 || frame[1] == 0x80)
  {
    if |frame| > 1 {
      var body := frame[2..];
      ParseOperandsCuts(body, 0, 1, Min(MAX_FORMATS, |body|), Min(MAX_FORMATS, |body|));
      var n := |body| / DESCRIPTOR_LENGTH;
      ParseOperandsCuts(body, 0, DESCRIPTOR_LENGTH, n, DESCRIPTOR_LENGTH * n);
    }
  }
}
