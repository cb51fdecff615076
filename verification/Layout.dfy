/**
  * The wire format, octet by octet: which octets of a frame the decoder makes each operand of, and
  * which octets the encoder writes for each message.
  */
module Layout {
  import opened Bytes
  import opened Frames
  import opened Messages
  import opened Codec

  /** At most `n` octets of the frame, from the octet `start` on. */
  function Octets(frame: seq<Byte>, start: nat, n: nat): seq<Byte>
    requires start <= |frame|
  {
    if start + n <= |frame| then frame[start..start + n] else frame[start..]
  }

  /** The message was dispatched with the two addresses of the header octet. */
  predicate Reads(frame: seq<Byte>, m: Message)
    requires frame != []
  {
    Decode(frame) == Processed(Header(frame[0] / 16, frame[0] % 16), m)
  }

  // ------------------------------------------------------------- the decoder

  lemma ReadsOne(frame: seq<Byte>)
    requires |frame| >= 3 && TakesOneOperand(frame[1])
    ensures Reads(frame, OneOperandMessage(frame[1], Octets(frame, 2, MaxLength(frame[1]))))
  {
    hide ParseMessage, OneOperandMessage;
    ParseOneOperand(frame[1], frame[2..]);
    var n := MaxLength(frame[1]);
    assert Octets(frame, 2, n) == frame[2..][..if n <= |frame| - 2 then n else |frame| - 2];
  }

  /** The classes with one operand that is an address, in the octets 2 and 3. */
  lemma ReadsAddress(frame: seq<Byte>)
    requires |frame| >= 3
    ensures frame[1] == 0x82 ==> Reads(frame, ActiveSource(Octets(frame, 2, 2)))
    ensures frame[1] == 0x9D ==> Reads(frame, InActiveSource(Octets(frame, 2, 2)))
    ensures frame[1] == 0x81 ==> Reads(frame, RoutingInformation(Octets(frame, 2, 2)))
    ensures frame[1] == 0x86 ==> Reads(frame, SetStreamPath(Octets(frame, 2, 2)))
    ensures frame[1] == 0x70 ==> Reads(frame, SystemAudioModeRequest(Octets(frame, 2, 2)))
  {
    hide Reads, Octets;
    if TakesOneOperand(frame[1]) {
      ReadsOne(frame);
    }
  }

  /** The classes with one operand of another kind, from octet 2 on. */
  lemma ReadsValue(frame: seq<Byte>)
    requires |frame| >= 3
    ensures frame[1] == 0x9E ==> Reads(frame, CECVersion([frame[2]]))
    ensures frame[1] == 0x90 ==> Reads(frame, ReportPowerStatus([frame[2]]))
    ensures frame[1] == 0x72 ==> Reads(frame, SetSystemAudioMode([frame[2]]))
    ensures frame[1] == 0x7A ==> Reads(frame, ReportAudioStatus([frame[2]]))
    ensures frame[1] == 0x32 ==> Reads(frame, SetMenuLanguage(Octets(frame, 2, 3)))
    ensures frame[1] == 0x87 ==> Reads(frame, DeviceVendorID(Octets(frame, 2, 3)))
    ensures frame[1] == 0x64 ==> Reads(frame, SetOSDString(Octets(frame, 2, 13)))
    ensures frame[1] == 0x47 ==> Reads(frame, SetOSDName(Octets(frame, 2, 14)))
  {
    hide Reads;
    assert Octets(frame, 2, 1) == [frame[2]];
    hide Octets;
    if TakesOneOperand(frame[1]) {
      ReadsOne(frame);
    }
  }

  /** The classes with two operands, the second behind the first. */
  lemma ReadsPair(frame: seq<Byte>)
    requires |frame| >= 2
    ensures frame[1] == 0x00 && |frame| >= 4 ==> Reads(frame, FeatureAbort(frame[2], [frame[3]]))
    ensures frame[1] == 0x84 && |frame| >= 5 ==> Reads(frame, ReportPhysicalAddress(frame[2..4], [frame[4]]))
    ensures frame[1] == 0x80 && |frame| >= 5 ==> Reads(frame, RoutingChange(frame[2..4], Octets(frame, 4, 2)))
  {
    hide BareMessage, ParseOperands;
    var body := frame[2..];
    if |frame| >= 4 {
      assert body[1..2] == [frame[3]];
    }
    if |frame| >= 5 {
      assert body[0..2] == frame[2..4] && body[2..3] == [frame[4]];
      assert Octets(frame, 4, 2) == body[2..if 4 <= |body| then 4 else |body|];
    }
  }

  /** The classes with a list: up to four formats of one octet, or descriptors of three octets. */
  lemma ReadsList(frame: seq<Byte>, formats: seq<Operand>, descriptors: seq<Operand>)
    requires |frame| >= 2
    requires |formats| == if |frame| < 6 then |frame| - 2 else 4
    requires forall i | 0 <= i < |formats| :: formats[i] == [frame[2 + i]]
    requires |descriptors| == (|frame| - 2) / 3
    requires forall i | 0 <= i < |descriptors| :: descriptors[i] == frame[2 + 3 * i..5 + 3 * i]
    ensures frame[1] == 0xA4 ==> Reads(frame, RequestShortAudioDescriptor(formats))
    ensures frame[1] == 0xA3 ==> Reads(frame, ReportShortAudioDescriptor(descriptors))
  {
    hide ParseMessage;
    var body := frame[2..];
    if frame[1] == 0xA4 {
      CutsFormats(body, 0, formats);
      ParseFormats(body, formats);
    } else if frame[1] == 0xA3 {
      forall i | 0 <= i < |descriptors|
        ensures descriptors[i] == body[3 * i..3 * i + 3]
      {
        assert descriptors[i] == frame[2 + 3 * i..5 + 3 * i];
      }
      CutsDescriptors(body, 0, descriptors);
      ParseDescriptors(body, descriptors);
    }
  }

  lemma {:induction false} CutsFormats(body: seq<Byte>, start: nat, formats: seq<Operand>)
    requires start + |formats| <= |body|
    requires forall i | 0 <= i < |formats| :: formats[i] == [body[start + i]]
    ensures ParseOperands(body, start, 1, |formats|) == Parsed(formats)
    decreases |formats|
  {
    if formats != [] {
      CutsFormats(body, start + 1, formats[1..]);
      assert formats[0] == body[start..start + 1];
      assert formats == [formats[0]] + formats[1..];
    }
  }

  lemma {:induction false} CutsDescriptors(body: seq<Byte>, start: nat, descriptors: seq<Operand>)
    requires start + 3 * |descriptors| <= |body|
    requires forall i | 0 <= i < |descriptors| :: descriptors[i] == body[start + 3 * i..start + 3 * i + 3]
    ensures ParseOperands(body, start, 3, |descriptors|) == Parsed(descriptors)
    decreases |descriptors|
  {
    if descriptors != [] {
      var rest := descriptors[1..];
      forall i | 0 <= i < |rest|
        ensures rest[i] == body[start + 3 + 3 * i..start + 3 + 3 * i + 3]
      {
        assert rest[i] == descriptors[i + 1];
      }
      CutsDescriptors(body, start + 3, rest);
      assert descriptors[0] == body[start + 3 * 0..start + 3 * 0 + 3];
      assert descriptors == [descriptors[0]] + rest;
    }
  }

  /** The classes without operands, whatever follows the opcode. */
  lemma ReadsBare(frame: seq<Byte>)
    requires |frame| >= 2
    ensures frame[1] == 0x04 ==> Reads(frame, ImageViewOn)
    ensures frame[1] == 0x0D ==> Reads(frame, TextViewOn)
    ensures frame[1] == 0x85 ==> Reads(frame, RequestActiveSource)
    ensures frame[1] == 0x36 ==> Reads(frame, Standby)
    ensures frame[1] == 0x9F ==> Reads(frame, GetCECVersion)
    ensures frame[1] == 0x46 ==> Reads(frame, GiveOSDName)
    ensures frame[1] == 0x83 ==> Reads(frame, GivePhysicalAddress)
    ensures frame[1] == 0x8C ==> Reads(frame, GiveDeviceVendorID)
    ensures frame[1] == 0x91 ==> Reads(frame, GetMenuLanguage)
    ensures frame[1] == 0x8F ==> Reads(frame, GiveDevicePowerStatus)
    ensures frame[1] == 0xFF ==> Reads(frame, Abort)
    ensures frame[1] == 0xC0 ==> Reads(frame, InitiateArc)
    ensures frame[1] == 0xC5 ==> Reads(frame, TerminateArc)
  {
    hide ParseMessage;
    if !TakesOperands(frame[1]) {
      ParseBare(frame[1], frame[2..]);
    }
  }

  /** The opcodes the decoder knows. */
  predicate Known(op: Byte)
  {
    TakesOperands(op)
    || op in {0x04, 0x0D, 0x85, 0x36, 0x9F, 0x46, 0x83, 0x8C, 0x91, 0x8F, 0xFF, 0xC0, 0xC5}
  }

  /** How many octets a frame of a known class must have. */
  function Needs(op: Byte): nat
  {
    if op == 0x84 || op == 0x80 then 5
    else if op == 0x00 then 4
    else if TakesOneOperand(op) then 3
    else 2
  }

  /** Something is read exactly from a poll and from a frame of a known class with enough octets. */
  lemma ReadsExactly(frame: seq<Byte>)
    ensures Decode(frame).Processed? <==> |frame| == 1 || (|frame| > 1 && Known(frame[1]) && |frame| >= Needs(frame[1]))
    ensures frame == [] <==> Decode(frame).Throws?
    ensures |frame| == 1 ==> Reads(frame, Polling)
  {
    if |frame| > 1 {
      var op, body := frame[1], frame[2..];
      if TakesOneOperand(op) {
        hide ParseMessage, OneOperandMessage;
        ParseOneOperand(op, body);
      } else if op in {0x84, 0x80, 0x00} {
        hide ParseOperands, BareMessage;
      } else if op in {0xA4, 0xA3} {
        ParseOperandsCuts(body, 0, 1, Min(4, |body|), Min(4, |body|));
        ParseOperandsCuts(body, 0, 3, |body| / 3, 3 * (|body| / 3));
        hide ParseOperands, BareMessage;
      } else {
        hide ParseMessage;
        ParseBare(op, body);
      }
    }
  }

  // ------------------------------------------------------------- the encoder

  /** The first octet of a frame holds the initiator, then the destination. */
  lemma WritesHeader(h: Header, m: Message)
    requires Encodable(m)
    ensures |Encode(h, m)| >= 1
    ensures h.from < 16 && h.to < 16 ==> Encode(h, m)[0] == 16 * h.from + h.to
  {
    hide Pack, OpCode, OperandBytes;
    if h.from < 16 && h.to < 16 {
      PackedNibbles(h.from, h.to);
    }
  }

  /** What follows the header octet. */
  function Tail(h: Header, m: Message): seq<Byte>
    requires Encodable(m)
  {
    Encode(h, m)[1..]
  }

  lemma TailIs(h: Header, m: Message)
    requires Encodable(m)
    ensures Tail(h, m) == OpCodeBytes(OpCode(m)) + OperandBytes(m)
  {
    hide Pack, OpCode, OperandBytes;
  }

  lemma Writes(h: Header, m: Message, op: Byte, rest: seq<Byte>)
    requires Encodable(m) && OpCode(m) == op && OperandBytes(m) == rest
    ensures Tail(h, m) == [op] + rest
  {
    TailIs(h, m);
  }

  lemma WritesNothing(h: Header, m: Message, op: Byte)
    requires Encodable(m) && OpCode(m) == op && OperandBytes(m) == []
    ensures Tail(h, m) == [op]
  {
    Writes(h, m, op, []);
    assert [op] + [] == [op];
  }

  /** The classes with one operand: the opcode, and then the operand. */
  lemma WritesAddress(h: Header, o: Operand)
    ensures Tail(h, ActiveSource(o)) == [0x82] + o
    ensures Tail(h, InActiveSource(o)) == [0x9D] + o
    ensures Tail(h, RoutingInformation(o)) == [0x81] + o
    ensures Tail(h, SetStreamPath(o)) == [0x86] + o
  {
    hide Tail, IsUnspecified;
    Writes(h, ActiveSource(o), 0x82, o);
    Writes(h, InActiveSource(o), 0x9D, o);
    Writes(h, RoutingInformation(o), 0x81, o);
    Writes(h, SetStreamPath(o), 0x86, o);
  }

  lemma WritesOctet(h: Header, o: Operand)
    ensures Tail(h, CECVersion(o)) == [0x9E] + o
    ensures Tail(h, ReportPowerStatus(o)) == [0x90] + o
    ensures Tail(h, SetSystemAudioMode(o)) == [0x72] + o
    ensures Tail(h, ReportAudioStatus(o)) == [0x7A] + o
    ensures Tail(h, UserControlPressed(o)) == [0x44] + o
  {
    hide Tail, IsUnspecified;
    Writes(h, CECVersion(o), 0x9E, o);
    Writes(h, ReportPowerStatus(o), 0x90, o);
    Writes(h, SetSystemAudioMode(o), 0x72, o);
    Writes(h, ReportAudioStatus(o), 0x7A, o);
    Writes(h, UserControlPressed(o), 0x44, o);
  }

  lemma WritesText(h: Header, o: Operand)
    ensures Tail(h, SetMenuLanguage(o)) == [0x32] + o
    ensures Tail(h, DeviceVendorID(o)) == [0x87] + o
    ensures Tail(h, SetOSDString(o)) == [0x64] + o
    ensures Tail(h, SetOSDName(o)) == [0x47] + o
  {
    hide Tail, IsUnspecified;
    Writes(h, SetMenuLanguage(o), 0x32, o);
    Writes(h, DeviceVendorID(o), 0x87, o);
    Writes(h, SetOSDString(o), 0x64, o);
    Writes(h, SetOSDName(o), 0x47, o);
  }

  /** The address F.F.F.F is written as no octet at all. */
  lemma WritesAudioMode(h: Header, o: Operand)
    requires |o| >= 2
    ensures Tail(h, SystemAudioModeRequest(o)) == [0x70] + if o[0] == o[1] == 0xFF then [] else o
  {
    hide Tail;
    Writes(h, SystemAudioModeRequest(o), 0x70, if o[0] == o[1] == 0xFF then [] else o);
  }

  lemma WritesPair(h: Header, a: Operand, b: Operand, op: Op)
    ensures Tail(h, ReportPhysicalAddress(a, b)) == [0x84] + a + b
    ensures Tail(h, RoutingChange(a, b)) == [0x80] + a + b
    ensures Tail(h, FeatureAbort(op, b)) == [0x00] + (if op == 0x200 then [] else [op % 256]) + b
  {
    hide Tail, IsUnspecified;
    Writes(h, ReportPhysicalAddress(a, b), 0x84, a + b);
    Writes(h, RoutingChange(a, b), 0x80, a + b);
    Writes(h, FeatureAbort(op, b), 0x00, OpCodeBytes(op) + b);
    assert [0x84] + a + b == [0x84] + (a + b) && [0x80] + a + b == [0x80] + (a + b);
    assert [0x00] + OpCodeBytes(op) + b == [0x00] + (OpCodeBytes(op) + b);
  }

  /** The operands of a list follow each other, all of one length here. */
  lemma WritesList(h: Header, operands: seq<Operand>, width: nat, i: nat)
    requires width > 0 && AllOfLength(operands, width) && i < |operands|
    ensures Tail(h, RequestShortAudioDescriptor(operands))[0] == 0xA4
    ensures Tail(h, ReportShortAudioDescriptor(operands))[0] == 0xA3
    ensures |Tail(h, RequestShortAudioDescriptor(operands))| == 1 + width * |operands|
    ensures Tail(h, ReportShortAudioDescriptor(operands))[1..] == Tail(h, RequestShortAudioDescriptor(operands))[1..]
    ensures 1 + width * i + width <= 1 + width * |operands|
    ensures Tail(h, ReportShortAudioDescriptor(operands))[1 + width * i..1 + width * i + width] == operands[i]
  {
    hide Tail, AllOfLength;
    Writes(h, RequestShortAudioDescriptor(operands), 0xA4, Concat(operands));
    Writes(h, ReportShortAudioDescriptor(operands), 0xA3, Concat(operands));
    hide Concat;
    PieceAt(operands, width, i);
  }

  lemma {:induction false} PieceAt(operands: seq<Operand>, width: nat, i: nat)
    requires width > 0 && AllOfLength(operands, width) && i < |operands|
    ensures |Concat(operands)| == width * |operands|
    ensures 0 <= width * i <= width * |operands| - width
    ensures Concat(operands)[width * i..width * i + width] == operands[i]
    decreases |operands|
  {
    ParseOperandsOfConcat([], operands, width);
    var rest := operands[1..];
    ParseOperandsOfConcat([], rest, width);
    if i > 0 {
      PieceAt(rest, width, i - 1);
      assert width * i == width + width * (i - 1);
      assert Concat(operands)[width * i..width * i + width] == Concat(rest)[width * (i - 1)..width * (i - 1) + width];
    }
  }

  /** The classes without operands: the opcode alone. */
  lemma WritesRequest(h: Header)
    ensures Tail(h, ImageViewOn) == [0x04]
    ensures Tail(h, TextViewOn) == [0x0D]
    ensures Tail(h, RequestActiveSource) == [0x85]
    ensures Tail(h, Standby) == [0x36]
    ensures Tail(h, GetCECVersion) == [0x9F]
    ensures Tail(h, GiveOSDName) == [0x46]
    ensures Tail(h, Abort) == [0xFF]
  {
    hide Tail, IsUnspecified;
    WritesNothing(h, ImageViewOn, 0x04);
    WritesNothing(h, TextViewOn, 0x0D);
    WritesNothing(h, RequestActiveSource, 0x85);
    WritesNothing(h, Standby, 0x36);
    WritesNothing(h, GetCECVersion, 0x9F);
    WritesNothing(h, GiveOSDName, 0x46);
    WritesNothing(h, Abort, 0xFF);
  }

  lemma WritesGive(h: Header)
    ensures Tail(h, GivePhysicalAddress) == [0x83]
    ensures Tail(h, GiveDeviceVendorID) == [0x8C]
    ensures Tail(h, GetMenuLanguage) == [0x91]
    ensures Tail(h, GiveDevicePowerStatus) == [0x8F]
    ensures Tail(h, GiveAudioStatus) == [0x71]
    ensures Tail(h, UserControlReleased) == [0x45]
  {
    hide Tail, IsUnspecified;
    WritesNothing(h, GivePhysicalAddress, 0x83);
    WritesNothing(h, GiveDeviceVendorID, 0x8C);
    WritesNothing(h, GetMenuLanguage, 0x91);
    WritesNothing(h, GiveDevicePowerStatus, 0x8F);
    WritesNothing(h, GiveAudioStatus, 0x71);
    WritesNothing(h, UserControlReleased, 0x45);
  }

  lemma WritesArcInitiation(h: Header)
    ensures Tail(h, InitiateArc) == [0xC0]
    ensures Tail(h, RequestArcInitiation) == [0xC3]
    ensures Tail(h, ReportArcInitiation) == [0xC1]
  {
    hide Tail, IsUnspecified;
    WritesNothing(h, InitiateArc, 0xC0);
    WritesNothing(h, RequestArcInitiation, 0xC3);
    WritesNothing(h, ReportArcInitiation, 0xC1);
  }

  lemma WritesArcTermination(h: Header)
    ensures Tail(h, TerminateArc) == [0xC5]
    ensures Tail(h, RequestArcTermination) == [0xC4]
    ensures Tail(h, ReportArcTermination) == [0xC2]
  {
    hide Tail, IsUnspecified;
    WritesNothing(h, TerminateArc, 0xC5);
    WritesNothing(h, RequestArcTermination, 0xC4);
    WritesNothing(h, ReportArcTermination, 0xC2);
  }

  /** A poll is its header octet. */
  lemma WritesPoll(h: Header)
    ensures Tail(h, Polling) == []
  {
    TailIs(h, Polling);
  }
}
