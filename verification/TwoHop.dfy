/**
  * A transmission that crosses two processes: the client's driver packs the frame into an IARM
  * call, the daemon sends it on its own connection to the hardware driver, and the result travels
  * back as one octet.
  */
module TwoHop {
  import opened Bytes
  import opened Frames
  import opened BusProtocol
  import opened Drivers
  import opened Buses
  import opened Connections

  const DATA_LENGTH := 63

  /** IARM_Bus_CECMgr_Send_Param_t */
  class SendParam {
    const data: array<Byte>
    var length: Byte
    var retVal: Byte

    constructor ()
      ensures fresh(data) && data.Length == DATA_LENGTH && length == 0 && retVal == 0
    {
      data := new Byte[DATA_LENGTH](_ => 0);
      length := 0;
      retVal := 0;
    }
  }

  /** The octet the daemon answers with. */
  function RetVal(outcome: Outcome): Byte
  {
    match outcome
    case Done => SENT_AND_ACKD
    case NoAck => SENT_BUT_NOT_ACKD
    case _ => SENT_FAILED
  }

  /** What the daemon's own send ends with. */
  function DaemonOutcome(started: bool, status: Status, frame: Frame, reply: Reply): Outcome
    requires frame != []
  {
    if started then Attempt(status, frame, reply) else InvalidState
  }

  /** The native calls of the daemon's one attempt. */
  function Transmitted(started: bool, status: Status, frame: Frame): seq<NativeCall>
  {
    TxCalls(status, frame, if started then 1 else 0)
  }

  /** The client cannot tell a daemon that is not ready from a failed transmission. */
  function Seen(outcome: Outcome): Outcome { if outcome == InvalidState then IOFailure else outcome }

  /** Only the destination and the opcode decide what a transmission means. */
  lemma StampKeepsMeaning(frame: Frame, source: Byte, claimed: bool, started: bool, status: Status, reply: Reply)
    requires frame != []
    ensures var stamped := Stamped(frame, source, claimed);
            && stamped != []
            && DaemonOutcome(started, status, stamped, reply) == DaemonOutcome(started, status, frame, reply)
  {
    hide Pack;
    StampSetsInitiator(frame, source, claimed);
    var stamped := Stamped(frame, source, claimed);
    assert |frame| > 1 ==> stamped[1] == stamped[1..][0] == frame[1..][0] == frame[1];
  }

  /** The daemon's verdict survives its way through the answer octet. */
  lemma AnswerSurvives(frame: Frame, started: bool, status: Status, reply: Reply)
    requires frame != []
    ensures var o := DaemonOutcome(started, status, frame, reply); SendOutcome(frame, SUCCESS, RetVal(o)) == Seen(o)
  {
  }

  class Daemon {
    const bus: Bus<Connection>
    var connection: Connection?  // m_connection

    ghost predicate Valid()
      reads this, bus, bus.Parts(), connection
    {
      bus.Valid() && (connection != null ==> connection.bus == bus && connection.source == UNREGISTERED)
    }

    constructor (bus: Bus<Connection>)
      ensures this.bus == bus && connection == null
    {
      this.bus := bus;
      connection := null;
    }

    /**
      * `_Send`: the result is false when it returns IARM_RESULT_INVALID_STATE.  An empty frame makes
      * it throw at once, since it reads the header for its log.
      */
    method Send(param: SendParam, replies: nat -> Reply) returns (throws: bool, ok: bool)
      requires Valid() && param.data.Length == 63 && param.length <= 63
      modifies param`retVal, bus.driver`native
      ensures Valid()
      ensures throws <==> param.length == 0
      ensures ok <==> !throws && connection != null
      ensures !ok ==> bus.driver.native == old(bus.driver.native)
      ensures ok ==>
                var frame := Stamped(param.data[..param.length], UNREGISTERED, UNREGISTERED in bus.driver.addresses);
                && param.retVal == RetVal(DaemonOutcome(bus.started, bus.driver.status, frame, replies(0)))
                && (param.retVal == 1 <==> DaemonOutcome(bus.started, bus.driver.status, frame, replies(0)) == Done)
                && (param.retVal == 2 <==> DaemonOutcome(bus.started, bus.driver.status, frame, replies(0)) == NoAck)
                && 1 <= param.retVal <= 3
                && bus.driver.native == old(bus.driver.native) + Transmitted(bus.started, bus.driver.status, frame)
    {
      hide Stamped, SendOutcome;
      var frameIn := new CECFrame();
      var fits := frameIn.AppendBuffer(param.data, param.length);
      assert frameIn.Contents() == param.data[..param.length];
      var first := frameIn.At(0);
      if first == OutOfRange {
        return true, false;
      }
      if connection == null {
        return false, false;
      }
      var outcome, _, _ := connection.Send(frameIn, 0, replies);
      if outcome == Done {
        param.retVal := SENT_AND_ACKD;
      } else if outcome == NoAck {
        param.retVal := SENT_BUT_NOT_ACKD;
      } else {
        param.retVal := SENT_FAILED;
      }
      return false, true;
    }
  }

  /** HdmiCecTx of the IARM driver; `delivered` is whether the IARM bus could make the call. */
  method HdmiCecTx(daemon: Daemon, frame: Frame, delivered: bool, replies: nat -> Reply) returns (err: int, result: int)
    requires daemon.Valid() && 0 < |frame| <= 63
    modifies daemon.bus.driver`native
    ensures daemon.Valid()
    ensures err == if delivered && daemon.connection != null then 0 else 4
    ensures err != SUCCESS ==> daemon.bus.driver.native == old(daemon.bus.driver.native)
    ensures err == SUCCESS ==>
              var bus, sent := daemon.bus, Stamped(frame, UNREGISTERED, UNREGISTERED in daemon.bus.driver.addresses);
              && result == RetVal(DaemonOutcome(bus.started, bus.driver.status, sent, replies(0)))
              && bus.driver.native == old(daemon.bus.driver.native) + Transmitted(bus.started, bus.driver.status, sent)
  {
    hide Stamped;
    err, result := INVALID_STATE, SUCCESS;
    var param := new SendParam();
    param.length := |frame|;
    forall i | 0 <= i < |frame| {
      param.data[i] := frame[i];
    }
    assert param.data[..param.length] == frame;
    if delivered {
      var _, ok := daemon.Send(param, replies);
      if ok {
        err, result := SUCCESS, param.retVal;
      }
    }
  }

  /**
    * The client driver's write.  The hardware behind the daemon sees the client's octets, with
    * initiator 15 if the daemon has claimed 15, and the client gets the daemon's own verdict on the
    * transmission, except that it cannot see an InvalidState.  If the IARM call fails, or the daemon
    * has no connection, nothing reaches the hardware and the write fails; a client driver that is not
    * open makes no call at all.
    */
  method ClientWrite(client: DriverImpl, daemon: Daemon, frame: Frame, delivered: bool, reply: Reply)
      returns (outcome: Outcome)
    requires client.Valid() && daemon.Valid() && client != daemon.bus.driver
    requires 0 < |frame| <= 63
    modifies client`native, daemon.bus.driver`native
    ensures client.Valid() && daemon.Valid()
    ensures client.status != Opened ==> outcome == InvalidState
    ensures client.status == Opened && (!delivered || daemon.connection == null) ==> outcome == IOFailure
    ensures client.status != Opened || !delivered || daemon.connection == null ==>
              daemon.bus.driver.native == old(daemon.bus.driver.native)
    ensures client.status == Opened && delivered && daemon.connection != null ==>
              var bus, sent := daemon.bus, Stamped(frame, UNREGISTERED, UNREGISTERED in daemon.bus.driver.addresses);
              && outcome == Seen(DaemonOutcome(bus.started, bus.driver.status, frame, reply))
              && bus.driver.native == old(daemon.bus.driver.native) + Transmitted(bus.started, bus.driver.status, sent)
              && (sent == frame <==> UNREGISTERED !in bus.driver.addresses || High(frame[0]) == UNREGISTERED)
  {
    hide Stamped, SendOutcome, DaemonOutcome;
    if client.status != Opened {
      outcome := client.Write(frame, SUCCESS, SUCCESS);
      return;
    }
    var claimed := UNREGISTERED in daemon.bus.driver.addresses;
    StampSetsInitiator(frame, UNREGISTERED, claimed);
    StampKeepsMeaning(frame, UNREGISTERED, claimed, daemon.bus.started, daemon.bus.driver.status, reply);
    AnswerSurvives(frame, daemon.bus.started, daemon.bus.driver.status, reply);
    var err, result := HdmiCecTx(daemon, frame, delivered, _ => reply);
    outcome := client.Write(frame, err, result);
    if err != SUCCESS {
      FailedCall(frame, err, result);
    }
  }

  lemma FailedCall(frame: Frame, err: int, result: int)
    requires frame != [] && err != SUCCESS
    ensures SendOutcome(frame, err, result) == IOFailure
  {
  }
}
