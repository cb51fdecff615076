/**
  * The driver: its state, its incoming queue and the logical addresses it has claimed, as one
  * thread at a time updates them.  Each method that BusProtocol interleaves is proved to do there
  * what the machine says.  Results of native calls are parameters.
  */
module Drivers {
  import opened Bytes
  import opened Osal
  import opened BusProtocol
  import opened Lists

  // ------------------------------------------------------------- results

  const SUCCESS := 0
  const SENT_AND_ACKD := 1
  const SENT_BUT_NOT_ACKD := 2
  const SENT_FAILED := 3
  const INVALID_STATE := 4
  const INVALID_ARGUMENT := 5
  const LOGICALADDRESS_UNAVAILABLE := 6
  const GENERAL_ERROR := 7

  const REPORT_PHYSICAL_ADDRESS: Byte := 0x84

  /** How a driver call ends: normally, or in one of its exceptions. */
  datatype Outcome = Done | InvalidState | IOFailure | NoAck | AddressNotAvailable

  /** What a transmission that the native driver took means to the caller of write. */
  function SendOutcome(frame: Frame, err: int, result: int): Outcome
    requires frame != []
  {
    if err != SUCCESS then IOFailure
    else if result == INVALID_STATE || result == INVALID_ARGUMENT || result == LOGICALADDRESS_UNAVAILABLE
            || result == SENT_FAILED || result == GENERAL_ERROR then IOFailure
    else if Low(frame[0]) != 0xF && result == SENT_BUT_NOT_ACKD then NoAck
    else if Low(frame[0]) == 0xF && |frame| > 1 && frame[1] == REPORT_PHYSICAL_ADDRESS
            && result == SENT_BUT_NOT_ACKD then NoAck
    else Done
  }

  /** A negative acknowledgement counts for a frame to one device, and for a broadcast of the physical address. */
  predicate WantsAck(frame: Frame)
    requires frame != []
  {
    frame[0] % 0x10 != 0xF || (|frame| > 1 && frame[1] == 0x84)
  }

  /** Which results are a success, a missing acknowledgement and a failure: every result is one of them. */
  lemma SendOutcomeMeans(frame: Frame, err: int, result: int)
    requires frame != []
    ensures var o := SendOutcome(frame, err, result);
            && (o == NoAck <==> err == 0 && result == 2 && WantsAck(frame))
            && (o == IOFailure <==> err != 0 || 3 <= result <= 7)
            && (o == Done <==> err == 0 && !(3 <= result <= 7) && (result == 2 ==> !WantsAck(frame)))
  {
  }

  // ------------------------------------------------------------- the claimed addresses

  predicate AddRefused(err: int) { err == LOGICALADDRESS_UNAVAILABLE || err == GENERAL_ERROR }

  lemma MoveOver<E>(taken: seq<E>, left: seq<E>)
    requires left != []
    ensures taken + left == (taken + [left[0]]) + left[1..]
  {
  }

  // ------------------------------------------------------------- the class

  class DriverImpl {
    var status: Status
    const rQueue: EventQueue<Entry>
    var addresses: seq<Byte>
    var native: seq<NativeCall>  // the calls made to the native driver so far

    ghost predicate Valid()
      reads this, rQueue, rQueue.cond
    {
      rQueue.Valid() && rQueue.nothing == Sentinel
    }

    /** The bus machine's shared state, with this object's driver in the place of its own. */
    ghost function In(sh: Shared): Shared
      reads this, rQueue
    {
      sh.(status := status, rQueue := rQueue.events, native := native)
    }

    constructor ()
      ensures Valid() && status == Closed && rQueue.events == [] && addresses == [] && native == []
      ensures fresh(rQueue) && fresh(rQueue.cond)
    {
      status := Closed;
      rQueue := new EventQueue<Entry>(Sentinel);
      addresses := [];
      native := [];
    }

    method Open(nativeOk: bool) returns (outcome: Outcome)
      requires Valid()
      modifies this`status, this`native
      ensures Valid() && addresses == old(addresses)
      ensures forall sh :: (In(sh), outcome == Done) == OpenRegion(old(In(sh)), nativeOk)
      ensures status == if old(status) == Closed && nativeOk then Opened else old(status)
      ensures native == old(native) + if old(status) == Closed then [NativeCall.Open(nativeOk)] else []
      ensures outcome == Done || outcome == IOFailure
      ensures outcome == Done <==> old(status) != Closed || nativeOk
    {
      if status != Closed {
        return Done;
      }
      native := native + [NativeCall.Open(nativeOk)];
      if !nativeOk {
        return IOFailure;
      }
      status := Opened;
      return Done;
    }

    /** A close of an open driver leaves a sentinel for the reader, if there is room for it. */
    method Close(nativeOk: bool) returns (outcome: Outcome)
      requires Valid()
      modifies this`status, this`native, rQueue, rQueue.cond
      ensures Valid() && addresses == old(addresses)
      ensures status == if old(status) != Opened then old(status) else if nativeOk then Closed else Closing
      ensures native == old(native) + if old(status) == Opened then [NativeCall.Close(nativeOk)] else []
      ensures old(status) != Opened ==> outcome == Done && forall sh :: In(sh) == old(In(sh))
      ensures old(status) == Opened ==>
                forall sh ::
                  var offered := old(In(sh)).(status := Closing, rQueue := Offered(old(rQueue.events), Sentinel));
                  In(sh) == CloseRegion(offered, nativeOk)
      ensures old(status) == Opened ==> outcome == if nativeOk then Done else IOFailure
    {
      if status != Opened {
        return Done;
      }
      status := Closing;
      rQueue.Offer(Sentinel);
      native := native + [NativeCall.Close(nativeOk)];
      if !nativeOk {
        return IOFailure;
      }
      status := Closed;
      return Done;
    }

    method Write(frame: Frame, err: int, result: int) returns (outcome: Outcome)
      requires Valid() && frame != []
      modifies this`native
      ensures Valid()
      ensures forall sh :: In(sh) == WriteRegion(old(In(sh)), frame)
      ensures native == old(native) + if status == Opened then [Tx(frame)] else []
      ensures outcome == if status == Opened then SendOutcome(frame, err, result) else InvalidState
    {
      if status != Opened {
        return InvalidState;
      }
      native := native + [Tx(frame)];
      if err != SUCCESS {
        return IOFailure;
      }
      if result != SUCCESS {
        if result == INVALID_STATE || result == INVALID_ARGUMENT || result == LOGICALADDRESS_UNAVAILABLE
           || result == SENT_FAILED || result == GENERAL_ERROR {
          return IOFailure;
        }
      }
      if Low(frame[0]) != 0x0F && result == SENT_BUT_NOT_ACKD {
        return NoAck;
      } else if Low(frame[0]) == 0x0F && |frame| > 1 && frame[1] == REPORT_PHYSICAL_ADDRESS
                && result == SENT_BUT_NOT_ACKD {
        return NoAck;
      }
      return Done;
    }

    /** Writes the one-octet polling frame. */
    method Poll(from: Byte, to: Byte, err: int, result: int) returns (outcome: Outcome)
      requires Valid()
      modifies this`native
      ensures Valid()
      ensures forall sh :: In(sh) == WriteRegion(old(In(sh)), [Pack(Low(from), Low(to))])
      ensures outcome == if status == Opened then SendOutcome([Pack(Low(from), Low(to))], err, result) else InvalidState
    {
      outcome := Write([Pack(Low(from), Low(to))], err, result);
    }

    /** The end of a read that polled null: on an open driver back to polling, else flush. */
    method AfterNull() returns (backToPoll: bool, crashed: bool, flushed: seq<Entry>)
      requires Valid()
      modifies rQueue, rQueue.cond
      ensures Valid()
      ensures backToPoll <==> status == Opened
      ensures backToPoll ==> !crashed && flushed == [] && rQueue.events == old(rQueue.events)
      ensures !backToPoll ==>
                (crashed <==> Sentinel in old(rQueue.events)) && old(rQueue.events) == flushed + rQueue.events
      ensures !backToPoll && !crashed ==> rQueue.events == []
      ensures crashed ==> flushed != [] && flushed[|flushed| - 1] == Sentinel && Sentinel !in flushed[..|flushed| - 1]
    {
      backToPoll, crashed, flushed := status == Opened, false, [];
      if status != Opened {
        var n := rQueue.Size();
        while n > 0
          invariant rQueue.Valid() && n == |rQueue.events| && !crashed
          invariant Sentinel !in flushed && old(rQueue.events) == flushed + rQueue.events
        {
          MoveOver(flushed, rQueue.events);
          var entry := rQueue.Poll();
          flushed := flushed + [entry];
          if entry == Sentinel {
            // *inFrame
            crashed := true;
            return;
          }
          n := rQueue.Size();
        }
      }
    }

    /** The native receive callback, after it copied the octets into a frame. */
    method Receive(frame: Frame)
      requires Valid()
      modifies rQueue, rQueue.cond
      ensures Valid()
      ensures forall sh :: In(sh).rQueue ==
                if status == Opened then PutIncoming(old(In(sh)), frame).rQueue else old(In(sh)).rQueue
    {
      if status != Opened {
        return;
      }
      rQueue.Offer(Ptr(frame));
    }

    method AddLogicalAddress(source: Byte, err: int) returns (outcome: Outcome)
      requires Valid()
      modifies this`addresses, this`native
      ensures Valid()
      ensures forall sh :: In(sh) == AddressRegion(old(In(sh)), true, source)
      ensures outcome == if status != Opened then InvalidState
                         else if err == 6 then AddressNotAvailable
                         else if err == 7 then IOFailure
                         else Done
      ensures addresses == if outcome == Done then old(addresses) + [source] else old(addresses)
      ensures native == old(native) + if status == Opened then [Add(source)] else []
    {
      if status != Opened {
        return InvalidState;
      }
      native := native + [Add(source)];
      if err == LOGICALADDRESS_UNAVAILABLE {
        return AddressNotAvailable;
      } else if err == GENERAL_ERROR {
        return IOFailure;
      }
      addresses := addresses + [source];
      return Done;
    }

    method RemoveLogicalAddress(source: Byte) returns (outcome: Outcome)
      requires Valid()
      modifies this`addresses, this`native
      ensures Valid()
      ensures forall sh :: In(sh) == AddressRegion(old(In(sh)), false, source)
      ensures outcome == if status == Opened then Done else InvalidState
      ensures native == old(native) + if status == Opened then [NativeCall.Remove(source)] else []
      ensures addresses == if outcome == Done then Without(old(addresses), source) else old(addresses)
    {
      if status != Opened {
        return InvalidState;
      }
      var kept := RemoveAll(addresses, source);
      addresses := kept;
      native := native + [NativeCall.Remove(source)];
      return Done;
    }

    method IsValidLogicalAddress(source: Byte) returns (found: bool)
      ensures found <==> source in addresses
    {
      found := false;
      var i := 0;
      while i < |addresses|
        invariant 0 <= i <= |addresses| && !found
        invariant source !in addresses[..i]
      {
        if addresses[i] == source {
          found := true;
          break;
        }
        i := i + 1;
      }
    }
  }

  // ------------------------------------------------------------- the list stands for a set

  datatype AddressOp = OpOpen(ok: bool) | OpClose(ok: bool) | OpAdd(source: Byte, err: int) | OpRemove(source: Byte)

  /** The state after a history, by the methods above. */
  function StatusAfter(ops: seq<AddressOp>): Status
  {
    if ops == [] then Closed
    else
      var s := StatusAfter(ops[..|ops| - 1]);
      match ops[|ops| - 1]
      case OpOpen(ok) => if s == Closed && ok then Opened else s
      case OpClose(ok) => if s == Opened then (if ok then Closed else Closing) else s
      case _ => s
  }

  function AddressesAfter(ops: seq<AddressOp>): seq<Byte>
  {
    if ops == [] then []
    else
      var before := ops[..|ops| - 1];
      var list := AddressesAfter(before);
      match ops[|ops| - 1]
      case OpAdd(a, err) => if StatusAfter(before) == Opened && !AddRefused(err) then list + [a] else list
      case OpRemove(a) => if StatusAfter(before) == Opened then Without(list, a) else list
      case _ => list
  }

  predicate AcceptedAdd(ops: seq<AddressOp>, i: nat, a: Byte)
    requires i < |ops|
  {
    ops[i].OpAdd? && ops[i].source == a && !AddRefused(ops[i].err) && StatusAfter(ops[..i]) == Opened
  }

  predicate EffectiveRemove(ops: seq<AddressOp>, i: nat, a: Byte)
    requires i < |ops|
  {
    ops[i] == OpRemove(a) && StatusAfter(ops[..i]) == Opened
  }

  /** An accepted add of `a` that no effective remove of `a` came after. */
  ghost predicate Claimed(ops: seq<AddressOp>, a: Byte)
  {
    exists i: nat | i < |ops| :: AcceptedAdd(ops, i, a) && forall j: nat | i < j < |ops| :: !EffectiveRemove(ops, j, a)
  }

  lemma ClaimedAfterOne(ops: seq<AddressOp>, a: Byte)
    requires ops != []
    ensures var n := |ops| - 1;
            Claimed(ops, a) <==> AcceptedAdd(ops, n, a) || (Claimed(ops[..n], a) && !EffectiveRemove(ops, n, a))
  {
    var n := |ops| - 1;
    forall i: nat | i < n
      ensures AcceptedAdd(ops, i, a) == AcceptedAdd(ops[..n], i, a)
      ensures EffectiveRemove(ops, i, a) == EffectiveRemove(ops[..n], i, a)
    {
      assert ops[..n][..i] == ops[..i];
    }
    if AcceptedAdd(ops, n, a) {
      assert Claimed(ops, a);
    } else if Claimed(ops, a) {
      var i: nat :| i < |ops| && AcceptedAdd(ops, i, a) && forall j: nat | i < j < |ops| :: !EffectiveRemove(ops, j, a);
      assert AcceptedAdd(ops[..n], i, a);
      assert Claimed(ops[..n], a);
    } else if Claimed(ops[..n], a) {
      var i: nat :| i < n && AcceptedAdd(ops[..n], i, a)
                    && forall j: nat | i < j < n :: !EffectiveRemove(ops[..n], j, a);
      assert AcceptedAdd(ops, i, a);
    }
  }

  /** Whatever duplicates it holds, and across any opens and closes, the list is the claimed set. */
  lemma {:induction false} ListIsClaimedSet(ops: seq<AddressOp>, a: Byte)
    ensures a in AddressesAfter(ops) <==> Claimed(ops, a)
  {
    if ops != [] {
      var before := ops[..|ops| - 1];
      ListIsClaimedSet(before, a);
      ClaimedAfterOne(ops, a);
      match ops[|ops| - 1]
      case OpRemove(b) => WithoutHas(AddressesAfter(before), b, a);
      case _ =>
    }
  }

  /** A driver object that starts new and takes a history of calls ends where the functions say. */
  method Perform(d: DriverImpl, ops: seq<AddressOp>)
    requires d.Valid() && d.status == Closed && d.addresses == []
    modifies d, d.rQueue, d.rQueue.cond
    ensures d.Valid() && d.status == StatusAfter(ops) && d.addresses == AddressesAfter(ops)
    ensures forall a :: a in d.addresses <==> Claimed(ops, a)
  {
    var i := 0;
    while i < |ops|
      invariant 0 <= i <= |ops| && d.Valid()
      invariant d.status == StatusAfter(ops[..i]) && d.addresses == AddressesAfter(ops[..i])
    {
      assert ops[..i + 1][..i] == ops[..i];
      match ops[i] {
        case OpOpen(ok) => var _ := d.Open(ok);
        case OpClose(ok) => var _ := d.Close(ok);
        case OpAdd(a, err) => var _ := d.AddLogicalAddress(a, err);
        case OpRemove(a) => var _ := d.RemoveLogicalAddress(a);
      }
      i := i + 1;
    }
    assert ops[..i] == ops;
    forall a
      ensures a in d.addresses <==> Claimed(ops, a)
    {
      ListIsClaimedSet(ops, a);
    }
  }
}
