# Verification of the HDMI-CEC stack

A Dafny 4.11 model of the HDMI-CEC library, its OS abstraction, its IARM driver and daemon, and the
host-side caches. `dafny verify dfyconfig.toml` checks all of it.

| files | what they model |
|---|---|
| `Bytes`, `CECFrame`, `Messages`, `Codec`, `Layout` | octets and nibbles, the 128-octet frame buffer, operands and messages, encoding and decoding; the wire format octet by octet |
| `Osal`, `QueueProtocol` | Stoppable, ConditionVariable and EventQueue as one thread sees them; EventQueue with any number of threads, one mutex operation at a time |
| `BusProtocol`, `BusInvariant`, `BusStop`, `BusFaults`, `BusFate`, `BusReads`, `BusTraffic`, `BusCalls`, `BusWrites` | the bus runtime as a machine of interleaved steps: init and term, reader, writer, clients, receive callbacks; its invariant; who keeps a stop waiting; runs that go wrong; what decides whether a stop ends, hangs or crashes; whole calls of every kind; what happens to frames and native calls |
| `LockOrder`, `DataRaces` | the mutexes and the shared data of all entry points, any number of threads: no cycle of waits, and which data can be raced for |
| `Lists`, `Driver`, `Bus`, `Connection`, `Routing` | the classes DriverImpl, Bus and Connection with their fields; the claimed addresses as a set; routing over whole histories |
| `TwoHop`, `Lifecycle` | a transmission through client and daemon; enabling and disabling all layers |
| `SymbolCache`, `DeviceTable` | the plug-in pointer cache; the device-status cache and its change events |

The threads of `BusProtocol` take their steps from `Next`; a property of every run is a lemma over
`Run(Initial(clients), actions)`. The methods of `DriverImpl` are proved to do to the machine's state
exactly what the machine's own steps do (`In`), so the classes and the machine are one driver.  What a
thread does by itself during a call is read off the states before and after its own steps (`Did`), so the laws
about whole calls say from outside what the steps inside come to.

Some things the code does not do.  Each is shown by a run or an input, and has its exact condition:

- A stop need not end.  `Bus::stop` waits for the reader while it holds `rMutex`, and a reader that holds a
  frame wants `rMutex` (`EmbraceIsReached`, `EmbraceIsForever`).  And the flush of `DriverImpl::read`
  dereferences every entry it polls, so a sentinel in the queue makes it dereference null
  (`CrashIsReached`).  What becomes of a stop is decided when it offers its sentinel (or, if the driver is not
  open, when it begins to wait), by where the reader then is and what then is in the incoming queue (`FateOf`):
  it can end if and only if that says so
  (`StopIsDecidedAtTheOffer`, `StopEndsExactly`), and no schedule changes it or puts it off (`FateIsKept`,
  `FateIsMet`, `FateIsMetSoon`).
- A run dooms the reader to dereference null if and only if some stop in it offered its sentinel where the
  reader meets one in a flush, and a doomed reader can go on to crash wherever the other threads are
  (`CrashIsDecidedAtTheOffers`).  A sentinel left over at an init is enough: some continuation without any
  failure crashes (`LeftoverCrashes`).
- A failed native close leaves the driver CLOSING for good (`FailureIsForever`) and the daemon broken: still
  started, with no connection, so that the next disable dereferences null.  That is so exactly after a disable
  of a daemon that was on whose native close failed (`BrokenExactly`, `CECIARMMgr.Stop`).
- The audio-mode request for F.F.F.F is encoded as a frame the decoder refuses (`UnspecifiedAddressIsLost`),
  and no other canonical one is (`DecodeAfterEncode`).
- Five things that the threads share are also looked at without the mutex that guards them: the daemon's
  connection (daemon/src/CecIARMBusMgr.cpp:397), `LibCCEC::initialized` (ccec/src/LibCCEC.cpp:134), the driver's
  `status` (ccec/src/DriverImpl.cpp:378), its `logicalAddresses` (ccec/src/DriverImpl.cpp:344) and `driverCtx`
  (ccec/drivers/iarmbus/hdmi_cec_driver.c:314).  Two threads can be at the same data, one of them to write it,
  for these five and for no other (`RacesExactly`).
- A wake time can come out with a nanosecond field of one whole second (`UnnormalisedWakeTimes`).
- A send with a timeout on a stopped bus sleeps its whole timeout (`Bus.Send`).
- An event goes out though nothing changes exactly for a name without a terminating zero that the device
  already has, cut (`EventMeansChange`).
- Unplugging resets the devices without an event.  A listener to the events alone has a field of a device right,
  after any history whose events it heard, exactly if it was told of the field since the plug was last pulled or
  has the reset value for it (`EventsAloneAreRight`).
- A wrapper of the plug-in calls something else than a direct lookup would find exactly if its last find is of an
  earlier instance, a multiple of 2^32 loads back, that resolves differently (`CallDiffersExactly`); 2^32 loads
  after a call it is so for a symbol that moved (`WrapIsStale`).  The increment of the greatest `int32_t`
  (devmgr/src/Host.cpp:56) is signed overflow, which C++ leaves undefined; the model takes it to wrap.

The code is followed where its comments say something else: an offer to a full queue drops the event
(the comment at osal/include/osal/EventQueue.hpp:162 promises an exception), and opening an open driver or
closing a closed one returns quietly (ccec/src/DriverImpl.cpp:102-108, 125-131).

## Model

| member | source | states |
|---|---|---|
| Bytes.PackedNibbles | ccec/include/ccec/Header.hpp:52-65 | two four-bit addresses come back out of the packed header octet, initiator from the high nibble |
| Bytes.PackOfNibbles | ccec/include/ccec/Header.hpp:52-65 | packing the two nibbles of any octet gives the octet |
| Frames.CECFrame.Append | ccec/src/CECFrame.cpp:54-58 | one octet is added, or the frame is full and unchanged |
| Frames.CECFrame.AppendBuffer | ccec/src/CECFrame.cpp:60-64 | the octets up to the end of the buffer are added even when the append overflows; also when the source is the frame's own buffer |
| Frames.CECFrame.AppendFrame | ccec/src/CECFrame.cpp:66-71 | concatenation exactly when the sum of the lengths fits, a frame appended to itself included |
| Frames.CECFrame.At | ccec/src/CECFrame.cpp:87-96 | the octet at an index, or out_of_range from the length on |
| Frames.CECFrame.Put | ccec/src/CECFrame.cpp:98-104 | one octet replaced in place, or out_of_range and nothing changed |
| Frames.CECFrame.SubFrame | ccec/src/CECFrame.cpp:44-52 | the slice from a start on, of at most the asked length, zero asking for all |
| Messages.ParseOperandsCuts | ccec/include/ccec/Messages.hpp:483-491 | operands that fit are cut at multiples of their width and together are the octets they were cut from |
| Messages.ParseOperandsOfConcat | ccec/include/ccec/Messages.hpp:536-543 | cutting the concatenation of equally long operands gives the operands back |
| Messages.BuildDescriptors | ccec/include/ccec/Messages.hpp:536-543 | the constructor loop builds the operands of the recursive definition, or stops with its first failure |
| Codec.SerializeHeader | ccec/include/ccec/Header.hpp:57-65 | append and overwrite in place leave the packed octet at the end of the frame |
| Codec.SerializeOperand | ccec/include/ccec/Operands.hpp:84-90 | all octets of an operand are appended exactly when they fit |
| Codec.SerializeOpCode | ccec/include/ccec/OpCode.hpp:133-138 | one octet, and none for the polling message |
| Codec.EncodeInto | ccec/include/ccec/MessageEncoder.hpp:53-71 | header, opcode and operands in turn append the encoded message exactly when it fits |
| Codec.DecodeAfterEncode | ccec/src/MessageDecoder.cpp:39-186 | decoding an encoded message makes one process call with the same header and message if and only if the addresses have four bits and the message is canonical |
| Codec.CanonicalFits | ccec/include/ccec/MessageEncoder.hpp:53-76 | every canonical message fits a frame, descriptor reports up to 42 descriptors |
| Codec.UnspecifiedAddressIsLost | ccec/include/ccec/Messages.hpp:571-585 | the F.F.F.F audio-mode request encodes to a frame that decode ignores |
| Codec.EncoderOnlyMessagesAreIgnored | ccec/src/MessageDecoder.cpp:55-186 | a message of a class that decode does not build is dispatched as nothing |
| Codec.EncodeAfterDecode | ccec/src/MessageDecoder.cpp:39-186 | re-encoding a dispatched frame gives a prefix of it of exactly the kept length, and decoding that prefix repeats the call except for F.F.F.F |
| Codec.DispatchedIsEncodable | ccec/include/ccec/Messages.hpp:571-585 | only a one-octet audio-mode request is dispatched and cannot be encoded again |
| Codec.UndefinedExactly | ccec/include/ccec/Operands.hpp:66-81 | the length underflow is reached exactly by a three-octet frame of a class with a second operand after a physical address |
| Layout.ReadsAddress | ccec/src/MessageDecoder.cpp:55-186 | for each class with one address operand, its opcode, and that the operand is the octets 2 and 3 of the frame as far as they are there |
| Layout.ReadsValue | ccec/src/MessageDecoder.cpp:55-186 | the same for the classes with a version, a status, a language, a vendor or a text: from octet 2, at most 1, 3, 13 or 14 octets |
| Layout.ReadsPair | ccec/include/ccec/Messages.hpp:278-407 | a feature abort is octet 2, then the reason in octet 3; the two classes with a second operand have the first in octets 2 and 3 |
| Layout.ReadsList | ccec/include/ccec/Messages.hpp:466-553 | formats are the octets from 2 on, four at most; descriptors are the threes of octets from 2 on |
| Layout.ReadsBare | ccec/src/MessageDecoder.cpp:55-186 | the opcode of each class without operands, whatever follows it |
| Layout.ReadsExactly | ccec/src/MessageDecoder.cpp:39-186 | a frame is dispatched if and only if it is a poll or has a known opcode and as many octets as its class needs; only the empty frame throws |
| Layout.WritesHeader | ccec/include/ccec/Header.hpp:57-65 | octet 0 is sixteen times the initiator plus the destination |
| Layout.WritesAddress | ccec/include/ccec/OpCode.hpp:47-54 | the opcode of each of these classes in octet 1, and then the operand |
| Layout.WritesOctet | ccec/include/ccec/OpCode.hpp:69-107 | the same for the classes with one octet |
| Layout.WritesText | ccec/include/ccec/OpCode.hpp:74-93 | the same for language, vendor and texts |
| Layout.WritesAudioMode | ccec/include/ccec/Messages.hpp:571-585 | 0x70 and the address, of which F.F.F.F is not written |
| Layout.WritesPair | ccec/include/ccec/Messages.hpp:278-407 | the opcode and the operands in their order: address and type, source and sink, feature and reason |
| Layout.WritesList | ccec/include/ccec/Messages.hpp:466-553 | the opcode, and operand i of the list at its multiple of the width |
| Layout.WritesRequest | ccec/include/ccec/OpCode.hpp:47-101 | the opcode octet of each of these classes, and nothing after it |
| Layout.WritesGive | ccec/include/ccec/OpCode.hpp:71-102 | the same |
| Layout.WritesArcInitiation | ccec/include/ccec/OpCode.hpp:111-114 | the same |
| Layout.WritesArcTermination | ccec/include/ccec/OpCode.hpp:113-116 | the same |
| Layout.WritesPoll | ccec/include/ccec/OpCode.hpp:133-138 | a poll is its header octet |
| Osal.Stoppable.StopStarted | osal/include/osal/Stoppable.hpp:55-57 | only a running thread goes to STOPPING |
| Osal.ConditionVariable.WakeTime | osal/src/ConditionVariable.cpp:102-114 | the wake time is now plus the timeout exactly, the nanosecond sum fits 32 bits, and the field is below one second unless the sum is exactly one second |
| Osal.UnnormalisedWakeTimes | osal/src/ConditionVariable.cpp:108-114 | for which microseconds and timeouts that sum is exactly one second |
| Osal.EventQueue.Size | osal/include/osal/EventQueue.hpp:149-152 | the number of events, with the flag set if and only if it is positive |
| Osal.EventQueue.Offer | osal/include/osal/EventQueue.hpp:167-178 | the event goes to the back, or nowhere if 32 are queued, and the flag agrees |
| Osal.EventQueue.Poll | osal/include/osal/EventQueue.hpp:108-137 | the front is taken, or nothing from an empty queue, and the flag agrees |
| QueueProtocol.NextInv | osal/include/osal/EventQueue.hpp:108-178 | every mutex-level step of any thread keeps exclusion, flag agreement, pending wake-up, capacity and FIFO order |
| QueueProtocol.NoSleeperOnceOffersFinish | osal/src/ConditionVariable.cpp:83-149 | in every run the queue is a bounded FIFO, the flag tells whether it is empty when the mutex is free, and a sleeper on a non-empty queue has a broadcast still coming |
| QueueProtocol.PollNeverReturnsGarbage | osal/include/osal/EventQueue.hpp:108-137 | poll never returns its unassigned local, and a default element only when the queue is empty |
| QueueProtocol.StepIsAtomic | osal/include/osal/EventQueue.hpp:108-178 | each step changes the queue by one push, one pop of the front, or not at all |
| QueueProtocol.StuckMeansAsleepOnEmpty | osal/include/osal/EventQueue.hpp:108-178 | when no thread can go on, each is idle or asleep, and none is asleep on a non-empty queue |
| QueueProtocol.SizeThenPollTakes | ccec/src/DriverImpl.cpp:170-174 | a sole consumer that read a positive size is about to take an event |
| QueueProtocol.WillTakeIsKept | ccec/src/DriverImpl.cpp:170-174 | it goes on to take the front without falling asleep, whatever the producers do |
| QueueProtocol.SizedPollTakes | osal/include/osal/EventQueue.hpp:108-137 | over any run such a poll has taken the entry that was in front, or has made fewer than ten steps and is still about to |
| QueueProtocol.RunRefines | osal/include/osal/EventQueue.hpp:108-178 | every mutex-level run of any threads does to the queue what its offers and polls, each at one step, do one after the other on an atomic bounded queue |
| QueueProtocol.EveryCallTakesEffectOnce | osal/include/osal/EventQueue.hpp:108-178 | the answers a thread gets are, in order, those to its operations that took effect, each once between call and return |
| QueueProtocol.EveryCallIsAnswered | osal/include/osal/EventQueue.hpp:108-178 | over any run the calls a thread begins and those that end are the same, in order and kind, but for the one still going on |
| QueueProtocol.PollWaits | osal/src/ConditionVariable.cpp:88-98 | over any run from the start in which no other thread takes an event and the poller does not wake for no reason, none of its polls comes back with nothing or is about to |
| QueueProtocol.AwakeCallEnds | osal/src/ConditionVariable.cpp:88-98 | a poll that has woken does not sleep again, and it, an offer or a size ends within twelve of its own steps |
| BusInvariant.StepExclusive | ccec/src/Bus.cpp:83-117 | every step keeps each mutex with the one thread whose place in the code holds it |
| BusInvariant.NextInv | ccec/src/Bus.cpp:83-384 | every step of every thread keeps the whole invariant: exclusion, run states, driver protocol, wake-ups, quiet after stop, conservation |
| BusInvariant.ReachableInv | ccec/src/Bus.cpp:70-117 | the invariant holds in every state of every run |
| BusStop.NobodySleepsThroughStop | ccec/src/Bus.cpp:180-198 | once stop closed the driver the reader is not asleep on an empty queue, a dropped sentinel notwithstanding; nor is the writer once it was asked |
| BusStop.StopProgress | ccec/src/Bus.cpp:106-117 | in every reachable state of init or term, the chain of threads it waits for ends at one that can move, unless stop waits for a reader that holds a frame or has crashed; a crashed reader is considered only while stop waits for it |
| BusStop.EmbraceIsForever | ccec/src/Bus.cpp:155-155 | no run leaves that state |
| BusStop.ReaderStopsInBoundedSteps | ccec/src/Bus.cpp:180-198 | while stop polls the reader's state, the reader takes at most a number of steps fixed by its place and its queue |
| BusStop.WriterStopsInBoundedSteps | ccec/src/Bus.cpp:237-314 | the same for the writer, which drains its queue |
| BusTraffic.NoSendOnStoppedBus | ccec/src/Bus.cpp:325-363 | in no run is a client or a listener in a driver write while the bus is not started |
| BusTraffic.StoppedQueueIsEmpty | ccec/src/Bus.cpp:106-117 | after a completed stop every accepted frame is deleted, and at most a sentinel is queued |
| BusTraffic.PhaseIsAlternation | ccec/src/DriverImpl.cpp:99-144 | the protocol automaton accepts exactly the traces in which each call may follow the one before it |
| BusTraffic.NativeProtocol | ccec/src/DriverImpl.cpp:99-275 | in every interleaving the native calls alternate, and with the driver's mutex free the state tells the device's; CLOSING means a failed close |
| BusTraffic.FailureIsForever | ccec/src/DriverImpl.cpp:132-142 | after a failed native close no native call is ever made again |
| BusTraffic.IarmNeverFails | ccec/drivers/iarmbus/hdmi_cec_driver.c:68-144 | over the IARM driver no open or close fails, and OPENED means driverCtx is set whenever the mutex is free |
| BusCalls.ClientCall | ccec/src/Bus.cpp:325-384 | a whole call of a client, in any interleaving: sendAsync puts its frame at the end of the outgoing queue if and only if the bus is started and fewer than 32 are queued; send makes one transmission for each attempt up to the first success or retry + 1 on a started bus with an open driver, and else none; an address is claimed or released on an open driver |
| BusCalls.ListenerCall | ccec/src/Bus.cpp:325-363 | a whole send by a listener on the reader's thread: one transmission on a started bus with an open driver, and else none |
| BusCalls.ControlCall | ccec/src/LibCCEC.cpp:84-121 | a whole init or term, in any interleaving: which native open or close it makes, by the driver's state, and what it leaves of the bus, the driver and the flag, when the native call succeeds and when it fails |
| BusCalls.StartedIsServed | ccec/src/Bus.cpp:83-117 | in every run a started bus has both threads running or created, neither asked to stop, and has opened its driver |
| BusWrites.WriterTransmits | ccec/src/Bus.cpp:252-256 | in every run the transmissions the writer makes are, in order, those of its attempts that found the driver open: none left out, none besides |
| BusWrites.AllSentWhileOpen | ccec/src/Bus.cpp:252-256 | if the driver is open at every write of the writer, all it tried is sent and transmitted |
| BusWrites.WriterTurn | ccec/src/Bus.cpp:251-273 | a whole turn from the poll of a frame to its delete, in any interleaving: one attempt on that frame, one transmission of it if the attempt found the driver open and else none, and the frame is deleted as written |
| BusWrites.SentOnceInOrder | ccec/src/Bus.cpp:237-284 | over any number of sessions what the writer transmits is what was accepted with some left out: nothing twice, out of order or unaccepted; and it is exactly what its attempts found the driver open for |
| BusWrites.AsyncConservation | ccec/src/Bus.cpp:237-384 | the frames of the sendAsync calls that found the bus started and room are, in order, those deleted, the one in the writer's hand and those queued; each deleted one had one write attempt or was drained |
| BusWrites.OutgoingRunIsOps | ccec/src/Bus.cpp:237-384 | every run of the machine does to the outgoing queue what its offers and polls do one after the other on the atomic queue |
| BusFaults.EmbraceIsReached | ccec/src/Bus.cpp:106-112 | a run of one init, one received frame and one term, with no failure, reaches the blocked state |
| BusFaults.FlushMeetsSentinel | ccec/src/DriverImpl.cpp:170-174 | a flush with its first sentinel at index i crashes at its step i + 1 and ends in no other way |
| BusFaults.FlushWithoutSentinel | ccec/src/DriverImpl.cpp:170-176 | a flush of a queue without a sentinel goes on or ends in the exception |
| BusFaults.DisciplinedRunsDoNotCrash | ccec/src/DriverImpl.cpp:132-176 | a rule that keeps the crash away: open the driver only with no sentinel outstanding, while the reader does not wake spuriously |
| BusFate.StopIsDecidedAtTheOffer | ccec/src/Bus.cpp:106-117 | in every reachable state in which stop is about to offer its sentinel, the place of the reader and the queue tell whether it can end, if its native close succeeds |
| BusFate.StopEndsExactly | ccec/src/Bus.cpp:106-117 | from there on stop can end if and only if its fate is to end; then every run has passed the end or can still reach it, and otherwise none can |
| BusFate.FateIsKept | ccec/src/Bus.cpp:186-194 | no step of any thread changes the fate; the mutual wait, the crash and a stopped reader are each reached only from their own |
| BusFate.FateIsMet | ccec/src/Bus.cpp:186-194 | a run without failures leads from the wait for the reader to whatever the fate is |
| BusFate.FateIsMetSoon | ccec/src/Bus.cpp:186-194 | until the fate is met some thread that stop waits for can move, and the reader's steps up to then are bounded |
| BusFate.DoomedForever | ccec/src/Bus.cpp:106-117 | no run in which the native close does not fail leaves a stop that is to hang or to see the crash |
| BusFate.CrashIsDecidedAtTheOffers | ccec/src/DriverImpl.cpp:121-182 | a run dooms the reader to dereference null if and only if some offer of a sentinel in it was fatal; a crashed reader was doomed, and a doomed one can go on to crash wherever control is, after a failed native close too |
| BusFate.NoStopEndsAfterCrash | ccec/src/Bus.cpp:106-117 | after a crash the reader never stops and no stop comes to an end |
| BusFate.LeftoverCrashes | ccec/src/DriverImpl.cpp:132-176 | from any reachable rest before an init with a sentinel left over, whatever else is queued, some run without failures crashes the reader |
| BusFate.CrashIsReached | ccec/src/DriverImpl.cpp:168-176 | a run of two sessions, with no failure and no spurious wake-up, dereferences null |
| BusReads.ReadCall | ccec/src/DriverImpl.cpp:146-182 | a whole call, with any interleaving: it returns the oldest frame not taken and takes no other, or throws while the driver is not open having taken nothing or emptied the queue, or crashes in the flush |
| BusReads.FlushDoesNotWait | ccec/src/DriverImpl.cpp:170-174 | each poll of the flush, mutex by mutex, takes the entry that the machine's step takes, without sleeping, whatever producers do |
| BusReads.MachineRunIsOps | ccec/src/DriverImpl.cpp:121-182 | every run of the machine does to the incoming queue what its offers and polls do one after the other on the atomic queue |
| BusReads.SameOpsSameQueue | osal/include/osal/EventQueue.hpp:108-178 | a run of the machine and a mutex-level run whose operations took effect in the same order leave the same queue |
| BusReads.ReadConservation | ccec/src/DriverImpl.cpp:58-182 | every frame that a callback saw the driver open for is offered once or in flight; those offered while there was room are, in order, those delivered or flushed and those queued |
| BusReads.OnlyReaderTakes | ccec/src/DriverImpl.cpp:146-182 | no other thread takes from the incoming queue |
| Lists.WithoutHas | ccec/src/Connection.cpp:104-110 | after a remove the list has every other element it had, and no more |
| Lists.WithoutAppend | ccec/src/Connection.cpp:104-110 | an element at the end stays at the end, or goes |
| Lists.CountWithout | ccec/src/Connection.cpp:104-110 | the others are in the list as often as before |
| Lists.RemoveAll | ccec/src/Bus.cpp:222-229 | the loop keeps the other elements in their order |
| Drivers.DriverImpl.Open | ccec/src/DriverImpl.cpp:99-119 | on the state of the bus machine, exactly the machine's open |
| Drivers.DriverImpl.Close | ccec/src/DriverImpl.cpp:121-144 | exactly the machine's close: sentinel offered first, CLOSING kept when the native close fails |
| Drivers.DriverImpl.Write | ccec/src/DriverImpl.cpp:223-275 | the machine's write, and the outcome of the driver's result code |
| Drivers.SendOutcomeMeans | ccec/src/DriverImpl.cpp:248-271 | which results are a success, a missing acknowledgement and a failure; a broadcast misses one only when it reports the physical address |
| Drivers.DriverImpl.Poll | ccec/src/DriverImpl.cpp:354-364 | a write of the one-octet frame of the two addresses |
| Drivers.DriverImpl.AfterNull | ccec/src/DriverImpl.cpp:166-180 | on an open driver nothing is lost; else the entries are flushed in order and a crash happens exactly if a sentinel is among them |
| Drivers.DriverImpl.Receive | ccec/src/DriverImpl.cpp:58-76 | a frame is queued only while the driver is open |
| Drivers.DriverImpl.AddLogicalAddress | ccec/src/DriverImpl.cpp:316-338 | listed exactly when open and the native call did not refuse |
| Drivers.DriverImpl.RemoveLogicalAddress | ccec/src/DriverImpl.cpp:303-314 | every listing of the address goes |
| Drivers.DriverImpl.IsValidLogicalAddress | ccec/src/DriverImpl.cpp:340-352 | found exactly when listed |
| Drivers.ListIsClaimedSet | ccec/src/DriverImpl.cpp:303-352 | an address is listed if and only if some accepted add of it has no effective remove after it, over any history |
| Drivers.Perform | ccec/src/DriverImpl.cpp:303-352 | a driver object taken through a history lists exactly the claimed addresses |
| Buses.Bus.Send | ccec/src/Bus.cpp:325-363 | attempts end at the first success or when the timeout has no room; 250 ms between them, never more than the timeout; the last gives the outcome; none reaches the driver of a stopped bus |
| Buses.Bus.SendAsync | ccec/src/Bus.cpp:373-384 | refused on a stopped bus, else queued if fewer than 32 are; what the machine's step does to its queue |
| Buses.Bus.AddFrameListener | ccec/src/Bus.cpp:207-213 | appended, or InvalidState on a stopped bus |
| Buses.Bus.RemoveFrameListener | ccec/src/Bus.cpp:222-229 | all registrations gone, or InvalidState on a stopped bus |
| Buses.Bus.Start | ccec/src/Bus.cpp:83-98 | threads that had stopped run again, and the bus is started exactly when the driver could be opened or was open |
| Buses.Bus.DrainAndStop | ccec/src/Bus.cpp:276-283 | the writer's last loop deletes everything still queued, in order, and then the thread has stopped |
| Buses.Bus.Stop | ccec/src/Bus.cpp:106-117 | never started after it; one native close, though the driver is closed twice; both threads stopped and no frame queued when it returns, neither when the close fails |
| Connections.StampSetsInitiator | ccec/src/Connection.cpp:351-365 | a claimed source goes to the initiator nibble, everything else stays, and nothing changes if and only if it was unclaimed or there already |
| Connections.SendToIsStamped | ccec/src/Connection.cpp:121-129 | the frame that sendTo builds for a four-bit destination carries source and destination, and stamping does not change it |
| Connections.Connection.Close | ccec/src/Connection.cpp:73-79 | own listeners are cleared even when the bus refuses |
| Connections.Connection.IsFiltered | ccec/src/Connection.cpp:300-319 | filtered exactly when the frame is neither for the first source nor for everybody, and the first source is not 15 |
| Connections.NotifiedInOrder | ccec/src/Bus.cpp:155-163 | the connections are told one after the other, in the order of the bus's list |
| Connections.Connection.Notify | ccec/src/Connection.cpp:328-342 | one call to each listener in registration order, or none |
| Connections.Connection.MatchSource | ccec/src/Connection.cpp:351-365 | the caller's frame is stamped in place |
| Connections.Connection.Send | ccec/src/Connection.cpp:208-222 | the stamped frame is what the driver is given at every attempt and what the outcome is about; attempts and sleeps are those of the bus |
| Connections.Connection.SendTo | ccec/src/Connection.cpp:141-157 | header and body reach the bus, stamped, which for a four-bit destination changes nothing; a body that does not fit sends nothing |
| Connections.Deliver | ccec/src/Bus.cpp:155-163 | the reader's loop notifies every registered connection in order |
| Routing.RoutingIsExact | ccec/src/Connection.cpp:300-342 | over any history each listener is told, in order, each frame once per live registration and live opening of each connection it is for: all of them if its destination is 15, else those made with that source or with 15; source changes do not matter |
| Routing.AddresseesAre | ccec/src/Connection.cpp:300-319 | the connections a frame is for, one by one |
| Routing.Happen | ccec/src/Connection.cpp:62-110 | calls on the objects, with native calls that succeed or fail, are steps of that history, and tell the listeners what it says |
| TwoHop.StampKeepsMeaning | ccec/src/DriverImpl.cpp:252-271 | stamping does not change what a result code means for a frame |
| TwoHop.AnswerSurvives | daemon/src/CecIARMBusMgr.cpp:397-413 | the daemon's outcome is recovered from the answer octet, InvalidState as a failure |
| TwoHop.Daemon.Send | daemon/src/CecIARMBusMgr.cpp:377-420 | an empty frame throws, without a connection nothing is sent; else the stamped frame is, and the octet tells how it ended |
| TwoHop.HdmiCecTx | ccec/drivers/iarmbus/hdmi_cec_driver.c:284-306 | the octets reach the daemon whole, or the call fails and nothing reaches the hardware |
| TwoHop.ClientWrite | ccec/src/DriverImpl.cpp:223-275 | a client that is not open makes no call; else the hardware sees the client's octets, unchanged if and only if 15 is unclaimed or was the initiator, and the client gets the daemon's verdict |
| Lifecycle.LibCCEC.Init | ccec/src/LibCCEC.cpp:84-103 | all or nothing for the library's flag, the bus and the driver |
| Lifecycle.LibCCEC.Term | ccec/src/LibCCEC.cpp:111-121 | off unless the native close fails, which leaves the flag set and the driver CLOSING |
| Lifecycle.CECIARMMgr.Start | daemon/src/CecIARMBusMgr.cpp:295-313 | from on, off or broken: all layers come on together, with one new connection with one listener on the bus, or nothing changes |
| Lifecycle.CECIARMMgr.Stop | daemon/src/CecIARMBusMgr.cpp:341-367 | all layers go off together, or the native close fails and they are broken; from broken it dereferences null, and only then |
| Lifecycle.CECIARMMgr.Enable | daemon/src/CecIARMBusMgr.cpp:510-528 | the mode of all layers after a request, from any of the three modes, and the bus's listeners |
| Lifecycle.LastRequestDecides | daemon/src/CecIARMBusMgr.cpp:510-528 | with no failing native call the mode is what the last request asked for |
| Lifecycle.BrokenExactly | daemon/src/CecIARMBusMgr.cpp:341-367 | the daemon is broken if and only if a disable of a daemon that was on met a failing native close |
| Lifecycle.EnableAll | daemon/src/CecIARMBusMgr.cpp:510-528 | after any sequence of requests, with any native results, all layers are in the mode the requests give, the bus's listeners are the old ones, with the daemon's while it is on, and a crash is a disable of a broken daemon |
| LockOrder.EntriesRespect | ccec/src/Bus.cpp:83-446 | the code of every entry point takes mutexes only above those it holds, or again; it writes shared data only under all the mutexes that guard it and reads it under one of them, but where it peeks |
| LockOrder.NotifyCode | ccec/src/Connection.cpp:328-342 | a listener that sends on the reader's thread, under rMutex and its connection's mutex, keeps the order too |
| LockOrder.StepInv | osal/src/Mutex.cpp:73-81 | every step of any thread keeps exclusion and the order |
| LockOrder.PlainMutexTakenOnce | ccec/drivers/iarmbus/hdmi_cec_driver.c:62-64 | no thread ever wants the lock of the IARM driver, which is not recursive, while it holds it |
| LockOrder.NoCycleOfWaits | ccec/src/Bus.cpp:83-446 | no run of any number of threads reaches a cycle of threads waiting for each other's mutexes |
| LockOrder.WaitEnds | ccec/src/Bus.cpp:83-446 | from any waiting thread at most eight waits lead to a thread that holds a mutex and waits for none |
| DataRaces.ClientsUse | ccec/src/Bus.cpp:207-384 | exactly which data each call of a client, a listener, the daemon's send and the receive callback reads, writes and peeks at |
| DataRaces.ControlUses | ccec/src/LibCCEC.cpp:84-121 | the same for init, term and the daemon's enable |
| DataRaces.ThreadsUse | ccec/src/Bus.cpp:127-284 | the same for the reader and the writer |
| DataRaces.OnlyPeeksRace | ccec/src/DriverImpl.cpp:99-383 | in every run of any number of threads, a thread about to write data that another is about to use means that the other is about to peek at it |
| DataRaces.RacesExactly | ccec/src/DriverImpl.cpp:340-383 | some run has two threads at the same data, one of them to write it, if and only if it is one of the five that are peeked at |
| SymbolCache.CallUsesLastFind | devmgr/src/Host.cpp:81-99 | after any events a call goes to the wrapper's last find while the generation seems the same, and else does a direct lookup |
| SymbolCache.CallDiffersExactly | devmgr/src/Host.cpp:46-99 | after any events a call differs from direct lookup if and only if the wrapper's last successful lookup was in an earlier load of the same generation modulo 2^32 whose instance resolves differently |
| SymbolCache.CacheIsCoherent | devmgr/src/Host.cpp:46-99 | without a wrap of the generation every call equals direct lookup |
| SymbolCache.WrapIsStale | devmgr/src/Host.cpp:46-99 | after 2^32 more loads, with a counter that wraps, a wrapper still calls the first instance |
| SymbolCache.HostShim.LoadPlugin | devmgr/src/Host.cpp:46-64 | the variables take the step of the model, the generation wrapping |
| SymbolCache.HostShim.UnloadPlugin | devmgr/src/Host.cpp:66-79 | the handle is dropped, pointers and generation stay |
| SymbolCache.HostShim.CallThrough | devmgr/src/Host.cpp:81-114 | the wrapper's statics and result are those of the model |
| DeviceTable.DeviceStatus.constructor | host/src/RDK.cpp:111-119 | the reset table |
| DeviceTable.DeviceStatus.SetDeviceStatus | host/src/RDK.cpp:254-309 | an event is sent if and only if the field does not show the status, and applied to the old table it gives the new one |
| DeviceTable.DeviceStatus.Disconnected | host/src/RDK.cpp:464-476 | the reset table, with no event |
| DeviceTable.StoredName | host/src/RDK.cpp:274-281 | a terminated name is stored whole, an unterminated one loses its last octet |
| DeviceTable.UnterminatedNeverShows | host/src/RDK.cpp:274-284 | an unterminated name counts as a change even right after it was set |
| DeviceTable.EventMeansChange | host/src/RDK.cpp:254-309 | for every device and status, an event goes out exactly when the entry changes, if and only if the status is not an unterminated name that the entry already holds cut |
| DeviceTable.EntriesKeepTheirAddress | host/src/RDK.cpp:112-118 | after any history entry i is for address i and its name is terminated |
| DeviceTable.ReplayIsTheTable | host/src/RDK.cpp:254-309 | a listener's entry equals the cache's if every event about the device since the last reset was taken by the bus |
| DeviceTable.LogReproducesTable | host/src/RDK.cpp:254-309 | with all broadcasts taken, folding events and resets over the reset table gives the cache |
| DeviceTable.EventsAloneAreRight | host/src/RDK.cpp:254-309 | for every history, device and field, a listener to the events alone has the field right if and only if it was told of it since the last unplug or has its reset value |
| DeviceTable.EventsAloneAfterUnplug | host/src/RDK.cpp:464-476 | right after a first unplug the events alone give the whole cache if and only if there was nothing to reset |
| DeviceTable.EventsAloneMissTheReset | host/src/RDK.cpp:464-476 | one history in which they do not |

## Left out

- The IARM bus, dlopen and dlsym, device settings, the SoC driver and pthreads: their results are parameters or choices of the environment, a mutex is an owner, a sleeper may wake for no reason.
- Threads that `Bus::start` created are assumed to have begun to run before the next term begins (ccec/src/Bus.cpp:87-94, 146-149); a stop that overtakes them returns at once and two readers can result.
- Init and term run one at a time and alone call open and close, as the mutex of LibCCEC makes them.
- In `BusProtocol` polls and offers are single steps, at which `QueueProtocol.RunRefines` shows them to take effect; a listener's send makes one attempt, and sleeps between retries are not steps.
- In `LockOrder` branches and loops are left to chance, and waits that are not for a mutex may take any time.
- Two things the threads share are guarded by no mutex and are not among the data of `DataRaces`: the volatile state of Stoppable (osal/include/osal/Stoppable.hpp:68) and the source of a connection (ccec/include/ccec/Connection.hpp:83-85).
- The destructors of Bus and DriverImpl, and the drop of a connection without a close.
- TwoHop.ClientWrite: frames of more than 63 octets are left out, as for `HdmiCecTx`.
- TwoHop.HdmiCecTx: frames of more than 63 octets are left out, because they do not fit the IARM parameter and what the bounded copy then does is foreign code.
- Connections.Connection.MatchSource: the empty frame is left out, because the code reads its first octet all the same.
- Connections.Connection.Notify: the empty frame is left out, because reading its header throws.
- Drivers.DriverImpl.Write: the empty frame is left out, because the code looks at its first octet after the native call.
- Buses.Bus.Send: the empty frame is left out, as for the driver's write.
- Connections.SendToIsStamped: destinations of more than four bits are left out, because no logical address has them and the header would spill into the other nibble.
- Messages.BuildDescriptors: the constructor of ReportShortAudioDescriptor from a vector is left out, because it leaves the member count unset (ccec/include/ccec/Messages.hpp:521-534).
- Osal.ConditionVariable.WakeTime: does not model overflow of the seconds field.
- BusFaults.DisciplinedRunsDoNotCrash: a sufficient rule; the exact condition is that of `BusFate.CrashIsDecidedAtTheOffers`.
- BusStop.StopProgress: does not say who can move when the reader has crashed with the driver's mutex and control waits for that mutex elsewhere than in the wait for the reader; `BusFate.NoStopEndsAfterCrash` says that no stop ends then.
- Buses.Bus.Stop: has the threads take their last steps where stop waits for them; which interleavings get there is what `BusFate` is about.
- `getLogicalAddress` and `getPhysicalAddress` of the driver: they pass a native result on and touch no state of the stack.
- `writeAsync`: nothing in the stack calls it.
- Logging, printing and opcode names: they have no effect on frames or state.
- The device-manager message processor, the host's OSD name and power handlers, and the main loops: their clients are outside the stack.
- Which exception object is thrown, and its text: an outcome names its class only.
