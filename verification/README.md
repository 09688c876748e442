# Verified model of the IO-Link master and the tank station around it

This project models, in Dafny, the parts of the repository that are hardest to
get right, and proves what they are for:

- **The IO-Link master data link layer** (`iolink_dl.c`): mode, message,
  on-request data (OD), ISDU, command and event handlers that share one
  structure and one on-request channel to the device.
- **The layers above it**: the application layer's two state machines
  (`iolink_al.c`), the configuration manager (`iolink_cm.c`), and the job pool
  several threads share (`iolink_main.c`, with the mailboxes of `osal.c`).
- **The stream and packing algorithms** of the Bluetooth bridge
  (`rotorsync_bumble.py`): greedy pagination, the frame extractor of the
  battery monitor's byte stream, and the reassembly of chunked commands.
- **The filling station** (`dashboard.py`, `mopeka_converter.py`): the fill
  cycle with its automatic pump stop, the calibration workflow, and the lookup
  of gallons from a measured height.

## How it is built

What a handler does is written twice. A *machine* module gives each handler call
as a function on records, with every observable act (request on the line,
confirmation, indication, relay fired, ...) appended to a log. A *class* has the
fields of the original structure and methods that update them, and its buffers,
in place; each method is proved against the function of the same handler. The
theorems are about the functions and whole runs of them. Where an object serves a
series of events its method `Serve` carries the theorems over to it: `Link`,
`Layer`, `Manager`, `Dashboard`, `Calibration`, `Notifications` and
`ConfigCommands` have one. `Mailbox`, `Master` and `Converter` state their
results call by call. A handler method whose contract is only that its object
does what the function does has no row below; `Serve` builds on all of them.

| module | contents |
|---|---|
| `Octets`, `DlTypes` | octets, checksum, bounded copies; the data link layer's records and acts |
| `IsduCoding` | ISDU coding of Annex A.5 of the IO-Link Interface and System Specification, with an independent reader |
| `IsduMachine`, `EventMachine`, `LinkLayer` | the handlers; `LinkLayer.Dispatch` is one turn of the link thread or one service call |
| `LinkFrames` | what each handler leaves untouched, and how an OD request becomes a message |
| `IsduTransfer`, `IsduAccounting`, `EventReadout`, `Watchdog` | transfers, confirmations, event readout, retry and watchdog |
| `OdMarks`, `OdInterleaving` | who asks and who is answered on the shared channel, over whole sessions |
| `SharedChannel`, `SharedChannelRuns`, `ReadoutRuns` | transfers and readouts on that channel, and that such runs exist |
| `SessionMessages` | the messages on the line against the handlers' requests |
| `SessionEntry`, `LinkUp`, `LateOperate`, `SwitchOff` | how sessions begin, how a fresh link gets there, and what switching handlers off leaves behind |
| `DataLink` | the class `Link` |
| `AlMachine`, `AlAnswers`, `AlServices`, `ServiceOnLink`, `ApplicationLayer` | application layer: machine, theorems, also over runs of the link, class `Layer` |
| `CmMachine`, `CmSafety`, `ConfigManager` | configuration manager: machine, theorems, class `Manager` |
| `JobMachine`, `JobPool` | jobs: interleaved steps of all threads and their conservation; classes `Mailbox` (the ring buffer) and `Master` |
| `Pagination`, `JbdFrames`, `ChunkAssembly`, `ChunkText` | the Bluetooth bridge |
| `FillMachine`, `FillController` | the fill cycle: machine and theorems, class `Dashboard` |
| `CalibrationWorkflow`, `Interpolation` | calibration and lookup, with their classes |

`dafny verify dfyconfig.toml` checks everything.

## Where the code falls short of what it seems to promise

The model does what the code does. Where that breaks a property, the exact
condition under which the property holds is proved instead.

- An extended ISDU response in one-octet segments is sized from an octet that
  has not arrived yet. It is received if and only if the octet left over from
  the request is at least 3 and not 16 (`IsduTransfer.SingleOctetSegments`), and
  so it is lost exactly for short requests whose index, or its first octet, is 1,
  2 or 16 (`IsduTransfer.SingleOctetService`).
- The event flag and the OD handler's COMMAND_2 survive a lost connection. An
  OPERATE session keeps requests and replies paired if and only if neither is
  left over in the wrong combination (`SessionEntry.SessionStart`); a connection
  lost just when the device has reported events makes the next session begin
  with the flag set, and its first ISDU reply is thrown away
  (`LinkUp.BothBeginningsReached`).
- The ISDU handler, switched off amid a transfer without a lost link, stays in
  its state although inactive; `SwitchOff.OffExactly` says when, and
  `SwitchOff.GivenUp` shows it on the run that gives a connection up.
- The OD handler, switched off in COMMAND_2, sets the command handler's state
  instead of its own (`SwitchOff.OdOffExactly`). Switched on again it confirms a
  command no device has answered, or swallows the next session's first trigger
  (`SwitchOff.CommandLeftOver`, `SwitchOff.FirstTriggerLost`); a device that falls
  silent with a command on its way is enough
  (`SwitchOff.CommandLeftAtSwitchOff`).
- A second command asked for while the message of one is out blocks the on-request
  channel: the same message goes out again and again
  (`SessionMessages.CommandBlocks`).
- OPERATE set while an acyclic message is to be sent, out or to be repeated never
  leads to OPERATE_12, which is reached exactly from PREOPERATE_6
  (`LateOperate.OperateReachedExactly`). The reply leads to AW_REPLY_16 with no
  cyclic message sent, and the link is lost as soon as the timer expires
  (`LateOperate.NoSession`, on the run of `LateOperate.LateReached`).
- The watchdog of the first cyclic message is disarmed by the timer expiry that
  sends that message (`Watchdog.SessionLost`). A good reply does not zero the
  retry counter, so four errors lose the link however far apart
  (`Watchdog.LostExactly`).
- The octet written to confirm an event is the transmit buffer's first, which by
  then holds the request's own header, 0x40 (`EventReadout.ConfirmationWritten`).
- A parameter confirmation that does not match the direction of the running
  service answers it in the wrong form (`AlAnswers.AnswerForm`); aborting a read
  and starting a write while its confirmation is on the way does it
  (`AlAnswers.LateConfirmation`).
- A second set of events before the first is acknowledged is lost, and stops the
  layer if and only if the two have more than six events
  (`AlServices.SecondSetUnacknowledged`).
- A port configuration during DS_ParamManager is ignored without an answer
  (`CmSafety.ConfigurationAnswered`), and an illegal one hands the old target
  mode to the system manager (`CmSafety.IllegalConfiguration`).
- `AL_Event_req`, which nothing in the repository calls, is not in the main loop's
  list: one call of it and the loop keeps the job for good and takes no other
  (`JobMachine.EventRequestStuck`). Jobs are conserved if and only if it is not
  posted (`JobMachine.ConservedExactly`).
- A chunk that ends in white space loses it, and the command put together is not
  the one that was cut (`ChunkText.SplitCommand`).
- A chunk number outside 1 to the total is stored and blocks its connection
  (`ChunkAssembly.StrayBlocks`).
- A calibration fill is not measured if the abort question is up when it ends or
  when it begins, or if it has begun before its step; the workflow then goes on
  waiting for a fill that is over (`CalibrationWorkflow.MeasuredExactly`, with an
  input for each).
- The 60 characters set aside for a page are enough for counters of at most 11
  digits and no more (`Pagination.PageWithinSize`).

## Model

| member | source | states |
|---|---|---|
| `IsduCoding.RequestRoundTrip` | iol-hat/src-master-application/ilink/iolink_dl.c:3132-3250 | For every direction, index from 2, subindex and data that fit: the octets built sum to zero, and a reader following Annex A.5 recovers exactly that direction, index, subindex and data, whatever octets follow. |
| `IsduCoding.FrameReads` | iol-hat/src-master-application/ilink/iolink_dl.c:273-300 | A framed service announces its own length (extended form exactly from 17 octets up, never as 16), sums to zero, and its service nibble and body can be cut back out of it. |
| `IsduCoding.ResponseRoundTrip` | iol-hat/src-master-application/ilink/iolink_dl.c:335-369 | Whatever service and data a device may answer with is accepted as a legal header and parses back to that service and that data, checksum intact. |
| `IsduTransfer.RequestTransfer` | iol-hat/src-master-application/ilink/iolink_dl.c:1861-1965 | The request transfer: alternating master and device turns send exactly ceil(total / OD length) OD writes with flow control START, 1, 2, ... mod 16, whose payloads joined decode to the accepted request; then the handler waits for the answer, its timer started by the last reply. |
| `IsduTransfer.ResponseTransfer` | iol-hat/src-master-application/ilink/iolink_dl.c:1977-2109 | The response transfer: after any number of busy replies, a well-formed response in segments of any OD length (2 or more when the length is extended, or a harmless stale octet) is read with START, 1, 2, ... and confirmed once, with its own data and service nibble, NO_ERROR exactly when all its octets sum to zero and CHECKSUM_ERROR otherwise. |
| `IsduTransfer.CompletionConfirms` | iol-hat/src-master-application/ilink/iolink_dl.c:1788-1825 | With the whole response in the buffer, the one confirmation carries exactly the data slice and service nibble a reader of the response finds, and the status its checksum calls for. |
| `IsduTransfer.Conversation` | iol-hat/src-master-application/ilink/iolink_dl.c:1847-2144 | Request, any number of busy replies and response in one run: the writes decode to the request, the reads follow, and there is exactly one confirmation. |
| `IsduTransfer.ConversationPossible` | iol-hat/src-master-application/ilink/iolink_dl.c:1931-2109 | For every response and any number of busy replies a device that answers at once meets the conditions of such a conversation. |
| `IsduTransfer.SingleOctetSegments` | iol-hat/src-master-application/ilink/iolink_dl.c:2028-2092 | An extended response in one-octet segments is received if and only if the second octet left over in the buffer is at least 3 and not 16, because the length is read before that octet has arrived. |
| `IsduTransfer.SingleOctetService` | iol-hat/src-master-application/ilink/iolink_dl.c:2028-2092 | The same for a whole service: its request decides, and the response is lost exactly for a short request whose index, or the first octet of it, is 1, 2 or 16, such as a read of index 2. |
| `IsduTransfer.SecondOctet` | iol-hat/src-master-application/ilink/iolink_dl.c:3176-3246 | The second octet of a request: its length if extended, and then at least 17, the first octet of the index otherwise. |
| `IsduTransfer.CopiesInsideBuffer` | iol-hat/src-master-application/ilink/iolink_dl.c:1946-1954 | Every whole-segment copy of a message stays inside the ISDU buffer if and only if the last one does. |
| `LinkFrames.MessageCarriesRequest` | iol-hat/src-master-application/ilink/iolink_dl.c:2750-2822 | The next master message is the request: its control octet, the M-sequence type, untouched process data and, for a write, exactly its payload; a read expects a reply of the OD length. |
| `OdMarks.PairedAlternates` | iol-hat/src-master-application/ilink/iolink_dl.c:2718-2745 | Pairing of requests and replies over all handlers implies strict alternation for the ISDU handler, which is owed a reply exactly after an odd number of triggers. |
| `OdMarks.EventsAlternate` | iol-hat/src-master-application/ilink/iolink_dl.c:2678-2716 | For the event handler the same holds as long as every reply reports events; a reply that reports none drops its request instead. |
| `OdInterleaving.TriggersAlternate` | iol-hat/src-master-application/ilink/iolink_dl.c:2606-2745 | On every run of an OPERATE session, whatever was logged before it, and however commands, event readouts, errors and resends cut in, the triggers the ISDU handler is given since its start strictly alternate master, device, and each reply goes to the handler whose request the message before it carried. |
| `OdInterleaving.ExchangeContinues` | iol-hat/src-master-application/ilink/iolink_dl.c:1264-1319 | One reply followed by the next message keeps the session: who is owed the reply is recorded by the OD handler state, and the ISDU and event handlers have moved exactly as their own inputs make them. |
| `OdInterleaving.SessionContinues` | iol-hat/src-master-application/ilink/iolink_dl.c:1142-1384 | The same over any run on the line with commands: unless the link is lost, both handlers have gone where their own triggers alone lead them, and what they said on their channels is what those triggers make them say. |
| `SessionEntry.SessionStart` | iol-hat/src-master-application/ilink/iolink_dl.c:1142-1216 | From OPERATE_12 with handlers switched on, requests and replies stay paired on every run that follows if and only if the OD handler asks the ISDU handler with no event flagged, or the event handler with one; otherwise two messages with full-length replies break the pairing. |
| `LinkUp.OperateEntered` | iol-hat/src-master-application/ilink/iolink_dl.c:601-696 | On every run from a fresh link, each time OPERATE_12 is reached (with no parameter write pending) the handlers are switched on, so that the condition of `SessionEntry.SessionStart` decides. |
| `LinkUp.BothBeginningsReached` | iol-hat/src-master-application/ilink/iolink_dl.c:753-956 | Both beginnings are reached: the first connection of a fresh link begins its session clean, and after a connection lost just when the device had reported events the next one does not. |
| `LinkUp.CalmReached` | iol-hat/src-master-application/ilink/iolink_dl.c:826-1216 | Plugging in, the page accesses of start-up, the switch to OPERATE and its first message lead from a fresh link to a session in which requests can be accepted and events reported. |
| `LateOperate.OperateReachedExactly` | iol-hat/src-master-application/ilink/iolink_dl.c:637-666 | The mode handler turn that enters OPERATE takes the message handler to OPERATE_12 if and only if it waits in PREOPERATE_6, and not with an acyclic message to be sent, out or repeated. |
| `LateOperate.OperateMissed` | iol-hat/src-master-application/ilink/iolink_dl.c:1035-1135 | If not then, never: no later run comes to OPERATE_12 before the next change of mode. |
| `LateOperate.NoSession` | iol-hat/src-master-application/ilink/iolink_dl.c:1035-1135 | From that turn: the reply that ends the acyclic transfer leads to AW_REPLY_16 with nothing sent; no cyclic message is made ready from the turn on; and, whatever is asked of the link, it is lost if and only if the timer expires. |
| `LateOperate.LateReached` | iol-hat/src-master-application/ilink/iolink_dl.c:958-1088 | It happens: an allowed run from a fresh link reads a parameter in PREOPERATE and sets OPERATE while the read is out. |
| `SharedChannel.TransferOnSharedChannel` | iol-hat/src-master-application/ilink/iolink_dl.c:1226-1319 | A request accepted in such a session is transferred on the shared channel exactly as on one of its own: its segments, the read requests, one confirmation with the response, and after that only idle requests on the ISDU channel. |
| `SharedChannel.ReadoutOnSharedChannel` | iol-hat/src-master-application/ilink/iolink_dl.c:2678-2716 | With the event flag held and a device that answers from its memory, whatever commands and ISDU requests cut in, the diagnosis traffic and the indications are exactly those of `EventReadout.ReadoutRun`. |
| `SessionMessages.OneForOne` | iol-hat/src-master-application/ilink/iolink_dl.c:1142-1384 | On every run of a session, until the link is lost: the new messages are the handlers' requests one for one and in order, each with its control octet, the M-sequence type, the process data and what the request writes, as long as commands come one at a time. |
| `SessionMessages.SessionMessagesReached` | iol-hat/src-master-application/ilink/iolink_dl.c:1142-1384 | A fresh link comes to such a session, and its messages carry the requests one for one from OPERATE_12 on. |
| `SessionMessages.SecondCommand` | iol-hat/src-master-application/ilink/iolink_dl.c:3252-3269 | It takes one such command while another waits for its reply. |
| `SessionMessages.CommandBlocks` | iol-hat/src-master-application/ilink/iolink_dl.c:2641-2676 | Why one at a time: a second command while the message of one is out leaves the OD handler in COMMAND_2 on every run, with nobody asked for anything, until another command or the loss of the link. |
| `SharedChannelRuns.TransferPossible` | iol-hat/src-master-application/ilink/iolink_dl.c:1226-1319 | For every request accepted in a calm session, every well-formed response and any number of busy replies there is a run that meets the conditions of `SharedChannel.TransferOnSharedChannel`. |
| `ReadoutRuns.ReadoutPossible` | iol-hat/src-master-application/ilink/iolink_dl.c:1226-1319 | For every device memory with events to tell there is a run that meets those of `SharedChannel.ReadoutOnSharedChannel`, with no more triggers than the readout takes. |
| `EventReadout.Readout` | iol-hat/src-master-application/ilink/iolink_dl.c:2238-2549 | A detailed status code with n >= 1 of its low six bits set leads to a read of address 0, then of 3b+1, 3b+2, 3b+3 for each set bit b in ascending order, then n indications of the octets read there, counting down to zero. |
| `EventReadout.ReadoutRun` | iol-hat/src-master-application/ilink/iolink_dl.c:2238-2549 | The same on any alternating triggers whose replies come from the device memory, followed by the one confirmation. |
| `EventReadout.SetBitsHolds` | iol-hat/src-master-application/ilink/iolink_dl.c:2353-2408 | The entries read are exactly those whose bit is set. |
| `EventReadout.ConfirmationWritten` | iol-hat/src-master-application/ilink/iolink_dl.c:2259-2277 | After a readout the next master message writes the octet 0x40 to address 0 of the diagnosis channel, once. |
| `IsduAccounting.RunKeepsBooks` | iol-hat/src-master-application/ilink/iolink_dl.c:1717-1860 | On every run, start-up and lost links included, each accepted request is confirmed at most once and nothing else is confirmed; in IDLE_1 the segment count is nonzero exactly while an accepted request is unanswered. The layers above have one ISDU request and one start-up page access out at a time, and leave PREOPERATE and OPERATE only by losing the link. |
| `IsduAccounting.StepAgrees` | iol-hat/src-master-application/ilink/iolink_dl.c:2111-2144 | Each call of the ISDU handler keeps its record and the count of unanswered requests in agreement. |
| `IsduAccounting.SwitchOff` | iol-hat/src-master-application/ilink/iolink_dl.c:1764-1786 | Deactivated after the link is lost, the ISDU handler is in INACTIVE_0 from every state, with exactly one NO_COMM confirmation for an outstanding request, except that ISDUERROR_4 drops it. |
| `IsduAccounting.PortLost` | iol-hat/src-master-application/ilink/iolink_dl.c:537-549 | The mode handler turn after a lost link brings the port to IDLE_0, the ISDU handler to INACTIVE_0 and settles what was owed, whatever was accepted between the loss and that turn. |
| `SwitchOff.OffExactly` | iol-hat/src-master-application/ilink/iolink_dl.c:1827-2109 | Switched off in any state, the ISDU handler is brought to INACTIVE_0 if and only if it has no transfer going (IDLE_1, ISDUERROR_4) or a reason to give it up: an abort, a lost link, a time-out or a bad reply in WAIT_3. |
| `SwitchOff.GivenUp` | iol-hat/src-master-application/ilink/iolink_dl.c:668-696 | When the layer above gives up a running connection, the port is idle after the mode handler turn, but a transfer is at rest only under that same condition. |
| `SwitchOff.OdOffExactly` | iol-hat/src-master-application/ilink/iolink_dl.c:2641-2676 | Switched off, the OD handler is brought to INACTIVE_0 if and only if it is not in COMMAND_2. |
| `SwitchOff.CommandLeftOver` | iol-hat/src-master-application/ilink/iolink_dl.c:2641-2676 | Switched on again from there, a command whose message had gone out is confirmed although no device answered it; any other leaves the handler waiting in COMMAND_2. |
| `SwitchOff.FirstTriggerLost` | iol-hat/src-master-application/ilink/iolink_dl.c:2641-2676 | Waiting there, it passes the first trigger of the next session on to nobody, and the message that goes out carries the last request once more. |
| `SwitchOff.CommandLeftAtSwitchOff` | iol-hat/src-master-application/ilink/iolink_dl.c:2641-2676 | It happens: from any calm session, such as the one of `LinkUp.CalmReached`, an allowed run in which the device falls silent with a command on its way leaves the port idle and the OD handler in COMMAND_2, and switched on again it confirms the command. |
| `Watchdog.RunBounded` | iol-hat/src-master-application/ilink/iolink_dl.c:1190-1384 | On every run the retry counter equals the resends since it was last zeroed and never exceeds three. |
| `Watchdog.LostExactly` | iol-hat/src-master-application/ilink/iolink_dl.c:1226-1384 | While a cyclic reply is awaited, whatever replies, services, commands and clock ticks come in between, the link is lost if and only if errors make four since the counter was zeroed, good replies between them or not, or the timer expires after a reply or a resend; until then the handler goes on waiting. |
| `Watchdog.SessionLost` | iol-hat/src-master-application/ilink/iolink_dl.c:1142-1384 | A whole session from OPERATE_12: the same count from its first message; that message is watched if a turn of the thread sent it, and not if the timer expiry did, which disarms what its handler armed. |
| `Watchdog.SilenceEndsIt` | iol-hat/src-master-application/ilink/iolink_dl.c:3513-3534 | After any run that holds a reply or an error, or began with the watchdog armed, a timer expiry leaves the link lost: COMLOST and INACTIVE_0. |
| `DataLink.Link.OdReq` | iol-hat/src-master-application/ilink/iolink_dl.c:2750-2822 | In place, the transmit buffer becomes the message `LinkFrames.MessageCarriesRequest` describes, process data untouched; a request of more than 32 octets or a flow control above 31 leaves it as it was. |
| `DataLink.Link.ReceptionComplete` | iol-hat/src-master-application/ilink/iolink_dl.c:1788-1825 | The loop over the in-place buffer gives the checksum of exactly the announced octets; one confirmation with the data slice, then IDLE_1 with counters and command cleared. |
| `DataLink.Link.SignalEvents` | iol-hat/src-master-application/ilink/iolink_dl.c:2480-2549 | The loops indicate every entry (or every fixed event of a plain status code) once, in order, counting down, and a confirmation is owed. |
| `DataLink.Link.ReadStatusCode` | iol-hat/src-master-application/ilink/iolink_dl.c:2353-2408 | The bit scans count exactly the flagged entries and find the lowest; a code without details is indicated at once. |
| `DataLink.Link.ReadMemoryByte` | iol-hat/src-master-application/ilink/iolink_dl.c:2410-2478 | The octet lands in the field its address names; after the third the scan finds the next flagged entry, or all are indicated. |
| `DataLink.Link.FillRequest` | iol-hat/src-master-application/ilink/iolink_dl.c:3176-3246 | The octets put together in the cleared buffer are the coding whose round trip is proved, and zeros after it. |
| `DataLink.Link.IsduTransportReq` | iol-hat/src-master-application/ilink/iolink_dl.c:3132-3250 | Exactly one of: refused NO_COMM, VALUE_OUT_OF_RANGE or STATE_CONFLICT with nothing changed, or accepted with the encoded request in the buffer and its segments counted. |
| `DataLink.Link.Serve` | iol-hat/src-master-application/ilink/iolink_dl.c:3539-3629 | Any series of turns and calls on the object ends where the run of the model does, and so has its results: the retry bound; the books and the handlers switched on, while the layers above keep to one request at a time; in a session requests and replies paired, both handlers led by their own triggers alone, transfers and readouts as on a channel of their own, the messages carrying the requests one for one, and the link lost exactly by four errors or by silence. |
| `DataLink.Link.constructor` | iol-hat/src-master-application/ilink/iolink_dl.c:3631-3671 | A fresh link is unplugged, with its books in order and no event flagged: where `LinkUp.BothBeginningsReached` and `LinkUp.CalmReached` start from. |
| `AlAnswers.AnsweredOnce` | iol-hat/src-master-application/ilink/iolink_al.c:578-692 | On every run, whatever confirmations, busy rejections and aborts arrive, the multiset of callbacks asked for equals the callbacks made plus the one of a service still waiting; the layer never rests in Build_DL_Service. |
| `AlAnswers.DispatchEnds` | iol-hat/src-master-application/ilink/iolink_al.c:648-692 | Every dispatch ends within two transitions (two exactly for a new request from idle) with the stated effect. |
| `AlAnswers.NeverRestsBuilding` | iol-hat/src-master-application/ilink/iolink_al.c:343-403 | No dispatch leaves the layer in Build_DL_Service. |
| `AlAnswers.BusyLeavesService` | iol-hat/src-master-application/ilink/iolink_al.c:314-341 | Any number of requests during a running service are each told to come back, and leave its callback, direction, index, subindex and data untouched. |
| `AlAnswers.AnswerForm` | iol-hat/src-master-application/ilink/iolink_al.c:882-911 | An answer has the form its callback expects, except that a parameter confirmation decides the form itself: it is right if and only if the running service has that direction. |
| `AlAnswers.LateConfirmation` | iol-hat/src-master-application/ilink/iolink_al.c:882-938 | A run on which it has not: a read is aborted, a write begun, and the confirmation of the read answers the writer with a read result; its own confirmation is then ignored. |
| `AlServices.ServiceAnswered` | iol-hat/src-master-application/ilink/iolink_al.c:405-531 | A read or write of an index from 2 goes down once and unchanged and is answered once, with the data and error code of the device response or a checksum error, however many others are turned away meanwhile. |
| `ServiceOnLink.ServiceReachesDevice` | iol-hat/src-master-application/ilink/iolink_al.c:405-531 | The same on runs of the link, from the call to the answer: the request that goes down is served on the shared channel, the link confirms it exactly once, and with that confirmation the caller is answered. |
| `ServiceOnLink.ServicePossible` | iol-hat/src-master-application/ilink/iolink_dl.c:3132-3250 | From every calm session with nothing to be transferred the request is accepted, and for every well-formed response there is a run of the link that serves it. |
| `AlServices.EventSetDelivered` | iol-hat/src-master-application/ilink/iolink_al.c:694-768 | One to six events, from idle, become one AL_Event_ind with those events in order; the event count assertion holds and the acknowledgement makes the layer idle again. |
| `AlServices.EventSetsDelivered` | iol-hat/src-master-application/ilink/iolink_al.c:713-736 | Any number of sets, each acknowledged before the next, are indicated one by one, in order and complete. |
| `AlServices.EventsReachApplication` | iol-hat/src-master-application/ilink/iolink_al.c:853-875 | From device memory to application, on runs of the link with the event flag held, commands and ISDU traffic cutting in: the flagged events, in ascending bit order, are indicated once. |
| `AlServices.UnacknowledgedEvents` | iol-hat/src-master-application/ilink/iolink_al.c:853-875 | Events that come before the acknowledgement are never indicated, and the assertion fails if and only if they no longer fit six. |
| `AlServices.SecondSetUnacknowledged` | iol-hat/src-master-application/ilink/iolink_al.c:702-711 | Of two sets without an acknowledgement in between the second is lost, and the layer stops if and only if they have more than six events. |
| `ApplicationLayer.Layer.OdEvent` | iol-hat/src-master-application/ilink/iolink_al.c:648-692 | The loop over the tables ends, at most two transitions later, where `AlAnswers.DispatchEnds` says, never in Build_DL_Service. |
| `ApplicationLayer.Layer.OnRequest` | iol-hat/src-master-application/ilink/iolink_al.c:844-851 | A request from rest is begun; during a service its caller alone is told to come back. |
| `ApplicationLayer.Layer.IsduTransportCnf` | iol-hat/src-master-application/ilink/iolink_al.c:1120-1185 | In the link thread, data and length of the response are left in place for the confirmation job, or the error code of a negative response. |
| `ApplicationLayer.Layer.OnDlEvent` | iol-hat/src-master-application/ilink/iolink_al.c:853-875 | An entry is stored under its count, the last one indicates the whole set; the object stops where the assertion on the count would fail. |
| `ApplicationLayer.Layer.Serve` | iol-hat/src-master-application/ilink/iolink_al.c:844-948 | Any series of jobs: unless the event assertion stops the layer, the callbacks asked for are those called plus the one owed. |
| `CmSafety.CmDispatchEnds` | iol-hat/src-master-application/ilink/iolink_cm.c:746-788 | Every dispatch ends within two transitions, with the effect read off the state diagram. |
| `CmSafety.StepConsistent` | iol-hat/src-master-application/ilink/iolink_cm.c:475-508 | At every moment the reported status is the one of the state or DEACTIVATED, port mode and data exchange fit the state, and the stored configuration is legal, so the assertions on it hold. |
| `CmSafety.ConfiguredState` | iol-hat/src-master-application/ilink/iolink_cm.c:309-406 | A configuration leads to SM_Startup, PortDIDO or PortDeactivated by its mode, the last also if it is illegal, and only a legal one is stored. |
| `CmSafety.ConfiguredStops` | iol-hat/src-master-application/ilink/iolink_cm.c:309-330 | Whatever its mode, the data exchange is stopped. |
| `CmSafety.LeadsRight` | iol-hat/src-master-application/ilink/iolink_cm.c:650-744 | The tables, searched in order, have for every event and state the transition of the state diagram, or none. |
| `CmSafety.RunConsistent` | iol-hat/src-master-application/ilink/iolink_cm.c:650-788 | The same on every run. |
| `CmSafety.OnlyConfigurationLeaves` | iol-hat/src-master-application/ilink/iolink_cm.c:650-659 | In CheckPortMode an input leads elsewhere if and only if it is a port configuration. |
| `CmSafety.RestsUntilConfigured` | iol-hat/src-master-application/ilink/iolink_cm.c:431-442 | After a lost connection the manager stays in CheckPortMode on every run without a port configuration. |
| `CmSafety.BroughtUpInOrder` | iol-hat/src-master-application/ilink/iolink_cm.c:661-744 | Port_Active is reached only by COMREADY, DS_Ready and SM_OPERATE in this order since SM_Startup was last entered, and the states before it by their part of that. |
| `CmSafety.ConfigurationAnswered` | iol-hat/src-master-application/ilink/iolink_cm.c:309-406 | A configuration request is answered exactly once if and only if it does not come in DS_ParamManager. |
| `CmSafety.IllegalConfiguration` | iol-hat/src-master-application/ilink/iolink_cm.c:618-645 | An illegal configuration deactivates the port, but the system manager gets the target mode of the stored one: inactive if and only if that was a deactivation. |
| `ConfigManager.Manager.CheckMode` | iol-hat/src-master-application/ilink/iolink_cm.c:309-406 | Data exchange is stopped first; an illegal configuration is refused and not stored, a legal one stored and answered, and its mode decides the event. |
| `ConfigManager.Manager.PortFaultAction` | iol-hat/src-master-application/ilink/iolink_cm.c:562-616 | A lost connection is handed on as such; any other fault makes the port report diagnosis with the event code of its kind. |
| `ConfigManager.Manager.InitPortInfo` | iol-hat/src-master-application/ilink/iolink_cm.c:475-508 | The reported status, with the device data except for a deactivated port. |
| `ConfigManager.Manager.Act` | iol-hat/src-master-application/ilink/iolink_cm.c:650-744 | Each transition has the action of the state diagram, and only a configuration or a lost connection asks for another. |
| `ConfigManager.Manager.Event` | iol-hat/src-master-application/ilink/iolink_cm.c:746-788 | The loop over the tables ends where `CmSafety.CmDispatchEnds` says. |
| `ConfigManager.Manager.Handle` | iol-hat/src-master-application/ilink/iolink_cm.c:791-978 | One job leads where the step of `CmSafety.StepConsistent` leads. |
| `ConfigManager.Manager.Serve` | iol-hat/src-master-application/ilink/iolink_cm.c:746-838 | Any series of jobs from a consistent port keeps it consistent. |
| `JobMachine.JobsConserved` | iol-hat/src-master-application/ilink/iolink_main.c:158-337 | However the steps of the threads interleave, each of the 40 + 10 jobs is in exactly one place, every queued job will go back to the mailbox it came from, and a post to the work mailbox finds room. |
| `JobMachine.ReturnsWhereFetched` | iol-hat/src-master-application/ilink/iolink_main.c:158-251 | The main loop returns a job to the mailbox its service fetched it from for every service but AL_Event_req. |
| `JobMachine.RoomAtHome` | iol-hat/src-master-application/ilink/iolink_main.c:215-251 | A finished job always finds room in its own free mailbox. |
| `JobMachine.LoopFinishReturns` | iol-hat/src-master-application/ilink/iolink_main.c:215-251 | A finished job is put at the end of its own free mailbox, its type cleared. |
| `JobMachine.ConservedExactly` | iol-hat/src-master-application/ilink/iolink_main.c:158-251 | With every type a service may post, AL_Event_req too: each job stays in exactly one place on every run, and all queued ones will go back where they came from if and only if none has been posted as AL_Event_req. |
| `JobMachine.EventRequestStuck` | iol-hat/src-master-application/ilink/iolink_main.c:215-251 | From any conserved pool with a free API job, a call of AL_Event_req and enough turns of the main loop put that job in its hand; and on every later run of all threads the loop keeps it, and no job comes home. |
| `JobMachine.StuckForGood` | iol-hat/src-master-application/ilink/iolink_main.c:158-251 | With such a job in hand the loop takes no other, whatever threads do: the work mailbox only grows and the free ones only shrink. |
| `JobMachine.LoopDrains` | iol-hat/src-master-application/ilink/iolink_main.c:158-251 | Left alone, the main loop takes the queued jobs home in order, up to the first AL_Event_req if there is one. |
| `JobPool.Mailbox.Fetch` | iol-hat/src-master-application/iol_osal/osal.c:351-397 | The ring buffer gives its oldest message, or none when empty. |
| `JobPool.Mailbox.Post` | iol-hat/src-master-application/iol_osal/osal.c:399-445 | The ring buffer takes one more message at the end, or fails exactly when full. |
| `JobPool.Master.constructor` | iol-hat/src-master-application/ilink/iolink_main.c:524-539 | The three mailboxes as set up: every job in its own free mailbox, conserved. |
| `JobPool.Master.FetchAvailJob` | iol-hat/src-master-application/ilink/iolink_main.c:254-292 | The first free job, or none. |
| `JobPool.Master.PostJob` | iol-hat/src-master-application/ilink/iolink_main.c:304-315 | The job queued with its type; the assertion that the post succeeds holds. |
| `JobPool.Master.TakeJob` | iol-hat/src-master-application/ilink/iolink_main.c:158-172 | The next job in hand. |
| `JobPool.Master.ReturnJob` | iol-hat/src-master-application/ilink/iolink_main.c:215-251 | The job put back where its type says, its assertion holding, conservation kept. |
| `Pagination.GroupItems` | rotorsync_bumble.py:1106-1122 | The pages hold every item once and in order, none is empty, each is within its estimate or a single item, and no other such split has fewer pages. |
| `Pagination.PaginateResponse` | rotorsync_bumble.py:1100-1136 | The texts are those of a best split, numbered and counted; every page of two or more items, or of one within the estimate, is at most the page size long unless its counters have more than 11 digits in all. |
| `Pagination.PageWithinSize` | rotorsync_bumble.py:1106-1134 | A page within its estimate is at most the page size long if its counters have at most 11 digits, and one that fills its estimate only then. |
| `Pagination.RenderLength` | rotorsync_bumble.py:1127-1134 | A page is exactly 50 characters, its counters, its items and the commas between them. |
| `Pagination.ContinueOptimal` | rotorsync_bumble.py:1112-1119 | Greedy stays ahead: from any page begun, no split of what is left does with fewer pages. |
| `Pagination.ShortCounters` | rotorsync_bumble.py:1124-1133 | With fewer than a thousand items the counters have at most nine digits. |
| `JbdFrames.CutsDoNotMatter` | rotorsync_bumble.py:243-267 | However a stream is cut into notifications, draining after each gives the frames, in order, and the remainder of the whole stream. |
| `JbdFrames.CallerGetsFirstFrame` | rotorsync_bumble.py:1935-1955 | A caller that asks after every notification until it has one frame gets the first frame of the whole stream, however it is cut. |
| `JbdFrames.DrainSound` | rotorsync_bumble.py:243-267 | Every frame starts with 0xDD, ends with 0x77, is 7 longer than its length octet, has the expected function, and all are cut from the stream in order. |
| `JbdFrames.Drained` | rotorsync_bumble.py:243-267 | What is left holds no complete candidate, and another call would give nothing. |
| `JbdFrames.Notifications.ExtractFrame` | rotorsync_bumble.py:243-267 | The loop on the buffer it deletes from ends, because the buffer shrinks, with the frame and remainder the lemmas are about. |
| `JbdFrames.Notifications.OnNotification` | rotorsync_bumble.py:1935-1938 | A notification, then calls until none is left, drain the buffer. |
| `JbdFrames.Notifications.Serve` | rotorsync_bumble.py:1935-1955 | Any series of notifications gives the frames and the remainder of the whole stream. |
| `ChunkAssembly.ConnectionsIndependent` | rotorsync_bumble.py:1792-1836 | However writes of several connections interleave, each gets the buffer and commands its own writes alone lead to. |
| `ChunkAssembly.ChunksAssembled` | rotorsync_bumble.py:1804-1830 | Chunks in any order and with repetitions give, on the write that completes them, exactly one command: chunks 1 to n as last written, in order; the buffer is gone. |
| `ChunkAssembly.CompleteExactly` | rotorsync_bumble.py:1820-1826 | A buffer counts as complete if and only if it holds the numbers 1 to n and no other. |
| `ChunkAssembly.StrayBlocks` | rotorsync_bumble.py:1815-1830 | With every part sent, nothing is handed on if and only if a chunk number outside 1..n was in the buffer. |
| `ChunkText.ChunkDecoded` | rotorsync_bumble.py:1797-1808 | A chunk is read with its numbers and its data, but without the white space at the end of the data, whatever the data hold. |
| `ChunkText.SplitCommand` | rotorsync_bumble.py:1797-1830 | A command cut into parts and sent as chunks, in any order and with repetitions, is handed on once, as the parts without the white space at the end of each; so it is the command that was cut if and only if no part ends in white space. |
| `ChunkAssembly.ConfigCommands.WriteHandler` | rotorsync_bumble.py:1792-1836 | The handler on its buffers is the step the lemmas are about. |
| `ChunkAssembly.ConfigCommands.Serve` | rotorsync_bumble.py:1792-1836 | Any writes of any connections: each connection gets the commands its own writes alone lead to. |
| `FillMachine.RunKeeps` | dashboard.py:4315-4480 | On every run of ticks, presses and commands: the relay is auto-fired at most once between cycle boundaries and both flags say so; a finished fill is labelled Auto exactly if it was; each stop is recorded at most once, with flow stopped, before the next start; totals equal the fills recorded since their resets; cached loads equal what the log file gives back, up to printed precision; each reset pulse comes with flow stopped, in the cycle that scheduled it, once per schedule. |
| `FillMachine.StepKeeps` | dashboard.py:3857-3980 | Every single tick, press and command keeps all of that. |
| `FillMachine.AccountRecord` | dashboard.py:894-934 | Recording keeps totals, history and cached loads equal to what the records say. |
| `FillMachine.LoadsAfterFill` | dashboard.py:280-294 | After a fill has been written, that fill as printed is read back before the two newest of those read back until then. |
| `FillController.Dashboard.DetectTotalizerReset` | dashboard.py:3877-3892 | A drop from above 0.25 to below 0.05 gallons starts a new cycle and clears the shutoff state. |
| `FillController.Dashboard.FlowEdges` | dashboard.py:4361-4438 | A stop leaves the fill pending (none while calibrating), a start drops an unconfirmed one and begins a new cycle. |
| `FillController.Dashboard.UpdateDashboard` | dashboard.py:4315-4480 | A tick reads the meter, handles the flow edges, lets the override expire and stops the pump, in this order, as `FillMachine.RunKeeps` needs. |
| `FillController.Dashboard.RecordPendingFill` | dashboard.py:894-934 | The pending fill recorded once and cleared, or nothing. |
| `FillController.Dashboard.Serve` | dashboard.py:4315-4480 | Any series of ticks and presses on the object keeps the fill invariants. |
| `CalibrationWorkflow.CalRunKeeps` | dashboard.py:1583-1719 | In every reachable phase, abort and return included: 10 <= target <= total, point i has step 10(i + 1) and the fill measured for it, no step twice, complete means floor(target / 10) points. |
| `CalibrationWorkflow.CalStepKeeps` | dashboard.py:1634-1719 | Every single press and flow edge keeps that. |
| `CalibrationWorkflow.FillingForward` | dashboard.py:1553-1564 | Once filling has begun the target is frozen, points are only added, and the steps still to store fall by one with each, reaching zero exactly at complete. |
| `CalibrationWorkflow.AllStepsStored` | dashboard.py:4361-4444 | Filling step after step stores exactly the steps 10, 20, ... up to the target. |
| `CalibrationWorkflow.AbortUndone` | dashboard.py:1698-1719 | Going back from an abort is as if nothing had happened. |
| `CalibrationWorkflow.MeasuredExactly` | dashboard.py:4361-4426 | From any step that is waited for, on every run until its fill is measured: a stop of the flow is measured if and only if the abort question is not up at that moment and a start of the flow has come while it was not, since the step was waited for (or one had come before). |
| `CalibrationWorkflow.StepMeasured` | dashboard.py:4361-4426 | And over whole runs: something is measured if and only if one of the stops is of that kind. |
| `CalibrationWorkflow.StoppedUnderQuestion` | dashboard.py:4361-4374 | A fill nobody measures: the flow stops while the abort question is up. |
| `CalibrationWorkflow.StartedUnderQuestion` | dashboard.py:4417-4423 | Another: the flow starts while the question is up, although it is down again at the stop. |
| `CalibrationWorkflow.StartedBeforeStep` | dashboard.py:1553-1563 | A third: the flow is on already when the step before is confirmed. |
| `CalibrationWorkflow.Calibration.AdjustValue` | dashboard.py:1634-1652 | After any adjustment 10 <= target <= total, and only the value the phase asks for has changed. |
| `CalibrationWorkflow.Calibration.Serve` | dashboard.py:1583-1719 | Any series of presses and ticks on the object leads where the run of the model does and keeps the bounds, numbering and completeness of `CalibrationWorkflow.CalRunKeeps`. |
| `Interpolation.BracketFound` | src/mopeka_converter.py:97-125 | Strictly inside the table the scan always finds a bracket whose upper end is strictly above: the equal-height branch and the final return are unreachable. |
| `Interpolation.LookupBounds` | src/mopeka_converter.py:97-125 | The result lies between zero and the gallons of the last row. |
| `Interpolation.LookupMonotone` | src/mopeka_converter.py:97-125 | More inches never give more gallons. |
| `Interpolation.LookupAtRows` | src/mopeka_converter.py:113-123 | At interior rows of a table with distinct heights the result is the table's own. |
| `Interpolation.SortedRight` | src/mopeka_converter.py:53-57 | The sorted table is in descending order and has, at each height, exactly the rows of the file in the order of the file. |
| `Interpolation.Converter.LoadCalibration` | src/mopeka_converter.py:34-59 | Rows that do not parse are skipped, the rest sorted; the tank height is the first row's, or stays. |
| `Interpolation.Converter.InterpolateGallons` | src/mopeka_converter.py:97-125 | The scan returns the value the lemmas are about. |
| `Interpolation.Converter.MmToGallons` | src/mopeka_converter.py:128-170 | Millimetres to inches, the offset of the sensor of that suffix, none if there is no suffix or an empty one, the clamp at zero, and the lookup. |
| `Interpolation.Converter.OffsetIgnoresCase` | src/mopeka_converter.py:145-155 | However the letters of a suffix are written, its offset is the same. |

## Left out

- The waking of the device: `WakeUp` says whether one was found and which cycle octet it gave, whatever AW_REPLY_1 and the line driver did for it; the cycle timer's period is left out. CHECK_HANDLER_11 and ERRORHANDLING_17 are never entered.
- Process data: lengths and their place in the message are modelled, the copying of values, PD_VALID and the PD handler are not; its interleave mode is unreachable, because `iolink_dl_mode_h_sm_goto_operate` checks `mseq & IOLINK_MSEQTYPE_TYPE_2_X` first and that also holds for TYPE_1_1.
- Event readout in PREOPERATE, which the source marks as unfinished: the state has no way out while the event flag is set.
- SessionMessages.OneForOne: control codes VALID and INVALID, which write nothing to the device, and a command asked for while another is going are not among its events.
- Hardware, drivers, sockets, GPIO, timers and threads as such: they are inputs (`Received`, `TimerExpired`, `ClockTick`, button presses) and entries in the logs.
- Preemption inside one handler call: a turn of a thread is one step; only the job pool is modelled as interleaved steps of several threads.
- Octets a copy would read or write past the end of the ISDU buffer: reads give zero and writes are dropped; `IsduTransfer.CopiesInsideBuffer` says when there are none. That a request's data fits the buffer is the caller's obligation, as in the source.
- Application layer process data and control services, and AL_Event_req inside the event state machine.
- Configuration manager queries (master identification, read back, port status), the checks of argument blocks, and the system manager, data storage and exchange units it talks to: their messages are inputs and acts.
- Waiting and time-outs of mailboxes, deletion of the pool, and the EXIT job.
- `SMI` services other than their taking and returning of jobs.
- JSON beyond its layout: an item stands for its compact text, which is ASCII, so that characters and octets are the same; how `int()` reads the numbers of a chunk's header, which is a parameter, time stamps and the Bluetooth stack are left out.
- `dashboard.py`: drawing, menus, log texts, file errors, the smoothing of flow and the trigger threshold, which is an input, as is the expiry of the override. `read_flow_meter` is its effect on the values read.
- The sensor reading a calibration point is stored with, and its absence: a point is its step and the measured fill.
- Rounding: quantities are real numbers; the three printed decimals of the fill history are modelled, rounded half up, the rounding of `mm_to_gallons` results for display is not.
- SessionEntry.SessionStart: parameter writes and mode changes are not among a session's events; a parameter write is sent without waiting for the reply in between, so it ends the strict alternation.
- LinkUp.OperateEntered: OPERATE sessions begin in OPERATE_12; AW_REPLY_16 is also entered from AW_REPLY_9 after a parameter write, and the interleaving theorems do not speak of that way in.
- SharedChannelRuns.TransferPossible: the clock must not read 0, because a timer started at 0 counts as stopped.
- Interpolation.Converter.OffsetIgnoresCase: upper-casing is that of the letters a to z.
- Copies of the same logic elsewhere in the repository (`dashboard_original.py`, `src/`), the TCP clients and adapter scripts.
