# Verified model of the WD33C93 SCSI driver, its A3000 DMA back end, and the ReSDMAC FIFO

The project models three parts of the A3000's SCSI path and proves what each is for.

**The driver** (`Docs/LinuxCodeA3000SCSI/wd33c93.c`) is an event-driven state machine. A command
waits in an input queue, is `selecting` or `connected`, or is parked in a disconnected queue; both
queues run through one `host_scribble` link. `Driver.dfy` gives every entry point (queuecommand,
each interrupt case, abort, host reset) as a function on values: `Step(config, state, event)`.
A null dereference or a store outside a buffer gives `Fault`, the deliberate endless loop of the
reselection branch gives `Stuck`. `Host.dfy` is the same driver as a class with the driver's own
fields, loops and linked lists, and each of its methods is proved to do exactly what `Step` says.

What `Step` itself must do is stated without its functions, by what can be seen from outside: which
status code of the chip moves what and ends which command (`Interrupts.dfy`), which message lets a
target leave the bus and what becomes of its command (`Leaving.dfy`), what is programmed for each byte
of a negotiation (`Agreements.dfy`), who is started with which permission and what its IDENTIFY message
says (`Permissions.dfy`), and in which order commands wait (`WaitingOrder.dfy`). `Starts.dfy` splits
every call into a change that starts nothing and the scheduler.

What the surroundings must do is not guessed: `Invariants.Admissible` lists, per interrupt, the
states in which it may arrive, and `Runs.AdmissibleIffKept` proves the list exact. From a
consistent state a call returns and leaves a consistent state if and only if the call is
admissible. `Plausible` holds what no driver could check: nobody queues a command that is already
held, and the chip's counter never exceeds the value written to it. All run theorems quantify over
arbitrary sequences of plausible and admissible calls from start-up (`Runs.Reachable`).

The `log` of the abstract state is history for the theorems: submissions, calls of `scsi_done`
with how each came about, DMA setups and stops, programmed transfers, what was taken in MESSAGE OUT
phases, STATUS bytes and byte counts per command.

**The data path** (`a3000.c` and `transfer_bytes`): `BounceDma.dfy` has `dma_setup`, `dma_stop`
and programmed I/O on bytes of memory, `DataPath.dfy` interleaves them for any number of commands
and logs the bytes on the bus, `DataRuns.dfy` has the run theorems. `Lockstep.dfy` runs driver and
data path as one machine: each call sets off its steps of the data path, between calls the DMA
engine moves bytes and the processor writes its own memory, and memory decides whether `dma_setup`
succeeds. What the driver has counted is then proved to be what crossed the bus.

**The FIFO** (`RTL/FIFO`): one class per Verilog module, one cycle of all clocks as `Fifo.Cycle`,
and the words that went in and came out in `FifoRuns.dfy`.

Arithmetic on clock rates, period tables and SDTR codes is in `Timing.dfy`, the extended-message
assembler in `Messages.dfy`. What becomes of a connection in one call is in `Connections.dfy`, messages
that outlive it in `HalfMessages.dfy` (from the target) and `Offers.dfy` (prepared by the driver), sync
negotiation over runs in `Negotiation.dfy`, `FirstContact.dfy` and `Proposals.dfy`, runs that meet the
failing cases in `Encounters.dfy`, the chip's auto-incrementing register file in `WdRegisters.dfy`.

Findings about the code, each proved:

- A reselection is answered properly exactly under `Placement.Reselectable`. `ReselectBreaks` says
  what each of the four other cases leaves behind. With level-2 commands: beside a selecting command
  the reselected one is connected too, so both slots are taken; and if nobody by that name waits, the
  connected command is at the head of the input queue as well, with its busy bit clear. Without
  them: the connected command is overwritten and is in no place any more while its busy bit stays
  set; and if nobody by that name waits, both slots are empty under S_SELECTING. The first case
  happens: `Encounters.ReselectionWhileSelecting` is a run, at the default level too, after which a
  disconnected target comes back while another one is being selected for the first time.
- The extended-message assembler is safe exactly for length bytes 1 to 6; any other length runs
  out of `incoming_msg` (`Messages.LengthByteLimits`).
- What a target has sent of a message when its connection ends stays in `incoming_msg`, and the next
  target's bytes are appended to it: a connection that follows such an end, and no reset, inherits the
  half message. Every connection of a run begins with an empty buffer if and only if no call cuts a
  message off (`HalfMessages.FreshConnectionsIff`). In
  `Encounters.HalfMessage` the message DISCONNECT of the next target is taken for a length byte, and
  the disconnection that follows leaves the driver inconsistent.
- `dma_stop` with status 0, as abort and reset call it, leaves a live bounce buffer behind, and that is
  all the harm they do to the data path (`Lockstep.PerformKeptIff`). If the next transfer is an
  aligned read, of any length, it is then not sure to deliver what the target sends, and if it is longer
  than the leftover, `dma_stop` copies past the end of the buffer (`DataRuns.DeliversIffNoLeftover`,
  `DataRuns.AbortSpoilsNextRead`). Any other DMA transfer clears the leftover
  (`DataRuns.OtherTransfersClear`).
- `transfer_bytes` follows the direction of the interrupt, not of the command. A data phase in the
  wrong direction overwrites the buffer that is being sent, on every path
  (`DataRuns.MemoryKeptIffOutward`), and through a bounce buffer even with bytes that nobody sent
  (`DataRuns.InwardOverwrites`).
- A command block of more than 12 bytes overwrites the LUN register (`WdRegisters.CdbKeepsLun`).
- `outgoing_msg` outlives its connection just so: a message that is prepared but not sent when its
  connection ends or is displaced is sent to whoever is connected in the next MESSAGE OUT phase, unless
  a selection comes first or another message is prepared. `Offers.OwnMessagesIff` says exactly which runs keep every message with its
  own connection.
- A `nosync` target gets synchronous transfer in exactly four ways (`Negotiation.QuietIff`). Its reply
  names an offset above the one it was last offered (`Encounters.GreedyReply`). The reply is too short
  to name one, and an earlier message, possibly of another target, left a non-zero byte in its place
  (`Encounters.StaleReply`). Nothing was offered to it, and a message of its own is taken for the reply
  (`Encounters.UnaskedAgreement`). Or it accepts what it was offered, and that was more than 0, because
  the message was prepared for another target (`Encounters.MisdirectedOffer`). With a target that asks
  for no more than it was sent only the last is left (`Negotiation.HonestQuietIff`), and
  `Offers.OfferKeptIff` says which calls lead to it.
- A first contact is to carry an SDTR message. It can be lost before selection and after it. A
  selection timeout loses the contact itself: with level-2 commands the target is never asked again
  until a reset (`FirstContact.ContactKeptIff`, which follows the contact up to its selection,
  `FirstContact.ForgottenForGood`, `FirstContact.TimeoutForgets`). When selection succeeds the message is
  only prepared, and `SS_WAITING` set at once. If the connection ends or is displaced before MESSAGE OUT,
  or another message is prepared, or the target does not take the whole message, which the driver does
  not check, then the target is waited for although the SDTR message was not sent to it
  (`Proposals.ProposalKeptIff`, `Encounters.NeverSent`, `Encounters.CutShort`), and one of its own is
  taken for the reply (`Encounters.UnaskedAgreement`).
- A REQUEST SENSE runs before every command of its unit that was waiting when it was submitted
  (`WaitingOrder.SenseRunsFirst`). A waiting command of another unit may still get in front of it,
  but only by being started and put back after a lost arbitration: those that go on waiting never change places
  (`WaitingOrder.OrderKept`).
- `round_period` answers 7, the slowest entry, for a period of 0 or 1 (`Timing.RoundsUp`).
- A comment says that the commands left waiting are made disconnectable when one of them made the
  difference. The code sets their flag, but a command's flag is computed afresh when it is started,
  so the marking has no effect (`Theorems.MarkMakesNoDifference`).

## Model

| member | source | states |
|---|---|---|
| Runs.AdmissibleIffKept | Docs/LinuxCodeA3000SCSI/wd33c93.c:789-1491 | from a consistent state, a plausible call returns and leaves a consistent state if and only if the interrupt is one the state admits |
| Runs.StepKeeps | Docs/LinuxCodeA3000SCSI/wd33c93.c:365-1744 | every admissible queuecommand, interrupt, abort or reset returns and keeps the whole invariant |
| Runs.CauseBreaks | Docs/LinuxCodeA3000SCSI/wd33c93.c:842-1465 | every other interrupt faults, loops for ever, or leaves places, state code or message buffer inconsistent |
| Runs.RunKeeps | Docs/LinuxCodeA3000SCSI/wd33c93.c:365-1744 | a run of admissible calls of any length returns from each of them and ends in the invariant |
| Theorems.Ownership | Docs/LinuxCodeA3000SCSI/wd33c93.c:436-511 | over every run each held command is in exactly one of the four places, and a busy bit is set exactly when one started command, and no other, has that unit |
| Theorems.PerUnitOrder | Docs/LinuxCodeA3000SCSI/wd33c93.c:428-511 | over every run the commands of one unit except REQUEST SENSE and aborted ones end in the order of submission, through skipping, disconnection and lost arbitration |
| Theorems.ExactlyOnce | Docs/LinuxCodeA3000SCSI/wd33c93.c:842-1318 | over every run submissions equal held plus completed commands as multisets, plus what resets dropped, so nothing is lost and nothing is passed to scsi_done twice |
| Theorems.NeverIdle | Docs/LinuxCodeA3000SCSI/wd33c93.c:479-504 | between calls, with both slots free, the unit of every waiting command is held by a disconnected one |
| Theorems.StateCode | Docs/LinuxCodeA3000SCSI/wd33c93.c:600-667 | the state code says exactly which slot is set, and never are both |
| Theorems.DmaPairing | Docs/LinuxCodeA3000SCSI/wd33c93.c:828-835 | DMA setups and stops alternate, each stop for the command of its setup; DMA is marked running exactly in between, and then `connected` and the remembered direction are those of the last setup |
| Theorems.DirectionOfInterrupt | Docs/LinuxCodeA3000SCSI/wd33c93.c:925-944 | a data phase sets up DMA or does programmed I/O once, in the direction of its cause whatever the command was meant for, unless no data is left |
| Interrupts.DataPhase | Docs/LinuxCodeA3000SCSI/wd33c93.c:925-947 | codes 0x18, 0x48, 0x88 move data outward and 0x19, 0x49, 0x89 inward, by DMA exactly if it is possible, not at all if none is left, and do nothing else |
| Interrupts.CommandPhase | Docs/LinuxCodeA3000SCSI/wd33c93.c:951-959 | codes 0x1a, 0x4a, 0x8a transfer no data, take no status or message, and end nothing |
| Interrupts.StatusPhase | Docs/LinuxCodeA3000SCSI/wd33c93.c:961-977 | codes 0x1b, 0x4b, 0x8b take the byte as the status of the connected command, and do nothing else |
| Interrupts.MessageOutPhase | Docs/LinuxCodeA3000SCSI/wd33c93.c:1207-1234 | codes 0x1e, 0x4e, 0x8e send the prepared bytes, or 0x08, as far as they are taken, forget the rest, and do nothing else |
| Interrupts.MessageInPhase | Docs/LinuxCodeA3000SCSI/wd33c93.c:979-990 | codes 0x1f, 0x4f, 0x8f store the byte at the next place of the message buffer |
| Interrupts.PassedOver | Docs/LinuxCodeA3000SCSI/wd33c93.c:1488-1490 | any other code but eight, 0x16 outside phase 0x60, and an interrupt that is not pending or meets a busy chip change nothing but a running DMA |
| Interrupts.CompletionOf | Docs/LinuxCodeA3000SCSI/wd33c93.c:842-1306 | 0x42, 0x16 in phase 0x60, 0x41 and an announced 0x85 each end one command, which one and how is stated; no other interrupt ends any |
| Interrupts.Reselection | Docs/LinuxCodeA3000SCSI/wd33c93.c:1331-1476 | 0x80 and 0x81 connect the disconnected command of the reselecting id and lun, and put a command that was being started back to the head of the queue |
| Leaving.AfterMessage | Docs/LinuxCodeA3000SCSI/wd33c93.c:997-1149 | after a message byte the target may leave exactly if it was 0 or 4, or 3 with level 3 or more, and no extended message is open; only 0 announces the end; the byte is noted, and unknown ones are answered with 7 |
| Leaving.AfterData | Docs/LinuxCodeA3000SCSI/wd33c93.c:776-783 | after a data phase the target may leave exactly if the chip was in its command sequence or DMA put it there, at level 4 or more, or at 3 without permission to disconnect |
| Leaving.AfterOthers | Docs/LinuxCodeA3000SCSI/wd33c93.c:951-977 | after a status byte the target may leave exactly at level 3 or more, after 0x21 always, after command, message out and selection never |
| Leaving.AfterReselection | Docs/LinuxCodeA3000SCSI/wd33c93.c:1477-1486 | after a reselection the target may leave exactly at level 6 |
| Leaving.CompletesAndLeaves | Docs/LinuxCodeA3000SCSI/wd33c93.c:997-1306 | message byte 0 and then a disconnection pass the command to scsi_done once, with the last status byte, or as failed for a REQUEST SENSE with another status than 0; it is no longer held and its unit is free unless a waiting command of it is started |
| Leaving.DisconnectsAndLeaves | Docs/LinuxCodeA3000SCSI/wd33c93.c:1025-1316 | message byte 4 and then a disconnection end nothing and leave the command disconnected |
| Theorems.BytesConserved | Docs/LinuxCodeA3000SCSI/wd33c93.c:733-758 | bytes moved, the rest of the current buffer and the buffers not begun make up the command, and `ptr` is the current position, over any mix of transfers and disconnections |
| Theorems.StatusProvenance | Docs/LinuxCodeA3000SCSI/wd33c93.c:1157-1306 | a level-2 completion reports the last STATUS byte since queuing unless there was none or it is 0xff, then the LUN register; a completion by disconnection, expected or not, reports that byte or 0xff with the last message byte; a REQUEST SENSE with another status than 0 is failed instead; timeouts and aborts report themselves |
| Theorems.StepLog | Docs/LinuxCodeA3000SCSI/wd33c93.c:1563-1744 | only a reset drops commands, and only an abort or a reset takes a submission back |
| Theorems.MarkMakesNoDifference | Docs/LinuxCodeA3000SCSI/wd33c93.c:546-580 | the flag that the adaptive rule sets on waiting commands does not change how they are started |
| PlacementProofs.ExecuteSettles | Docs/LinuxCodeA3000SCSI/wd33c93.c:470-667 | whatever ended, the scheduler leaves no runnable command waiting for an idle bus and loses none |
| PlacementProofs.ExecuteKeepsLine | Docs/LinuxCodeA3000SCSI/wd33c93.c:479-511 | starting a command past skipped ones keeps the order of every unit's pending line |
| PlacementProofs.EnqueueKeepsLine | Docs/LinuxCodeA3000SCSI/wd33c93.c:428-444 | submitting an ordinary command appends it to its unit's line, and submitting a REQUEST SENSE changes no line |
| WaitingOrder.SenseGoesFirst | Docs/LinuxCodeA3000SCSI/wd33c93.c:428-438 | a REQUEST SENSE (opcode 3) that is not started at once is the first in the queue |
| WaitingOrder.OthersGoLast | Docs/LinuxCodeA3000SCSI/wd33c93.c:436-444 | any other command that is not started at once is the last |
| WaitingOrder.OrderKept | Docs/LinuxCodeA3000SCSI/wd33c93.c:428-511 | two commands that go on waiting keep their order over every call |
| WaitingOrder.NotOvertaken | Docs/LinuxCodeA3000SCSI/wd33c93.c:489-511 | no call starts a command while another one of its unit waits in front of it |
| WaitingOrder.SenseRunsFirst | Docs/LinuxCodeA3000SCSI/wd33c93.c:428-438 | over any run during which a REQUEST SENSE waits, no command of its unit that was waiting when it was submitted is started, and each stays behind it |
| Starts.StepSplits | Docs/LinuxCodeA3000SCSI/wd33c93.c:365-1744 | every call is a change after which the commands on their way are some of those before, with their permissions, and the queue has gained at most the new or the displaced command or lost an aborted one, and then the scheduler |
| Permissions.PermissionRule | Docs/LinuxCodeA3000SCSI/wd33c93.c:546-580 | a command that a call starts may disconnect never under DIS_NEVER, always under DIS_ALWAYS, and under DIS_ADAPTIVE exactly if it is for a tape, a command is disconnected, or another waiting one is for another id or lun |
| Permissions.PermissionKept | Docs/LinuxCodeA3000SCSI/wd33c93.c:546-580 | from its start to its end a command keeps that permission |
| Permissions.WayOfStart | Docs/LinuxCodeA3000SCSI/wd33c93.c:600-661 | a command is selected if the level is 1 or its target not contacted, else connected at once; then DMA is set up ahead, in the direction of the command, exactly if it may not disconnect and DMA is possible |
| Permissions.MessagesPrepared | Docs/LinuxCodeA3000SCSI/wd33c93.c:878-923 | after code 0x11 the prepared IDENTIFY is 0x80, 0x40 with permission, and the lun; SDTR follows exactly on a first contact, with the default period and offset 0 or the second table period and offset 12 |
| Permissions.IdentifyTellsPermission | Docs/LinuxCodeA3000SCSI/wd33c93.c:886-888 | over any run from the start of a selection to its success, bit 0x40 of IDENTIFY is the permission given at the start |
| PlacementProofs.ReselectKeeps | Docs/LinuxCodeA3000SCSI/wd33c93.c:1331-1465 | a reselection under the stated condition keeps ownership, state code and work conservation, and loses no command |
| PlacementProofs.ReselectKeepsLine | Docs/LinuxCodeA3000SCSI/wd33c93.c:1342-1362 | putting a loser back on the head of the queue keeps the order of every unit's line |
| PlacementProofs.ReselectBreaks | Docs/LinuxCodeA3000SCSI/wd33c93.c:1342-1472 | outside that condition there are four cases: both slots taken, the connected command lost with its busy bit set, the connected command also waiting with its busy bit clear, or both slots empty under S_SELECTING |
| Encounters.ReselectionWhileSelecting | Docs/LinuxCodeA3000SCSI/wd33c93.c:1354-1372 | a run from start-up, for any level above L2_NONE and any two targets, that meets a reselection beside a selecting command and ends with both slots taken |
| Encounters.GreedyReply | Docs/LinuxCodeA3000SCSI/wd33c93.c:1086-1099 | a run from start-up after which a `nosync` target that was sent the offset 0 and answered with another one has synchronous transfer |
| Encounters.StaleReply | Docs/LinuxCodeA3000SCSI/wd33c93.c:1058-1094 | a run from start-up after which the reply of length 1 of a `nosync` target that was sent the offset 0 is admissible, and gives it the non-zero offset that another target had agreed to |
| Encounters.MisdirectedOffer | Docs/LinuxCodeA3000SCSI/wd33c93.c:1205-1229 | a run from start-up in which a `nosync` target is sent first its own SDTR message with offset 0 and then the one for another target with offset 12, and after which any offset up to 12 that it answers is its offset |
| Encounters.CutShort | Docs/LinuxCodeA3000SCSI/wd33c93.c:1209-1228 | a run from start-up after which a target has taken one byte of the driver's message, the rest is forgotten, and the target is waited for |
| Encounters.NeverSent | Docs/LinuxCodeA3000SCSI/wd33c93.c:903-923 | a run from start-up after which a target is waited for although nothing was sent in a MESSAGE OUT phase |
| Encounters.UnaskedAgreement | Docs/LinuxCodeA3000SCSI/wd33c93.c:1062-1094 | a run from start-up after which a target has synchronous transfer although nothing was sent in a MESSAGE OUT phase |
| Encounters.HalfMessage | Docs/LinuxCodeA3000SCSI/wd33c93.c:984-997 | a run from start-up after which one target's DISCONNECT is held for the length byte of another target's message, and its disconnection leaves it connected under S_UNCONNECTED |
| Encounters.Extend | Docs/LinuxCodeA3000SCSI/wd33c93.c:789-1491 | a reachable state and an admissible call give a reachable state |
| FirstContact.ContactKeptIff | Docs/LinuxCodeA3000SCSI/wd33c93.c:603-615 | up to its selection, a pending first contact stays the one being selected over a call if and only if the call is not a selection timeout with nothing of that target selected next, or a lost arbitration without level-2 commands |
| FirstContact.ForgottenForGood | Docs/LinuxCodeA3000SCSI/wd33c93.c:600-634 | with level-2 commands a target whose first contact was lost is never asked again and stays asynchronous, over any run without reset |
| FirstContact.TimeoutForgets | Docs/LinuxCodeA3000SCSI/wd33c93.c:842-875 | a run from start-up that loses a first contact by a selection timeout |
| Proposals.ProposalKeptIff | Docs/LinuxCodeA3000SCSI/wd33c93.c:903-923 | after selection: every target in SS_WAITING has taken the whole SDTR message, or it is connected and the message is the next one out; a call keeps this if and only if it does not end or displace that connection, unless another command of the target takes the bus at once without selection, does not prepare another message, and is not a MESSAGE OUT phase that ends early |
| Proposals.WaitedForIsAsked | Docs/LinuxCodeA3000SCSI/wd33c93.c:1207-1234 | over every run without such a call, a target in SS_WAITING that is not about to be sent the SDTR message has taken all of it |
| HalfMessages.HalfLeftIff | Docs/LinuxCodeA3000SCSI/wd33c93.c:979-997 | with no half message on a free bus, a call leaves one behind there if and only if it ends a connection in the middle of a message and the bus takes no command at once without selection; no call but a reset touches the half message when the connection changes |
| HalfMessages.CleanIffNotCut | Docs/LinuxCodeA3000SCSI/wd33c93.c:979-997 | with no half message on a free bus, the buffer is empty when a call changes the connection if and only if the call does not end or displace a connection in the middle of a message |
| HalfMessages.FreshConnectionsIff | Docs/LinuxCodeA3000SCSI/wd33c93.c:979-997 | over any run from start-up, every connection begins with an empty buffer and leaves it empty if and only if no call of the run cuts a message off |
| HalfMessages.FreshStart | Docs/LinuxCodeA3000SCSI/wd33c93.c:979-997 | over every run in which none is left on a free bus, the message buffer is empty whenever nobody is connected |
| Connections.StepFollows | Docs/LinuxCodeA3000SCSI/wd33c93.c:789-1744 | while somebody is connected, exactly the calls that sever the connection change who is; they leave the half message and the prepared message as they are and hand them to the stated successor; any other call sends at most the prepared message, and prepares at most one of the driver's own answers |
| Offers.OwnMessageIff | Docs/LinuxCodeA3000SCSI/wd33c93.c:903-915 | with nothing prepared on a free bus, a connection that a call begins finds no message but the one its own selection prepares, and a bus it frees finds none, if and only if the call does not end or displace a connection with a message unsent |
| Offers.OwnMessagesIff | Docs/LinuxCodeA3000SCSI/wd33c93.c:1223-1229 | the same over any run from start-up |
| Offers.OfferKeptIff | Docs/LinuxCodeA3000SCSI/wd33c93.c:890-912 | an SDTR message with an offset above 0 is prepared for nobody but a connected target that may be asked; a call keeps this if and only if it does not leave such a message to the free bus or to a `nosync` target; and while it holds none is sent to a `nosync` target |
| Offers.NoUnsuitableOffer | Docs/LinuxCodeA3000SCSI/wd33c93.c:890-912 | over every run in which no such message is left, every SDTR message sent to a `nosync` target offers 0 |
| InterruptProofs.AbortKeeps | Docs/LinuxCodeA3000SCSI/wd33c93.c:1601-1744 | each of the four cases of abort keeps the invariant |
| InterruptProofs.ResetKeeps | Docs/LinuxCodeA3000SCSI/wd33c93.c:1576-1596 | a reset ends in the invariant, with all held commands booked as dropped |
| HostAdapter.Host.constructor | Docs/LinuxCodeA3000SCSI/wd33c93.c:1947-1969 | a new adapter holds nothing and is asynchronous everywhere |
| HostAdapter.Host.PointersAreSound | Docs/LinuxCodeA3000SCSI/wd33c93.c:436-511 | between calls the two linked lists are acyclic and disjoint, the slots are in neither, and the busy bytes are exactly the units of the started commands |
| LinkedQueues.ChainIsUnique | Docs/LinuxCodeA3000SCSI/wd33c93.c:436-444 | the links alone determine which commands a queue holds and in what order |
| LinkedQueues.ChainIsAcyclic | Docs/LinuxCodeA3000SCSI/wd33c93.c:436-444 | a list that ends cannot contain a command twice |
| LinkedQueues.Unlink | Docs/LinuxCodeA3000SCSI/wd33c93.c:506-511 | removal takes exactly that command out of the list and leaves its own stale link |
| BusyBits.SetBits | Docs/LinuxCodeA3000SCSI/wd33c93.c:587 | setting bit `lun` of `busy[id]` adds that unit and no other |
| BusyBits.ClearBits | Docs/LinuxCodeA3000SCSI/wd33c93.c:853 | clearing it removes that unit and no other |
| HostAdapter.Host.Submit | Docs/LinuxCodeA3000SCSI/wd33c93.c:365-455 | queuecommand on fields and links does what the abstract step does, and keeps validity |
| HostAdapter.Host.FindRunnable | Docs/LinuxCodeA3000SCSI/wd33c93.c:489-504 | the walk finds the first command of the list whose unit is not busy |
| HostAdapter.Host.FindDisconnected | Docs/LinuxCodeA3000SCSI/wd33c93.c:1437-1446 | the walk finds the first disconnected command of the reselecting unit, and its predecessor |
| HostAdapter.Host.SetPermission | Docs/LinuxCodeA3000SCSI/wd33c93.c:546-580 | the disconnect rules, with both walks over the queue, give the scratch areas the abstract permission |
| HostAdapter.Host.StartNext | Docs/LinuxCodeA3000SCSI/wd33c93.c:470-667 | wd33c93_execute on fields and links is the abstract scheduler |
| HostAdapter.Host.StopTransfer | Docs/LinuxCodeA3000SCSI/wd33c93.c:828-837 | interrupt entry stops a running DMA and advances pointer and residual of the connected command |
| HostAdapter.Host.HandleInterrupt | Docs/LinuxCodeA3000SCSI/wd33c93.c:789-1491 | for every plausible and admissible interrupt the handler is the abstract step, keeps validity, and stores each reported result in its command |
| HostAdapter.Host.HandleTimeout | Docs/LinuxCodeA3000SCSI/wd33c93.c:842-875 | selection timeout ends the command of the right slot with DID_NO_CONNECT and schedules |
| HostAdapter.Host.HandleSelect | Docs/LinuxCodeA3000SCSI/wd33c93.c:878-923 | selection moves the slot and prepares IDENTIFY and, on first contact, SDTR |
| HostAdapter.Host.HandleData | Docs/LinuxCodeA3000SCSI/wd33c93.c:925-947 | the data phases transfer in the direction of their interrupt and set the state code |
| HostAdapter.Host.Transfer | Docs/LinuxCodeA3000SCSI/wd33c93.c:716-785 | transfer_bytes takes up the next buffer, and uses DMA or programmed I/O in the direction it is given; the next buffer always exists |
| HostAdapter.Host.HandleStatus | Docs/LinuxCodeA3000SCSI/wd33c93.c:961-977 | the STATUS byte replaces the status in the scratch area |
| HostAdapter.Host.HandleMessIn | Docs/LinuxCodeA3000SCSI/wd33c93.c:979-1150 | one message byte is stored, and the message dispatched if it is complete |
| HostAdapter.Host.AnswerExtended | Docs/LinuxCodeA3000SCSI/wd33c93.c:1057-1132 | SDTR sets register and negotiation state or is answered; WDTR is answered with 8 bits; anything else is rejected |
| HostAdapter.Host.AnswerShort | Docs/LinuxCodeA3000SCSI/wd33c93.c:995-1149 | one-byte messages set state code, negotiation and reply |
| HostAdapter.Host.HandleSelXferDone | Docs/LinuxCodeA3000SCSI/wd33c93.c:1157-1195 | a level-2 completion reports the right status byte and schedules |
| HostAdapter.Host.HandleMessOut | Docs/LinuxCodeA3000SCSI/wd33c93.c:1207-1234 | MESSAGE OUT sends the prepared message, or NOP if there is none, as far as the target takes it, logs the bytes taken for the connected command, and forgets the rest |
| HostAdapter.Host.HandleUnexpDisc | Docs/LinuxCodeA3000SCSI/wd33c93.c:1236-1277 | an unexpected disconnection completes the connected command and schedules |
| HostAdapter.Host.HandleDisc | Docs/LinuxCodeA3000SCSI/wd33c93.c:1279-1329 | a disconnection completes or parks the connected command and schedules |
| HostAdapter.Host.HandleResel | Docs/LinuxCodeA3000SCSI/wd33c93.c:1331-1491 | a reselection puts a loser back and reconnects the command of that unit, through the links |
| HostAdapter.Host.AbortCommand | Docs/LinuxCodeA3000SCSI/wd33c93.c:1601-1744 | abort is the abstract step; it succeeds exactly for a waiting or connected command |
| HostAdapter.Host.HostReset | Docs/LinuxCodeA3000SCSI/wd33c93.c:1563-1600 | host reset forgets all commands and negotiations |
| ScatterGather.BeginFlows | Docs/LinuxCodeA3000SCSI/wd33c93.c:397-407 | a fresh command has moved nothing and points at its first buffer |
| ScatterGather.NextBufferFlows | Docs/LinuxCodeA3000SCSI/wd33c93.c:733-740 | taking up the next buffer conserves the count; nothing is left only if the list is used up or the next buffer is empty |
| ScatterGather.AdvanceFlows | Docs/LinuxCodeA3000SCSI/wd33c93.c:754-758 | a partial transfer conserves the count |
| Messages.StreamIsParsed | Docs/LinuxCodeA3000SCSI/wd33c93.c:979-1141 | over any sequence of messages the per-byte machine dispatches exactly those messages, in order, each on its last byte, and returns to the start of the buffer |
| Messages.AssembleKeeps | Docs/LinuxCodeA3000SCSI/wd33c93.c:984-997 | the buffer is never overrun, and stays usable exactly for length bytes 1 to 6 |
| Messages.LengthByteLimits | Docs/LinuxCodeA3000SCSI/wd33c93.c:1044-1057 | a message of length 1 to 6 is dispatched, any other length leaves the buffer |
| Negotiation.NoUnrequestedSync | Docs/LinuxCodeA3000SCSI/wd33c93.c:890-912 | if no call leaves an SDTR message with an offset above 0 to a `nosync` target or the free bus, and every reply of a `nosync` target names an offset not above that in the last SDTR message sent to it, then every such target has offset 0 in every reachable state |
| Negotiation.QuietIff | Docs/LinuxCodeA3000SCSI/wd33c93.c:1058-1103 | one call keeps that exactly when it is not a `nosync` target's reply that names an offset above the last one sent to it, or accepts one above 0 that was sent to it, or names one above 0 although none was sent, or is too short to name one with a non-zero byte left in its place |
| Negotiation.HonestQuietIff | Docs/LinuxCodeA3000SCSI/wd33c93.c:1086-1094 | with a target that asks for no more than it was last sent, one call keeps it exactly when the driver had not sent that target an offset above 0 that it now accepts |
| Negotiation.RunForward | Docs/LinuxCodeA3000SCSI/wd33c93.c:614-615 | between resets `sync_stat` only moves forward: unset, first, waiting, set |
| Negotiation.AcceptedProposal | Docs/LinuxCodeA3000SCSI/wd33c93.c:892-912 | a target that repeats the driver's SDTR gets the second table entry with offset 12, or asynchronous transfer under `nosync` |
| Agreements.ReplyPrograms | Docs/LinuxCodeA3000SCSI/wd33c93.c:1058-1103 | a reply to the driver's SDTR sets the target's register to the offset of the reply, at most 12, the fast bit exactly in fast mode, and the least table entry not shorter than 4 or, fast, 8 times its code; with offset 0 the period of the code, with neither the default period |
| Agreements.WholeReplyPrograms | Docs/LinuxCodeA3000SCSI/wd33c93.c:1086-1099 | the same for the usual reply of three bytes, in terms of those bytes |
| Agreements.UnaskedPrograms | Docs/LinuxCodeA3000SCSI/wd33c93.c:1062-1085 | an SDTR out of turn programs asynchronous transfer with the default period and is answered with that period and offset 0 |
| Agreements.OtherExtended | Docs/LinuxCodeA3000SCSI/wd33c93.c:1105-1130 | WDTR is answered with 8 bits and any other extended message with 7; neither changes a setting |
| Agreements.OtherBytes | Docs/LinuxCodeA3000SCSI/wd33c93.c:1028-1043 | MESSAGE REJECT while the driver waits programs asynchronous transfer with the default period; no other byte that does not end an extended message changes a setting |
| Agreements.ResetPrograms | Docs/LinuxCodeA3000SCSI/wd33c93.c:1578-1584 | after start-up and reset every target is asynchronous with 376 ns and not negotiated |
| Timing.SetClkFreq | Docs/LinuxCodeA3000SCSI/wd33c93.c:1889-1912 | every integer gives an accepted frequency and the clock code of its divisor |
| Timing.CalcSxTable | Docs/LinuxCodeA3000SCSI/wd33c93.c:1862-1884 | the loop fills the array with the period table |
| Timing.TableAccuracy | Docs/LinuxCodeA3000SCSI/wd33c93.c:1849-1880 | entries 1 to 7 are multiples of 4, from 1 ns below to 2 ns above (i+1)*d/100 as the code truncates both divisions |
| Timing.TrueAccuracy | Docs/LinuxCodeA3000SCSI/wd33c93.c:1849-1880 | entries 1 to 7 are less than 2.1 ns below and at most 2 ns above the period that clock and divisor really give |
| Timing.TableShape | Docs/LinuxCodeA3000SCSI/wd33c93.c:1862-1884 | the table increases strictly, in steps of at least 90 ns, ends with 0 and has distinct period bits |
| Timing.ClockToTable | Docs/LinuxCodeA3000SCSI/wd33c93.c:1941-1942 | set_clk_freq and then calc_sx_table give a well-shaped table for every integer |
| Timing.RoundPeriod | Docs/LinuxCodeA3000SCSI/wd33c93.c:308-320 | the loop is the search it is specified by |
| Timing.RoundsUp | Docs/LinuxCodeA3000SCSI/wd33c93.c:308-320 | for 2 up to the last period the answer is the least entry that is not shorter, for all others it is 7 |
| Timing.CalcSyncXfer | Docs/LinuxCodeA3000SCSI/wd33c93.c:325-345 | the register value on 32-bit unsigned arithmetic, wrap-around included |
| Timing.FieldsReadBack | Docs/LinuxCodeA3000SCSI/wd33c93.c:340-345 | offset, period and fast bits are disjoint and can be read back |
| Timing.SdtrRoundTrip | Docs/LinuxCodeA3000SCSI/wd33c93.c:350-363 | the code for an entry fits a byte and, fed back, selects that entry with the clamped offset, although fast mode may lose 4 ns |
| Timing.ReplyHonoured | Docs/LinuxCodeA3000SCSI/wd33c93.c:1086-1094 | unless a reply asks for more than the slowest entry, the programmed period is at least the one agreed on |
| WdRegisters.Chip.WriteCount | Docs/LinuxCodeA3000SCSI/wd33c93.c:261-270 | three auto-incremented writes set the count to the value modulo 2^24 and nothing else |
| WdRegisters.Chip.ReadCount | Docs/LinuxCodeA3000SCSI/wd33c93.c:232-244 | three auto-incremented reads give the count |
| WdRegisters.CountRoundTrip | Docs/LinuxCodeA3000SCSI/wd33c93.c:232-270 | a count written and read back is the value modulo 2^24, the value itself below 2^24 |
| WdRegisters.Chip.ReadRegister | Docs/LinuxCodeA3000SCSI/wd33c93.c:224-230 | a read by register number gives that register, whatever was selected before |
| WdRegisters.Chip.WriteCdb | Docs/LinuxCodeA3000SCSI/wd33c93.c:281-289 | the loop is a run of auto-incremented writes from CDB_1 |
| WdRegisters.Chip.Prepare | Docs/LinuxCodeA3000SCSI/wd33c93.c:584-644 | after LUN, synchronous transfer register, command phase, a command block of at most 12 bytes and its size have been written, each is in its register and all others are unchanged |
| WdRegisters.CdbKeepsLun | Docs/LinuxCodeA3000SCSI/wd33c93.c:281-289 | the LUN written before survives, whatever it is, if and only if the block has at most 12 bytes; then so does every other register |
| WdRegisters.PutAllOverlays | Docs/SDMAC.md:419-423 | consecutive accesses fill consecutive registers |
| WdRegisters.PortStays | Docs/SDMAC.md:419-423 | at registers 0x18, 0x19 and 0x1f any number of bytes goes to that one register |
| BounceDma.LeastMultiple | Docs/LinuxCodeA3000SCSI/a3000.c:61 | the bounce length is the least multiple of 512 that holds the transfer |
| BounceDma.Adapter.DmaSetup | Docs/LinuxCodeA3000SCSI/a3000.c:45-107 | fails exactly for an unaligned pointer without memory; otherwise direction and, if unaligned, a fresh bounce buffer, filled for a write |
| BounceDma.Adapter.DmaStop | Docs/LinuxCodeA3000SCSI/a3000.c:109-165 | with status 1 a read is copied out of the bounce buffer and the buffer released; with status 0 nothing changes; it overruns exactly if the copy would pass the end of memory or of the buffer |
| BounceDma.Adapter.PioIn | Docs/LinuxCodeA3000SCSI/wd33c93.c:691-696 | the bytes received replace those at the pointer and no others |
| BounceDma.Adapter.PioOut | Docs/LinuxCodeA3000SCSI/wd33c93.c:697-703 | the bytes sent are those at the pointer, in order |
| Lockstep.EveryByteAccounted | Docs/LinuxCodeA3000SCSI/wd33c93.c:716-837 | over every run of driver, DMA engine and processor together in which no abort or reset leaves a bounce buffer behind, no call faults and no access strays, and for every held command the bytes the driver has counted are the bytes on the bus, held in memory in order |
| Lockstep.PerformKeptIff | Docs/LinuxCodeA3000SCSI/wd33c93.c:1576-1664 | each call of the driver and the data path steps it sets off return; both stay consistent and in agreement on every command's position and on the running transfer if and only if the call is no reset or abort that stops a live bounce buffer, unless the next command gets one of its own at once |
| Lockstep.ScheduleLinks | Docs/LinuxCodeA3000SCSI/wd33c93.c:642-661 | starting a command with DMA set up ahead does so exactly when dma_setup succeeds |
| Lockstep.TransferLinks | Docs/LinuxCodeA3000SCSI/wd33c93.c:733-785 | transfer_bytes in the driver and on bytes of memory takes the same path in the direction of the interrupt and moves the position alike |
| DataRuns.SameStream | Docs/LinuxCodeA3000SCSI/a3000.c:60-162 | over every run of direct DMA, bounced DMA and programmed I/O, cut anywhere, no access leaves memory, and every byte before `ptr` is the same in memory as on the bus, in order |
| DataRuns.BounceLifetime | Docs/LinuxCodeA3000SCSI/a3000.c:60-162 | over every run the engine works on a bounce buffer exactly while a transfer runs whose address is not a multiple of 4; the buffer is the least sufficient multiple of 512 bytes |
| DataRuns.OnlyAwaitedBytesChange | Docs/LinuxCodeA3000SCSI/a3000.c:147-155 | a step writes only where a held command still awaits bytes: never over delivered bytes, buffers being sent, or foreign memory |
| DataRuns.SentFromBuffer | Docs/LinuxCodeA3000SCSI/wd33c93.c:749-758 | over every run a sending command puts the bytes of its buffers on the bus, in order |
| DataRuns.MemoryKeptIffOutward | Docs/LinuxCodeA3000SCSI/wd33c93.c:733-785 | whatever the target sends and a fresh buffer contains, and whichever path is taken, a data phase leaves memory alone if and only if it goes outward |
| DataRuns.InwardOverwrites | Docs/LinuxCodeA3000SCSI/a3000.c:147-155 | an inward phase through a bounce buffer replaces the whole rest of the current buffer, behind the bytes received by what the fresh buffer contained, also for a command that sends |
| DataRuns.DeliversIffNoLeftover | Docs/LinuxCodeA3000SCSI/a3000.c:147-155 | an aligned read of any length delivers whatever the target sends if and only if no bounce buffer was left behind, or nothing is read; it overruns exactly a leftover that is shorter |
| DataRuns.AbortSpoilsNextRead | Docs/LinuxCodeA3000SCSI/a3000.c:109-165 | after abort or reset has stopped an unaligned transfer, an aligned read that is the next transfer is not sure to deliver, and one longer than the leftover overruns it |
| DataRuns.OtherTransfersClear | Docs/LinuxCodeA3000SCSI/a3000.c:60-162 | any other transfer clears the leftover: an unaligned one is as if it had never been, an aligned one outward releases it at its end |
| DataProofs.StoppedIffNoBounce | Docs/LinuxCodeA3000SCSI/a3000.c:145-162 | a stop with status 0, whoever calls it, keeps the data path in order if and only if no bounce buffer is live |
| DataRuns.LeftoverOverwrites | Docs/LinuxCodeA3000SCSI/wd33c93.c:1661-1664 | a concrete aborted read that spoils the next one |
| DataProofs.StepKeeps | Docs/LinuxCodeA3000SCSI/wd33c93.c:716-785 | every legal step stays inside memory and buffer and keeps memory and bus in agreement |
| DataProofs.Current | Docs/LinuxCodeA3000SCSI/wd33c93.c:733-740 | `ptr` plus k is the address of the k-th byte not yet moved of the scatter-gather list |
| Fifo.FullEmptyCounter.NegEdge | RTL/FIFO/fifo_full_empty_ctr.v:18-36 | one clock edge of the occupancy counter; the later DEC assignment wins |
| Fifo.PointerCounter.PosEdge | RTL/FIFO/fifo_3bit_cntr.v:14-19 | one clock edge of a pointer |
| Fifo.BytePointer.NegEdge | RTL/FIFO/fifo_byte_ptr.v:11-17 | one clock edge of the byte pointer with synchronous load |
| Fifo.Unit.StoreLanes | RTL/FIFO/fifo.v:122-138 | reset clears the buffer, otherwise exactly the strobed lanes of the written word change |
| Fifo.Unit.Clock | RTL/FIFO/fifo.v:57-140 | one cycle of all four modules and the buffer is the abstract cycle |
| FifoRuns.CycleAgreesIff | RTL/FIFO/fifo_full_empty_ctr.v:18-39 | count and pointers stay in agreement over a cycle if and only if INC is not given when full, DEC not when empty, and never both |
| FifoRuns.FlagsDisambiguate | RTL/FIFO/fifo_full_empty_ctr.v:38-39 | the count is the pointer distance modulo the depth, and FULL and EMPTY tell the two cases of equal pointers apart |
| FifoRuns.FirstInFirstOut | RTL/FIFO/fifo.v:68-140 | over every orderly run the words that come out are the first that went in, in order, and COUNT is the number left, at most the depth |
| FifoRuns.FirstInFirstOutFromPowerUp | RTL/FIFO/fifo.v:68-140 | the same from power-up, whatever the registers then hold, if the first cycle is a reset |
| FifoRuns.FaithfulIffNoStrobeWhenFull | RTL/FIFO/fifo.v:129-137 | whatever word is on the input, a cycle keeps the contents if and only if no lane is strobed while full |
| FifoRuns.BytesInOrder | RTL/FIFO/fifo_write_strobes.v:19-22 | bytes that arrive one by one are packed into words in order, none lost |
| FifoRuns.BytesInOrderFromPowerUp | RTL/FIFO/fifo.v:101-138 | from power-up, whatever the registers then hold, and a reset: the words are filled lane after lane from the lane that A1 chose, with the bytes in the order of arrival |
| FifoRuns.LanesStored | RTL/FIFO/fifo_write_strobes.v:19-22 | a cycle stores the upper two bytes with LHWORD, the lower two with LLWORD and the byte of the pointer with LBYTE, in the word of the write pointer, and nothing else |
| FifoRuns.WordStored | RTL/FIFO/fifo.v:128-137 | with both halves strobed the word that goes in is the input word |
| FifoRuns.CountAfter | RTL/FIFO/fifo_full_empty_ctr.v:18-36 | COUNT steps up with INC and down with DEC, DEC winning, and wraps round at the depth |

## Left out

- Entry points are atomic steps: locks, interrupt masking, memory barriers and delays are not modelled, and the `wd33c93_execute` call after the unlock belongs to the same step.
- Commands written to the chip's command, phase, control and source-ID registers, and the bytes of the command block sent in COMMAND phase: they only reach the chip, whose answers are arbitrary admissible interrupts.
- The polling for the LUN of old chips during CSR_RESEL: the reselecting unit is an input of the event.
- Logical units above 7: `1 << lun` is stored in a byte, so such a unit would have no busy bit.
- HostAdapter.Host.HandleUnexpDisc: keeps the message and status bytes themselves in the result, because `scsi_msg_to_host_byte`, which maps the message byte, is not part of this model.
- HostAdapter.Host.HandleDisc: likewise.
- HostAdapter.Host.HandleSelXferDone: likewise.
- Lockstep.EveryByteAccounted: ends where a bounce buffer is left behind; what that does to the next transfer is the subject of `DeliversIffNoLeftover` and `OtherTransfersClear`.
- DataRuns.SentFromBuffer: like all runs of the data path it has data phases in the direction of the command; what a phase in the other direction does is the subject of `MemoryKeptIffOutward`.
- BounceDma.Adapter.DmaStop: what a copy past the end of the bounce buffer does is undefined; the model only reports it, and `DeliversIffNoLeftover` says when it happens.
- DataRuns.SameStream: takes bus addresses equal to memory addresses, and the DMA engine's flush and cache operations as complete when the engine has stopped.
- The arrays inside `struct WD33C93_hostdata` (`busy`, `sync_stat`, `sync_xfer`, message buffers) are fixed-length fields of the host that are updated element by element, not objects of their own.
- `fast` is constant over a run: `reset_wd33c93` clears it when chip detection finds no B version.
- Timing.CalcSyncXfer: wrap-around of the 32-bit period is modelled; `calc_sync_msg` is used as a function, and only table periods and the default period are passed to it.
- The four clock phases of the FIFO are merged into one cycle with stable inputs, in the order of the edges; depths are powers of two, as in the instantiated design.
- The state machines that drive the FIFO are not part of this model; `Orderly` and `ByteArrives` say what they have to do.
- `/proc` files, statistics, setup strings, chip detection, probing and the remaining Verilog: no hard property of their own.
