/** The driver as a state machine: `Step` is one call of queuecommand, the interrupt handler,
    abort or host reset, on values. Calls that dereference a null pointer or store outside a
    buffer give `Fault`; the deliberate endless loop of the reselection branch gives `Stuck`. */
module Driver {
  import opened Basics
  import opened Commands
  import opened Placement
  import opened ScatterGather
  import opened Messages
  import opened Timing

  const L2_NONE := 1
  const L2_BASIC := 3
  const L2_DATA := 4
  const L2_RESELECT := 6

  datatype Policy = DisNever | DisAdaptive | DisAlways

  /** The settings that stay constant during a run. */
  datatype Config = Config(
    level2: nat, policy: Policy, noDma: bool, noSync: set<Target>, fast: bool,
    defaultSxPer: nat, table: SxTable)

  datatype SyncStat = SyncUnset | SyncFirst | SyncWaiting | SyncSet

  type Stats = s: seq<SyncStat> | |s| == 8
    witness seq(8, _ => SyncUnset)
  type Xfers = s: seq<bv8> | |s| == 8
    witness seq(8, _ => 0)

  /** One successful `dma_setup`, with its direction, or one `dma_stop` of the run, and its command. */
  datatype DmaCall = Setup(cmd: Cmd, dirIn: bool) | Stop(cmd: Cmd)

  /** One call of `transfer_pio` for data. */
  datatype PioCall = PioCall(cmd: Cmd, dirIn: bool)

  /** The bytes that were taken in one MESSAGE OUT phase, and the command that was connected. */
  datatype Sent = Sent(to: Cmd?, bytes: seq<byte>)

  /** How a command came to its end: `statuses` are the bytes its target sent in STATUS phases
      since it was queued, `lunReg` is what the LUN register held at a level-2 completion,
      `message` the last message byte, and `announced` tells whether the target had sent
      COMMAND COMPLETE before it left the bus. */
  datatype Ending =
    | BySelectionTimeout
    | ByAbort
    | ByLevel2(statuses: seq<byte>, lunReg: byte)
    | ByDisconnect(statuses: seq<byte>, message: byte, announced: bool)

  /** One call of `scsi_done`. */
  datatype Completion = Completion(cmd: Cmd, ending: Ending, result: Result)

  /** What happened so far, as the outside world sees it. `live` is `submitted` without the
      submissions withdrawn by an abort or a reset. */
  datatype Log = Log(
    submitted: seq<Cmd>, live: seq<Cmd>, done: seq<Completion>, dropped: seq<Cmd>,
    dma: seq<DmaCall>, pio: seq<PioCall>, sent: seq<Sent>,
    statuses: map<Cmd, seq<byte>>, moved: map<Cmd, int>)

  datatype Driver = Driver(
    place: Place, scp: map<Cmd, Scp>, dmaOn: bool, dmaDir: bool, stat: Stats, xfer: Xfers,
    msgIn: MsgIn, outgoing: seq<byte>, log: Log)

  /** What the driver reads from the hardware during one interrupt. */
  datatype Chip = Chip(
    asr: bv8,          // auxiliary status
    sr: byte,          // SCSI status: the cause of the interrupt
    phs: byte,         // command phase
    count: nat,        // transfer count at interrupt entry
    pioLeft: nat,      // transfer count after programmed I/O
    lunReg: byte,      // target LUN register
    data: byte,        // the byte taken by read_1_byte
    unit: Unit,        // reselecting target and LUN
    dmaOk: bool)       // whether dma_setup succeeds, if it is called

  datatype Event =
    | Queue(cmd: Cmd, stale: Scp, dmaOk: bool)
    | Interrupt(chip: Chip)
    | Abort(cmd: Cmd, dmaOk: bool)
    | Reset

  datatype Outcome = Ok(next: Driver) | Fault | Stuck

  function AsyncXfer(period: nat, cfg: Config): bv8 {
    SyncXfer(period / 4, 0, false, cfg.table)
  }

  function Initial(cfg: Config): Driver {
    Driver(EMPTY, map[], false, false, seq(8, _ => SyncUnset), seq(8, _ => AsyncXfer(DEFAULT_SX_PER, cfg)),
           MsgIn([0, 0, 0, 0, 0, 0, 0, 0], 0), [], Log([], [], [], [], [], [], [], map[], map[]))
  }

  const BLANK := Scp(0, 0, 0, 0, 0, 0, false)

  function ScpOf(s: Driver, c: Cmd): Scp {
    if c in s.scp then s.scp[c] else BLANK
  }

  function StatusesOf(s: Driver, c: Cmd): seq<byte> {
    if c in s.log.statuses then s.log.statuses[c] else []
  }

  function MovedOf(s: Driver, c: Cmd): int {
    if c in s.log.moved then s.log.moved[c] else 0
  }

  function WithScp(s: Driver, c: Cmd, x: Scp): Driver {
    s.(scp := s.scp[c := x])
  }

  function WithCode(s: Driver, code: Code): Driver {
    s.(place := s.place.(state := code))
  }

  /** The chip moved bytes for `c`: its counter went down to `left`. */
  function Transferred(s: Driver, c: Cmd, left: nat): Driver {
    var x := ScpOf(s, c);
    s.(scp := s.scp[c := Advance(x, left)],
       log := s.log.(moved := s.log.moved[c := MovedOf(s, c) + x.thisResidual - left]))
  }

  // ----- starting commands -----

  /** Whether the command to be started gets permission to disconnect. */
  function MayDisconnect(cfg: Config, c: Cmd, rest: seq<Cmd>, disconnectedQ: seq<Cmd>): bool {
    match cfg.policy
    case DisNever => false
    case DisAlways => true
    case DisAdaptive => c.tape || disconnectedQ != [] || OthersWait(c, rest)
  }

  /** Some waiting command is for another unit. */
  predicate OthersWait(c: Cmd, rest: seq<Cmd>) {
    exists d :: d in rest && UnitOf(d) != UnitOf(c)
  }

  /** In adaptive mode the commands left waiting are marked as well, if they made the difference. */
  predicate MarksRest(cfg: Config, c: Cmd, rest: seq<Cmd>, disconnectedQ: seq<Cmd>) {
    cfg.policy == DisAdaptive && !c.tape && disconnectedQ == [] && OthersWait(c, rest)
  }

  function Permit(cfg: Config, s: Driver, c: Cmd, rest: seq<Cmd>): map<Cmd, Scp> {
    var p := MayDisconnect(cfg, c, rest, s.place.disconnectedQ);
    var marked := if MarksRest(cfg, c, rest, s.place.disconnectedQ)
                  then map d | d in s.scp :: if d in rest then s.scp[d].(phase := true) else s.scp[d]
                  else s.scp;
    marked[c := ScpOf(s, c).(phase := p)]
  }

  predicate ViaSelect(cfg: Config, s: Driver, c: Cmd) {
    cfg.level2 == L2_NONE || s.stat[c.id] == SyncUnset
  }

  /** A successful `dma_setup` remembers its direction for `dma_stop`. */
  function StartDma(s: Driver, c: Cmd, dirIn: bool): Driver {
    s.(dmaOn := true, dmaDir := dirIn, log := s.log.(dma := s.log.dma + [Setup(c, dirIn)]))
  }

  /** Command `k` of the input queue gets the bus and its disconnect permission. */
  function Claim(cfg: Config, s: Driver, k: nat): Driver
    requires k < |s.place.inputQ|
  {
    var c := s.place.inputQ[k];
    s.(place := Launch(s.place, k, ViaSelect(cfg, s, c)),
       scp := Permit(cfg, s, c, RemoveAt(s.place.inputQ, k)))
  }

  function Start(cfg: Config, s: Driver, k: nat, dmaOk: bool): Driver
    requires k < |s.place.inputQ|
  {
    var c, s1 := s.place.inputQ[k], Claim(cfg, s, k);
    if s.stat[c.id] == SyncUnset then s1.(stat := s.stat[c.id := SyncFirst])
    else if !ViaSelect(cfg, s, c) && !ScpOf(s1, c).phase && !cfg.noDma && dmaOk then StartDma(s1, c, !c.toDevice)
    else s1
  }

  /** `wd33c93_execute`: starts the first runnable command unless the bus is in use. */
  function Schedule(cfg: Config, s: Driver, dmaOk: bool): Driver {
    if s.place.selecting != null || s.place.connected != null then s else
    var k := FirstRunnable(s.place.inputQ, s.place.busy);
    if k == |s.place.inputQ| then s else Start(cfg, s, k, dmaOk)
  }

  /** The command is set up and put in the input queue. */
  function Accept(s: Driver, c: Cmd, stale: Scp): Driver {
    s.(place := Enqueue(s.place, c), scp := s.scp[c := Begin(c.sg, stale)],
       log := s.log.(submitted := s.log.submitted + [c], live := s.log.live + [c],
                     statuses := s.log.statuses[c := []], moved := s.log.moved[c := 0]))
  }

  function QueueCommand(cfg: Config, s: Driver, c: Cmd, stale: Scp, dmaOk: bool): Driver {
    Schedule(cfg, Accept(s, c, stale), dmaOk)
  }

  // ----- ending commands -----

  function ResultOf(c: Cmd, message: byte, status: byte): Result {
    if IsSense(c) && status != 0 then SenseFailed else Finished(message, status)
  }

  /** The driver lets go of `c`: `scsi_done`. */
  function Release(s: Driver, c: Cmd, ending: Ending, result: Result): Driver {
    s.(scp := s.scp - {c},
       log := s.log.(done := s.log.done + [Completion(c, ending, result)],
                     statuses := s.log.statuses - {c}, moved := s.log.moved - {c}))
  }

  function Complete(s: Driver, c: Cmd, ending: Ending, result: Result): Driver
    requires c == s.place.selecting || c == s.place.connected
  {
    Release(s.(place := Finish(s.place, c)), c, ending, result)
  }

  // ----- interrupts -----

  datatype Cause =
    | Timeout | Select | DataIn | DataOut | Command | Status | MessIn | MessOut
    | SelXferDone | Sdp | UnexpDisc | Disc | Resel | Unknown

  /** The `switch` on the SCSI status register: transfer done, unexpected phase and service
      request (0x18, 0x48, 0x88) carry the bus phase in their low bits. */
  function CauseOf(sr: byte): Cause {
    match sr
    case 0x42 => Timeout
    case 0x11 => Select
    case 0x18 => DataOut case 0x48 => DataOut case 0x88 => DataOut
    case 0x19 => DataIn case 0x49 => DataIn case 0x89 => DataIn
    case 0x1a => Command case 0x4a => Command case 0x8a => Command
    case 0x1b => Status case 0x4b => Status case 0x8b => Status
    case 0x1e => MessOut case 0x4e => MessOut case 0x8e => MessOut
    case 0x1f => MessIn case 0x4f => MessIn case 0x8f => MessIn
    case 0x16 => SelXferDone
    case 0x21 => Sdp
    case 0x41 => UnexpDisc
    case 0x85 => Disc
    case 0x80 => Resel case 0x81 => Resel
    case _ => Unknown
  }

  /** Interrupt entry: a running DMA is over. */
  function StopDma(s: Driver, count: nat): Driver
    requires s.dmaOn ==> s.place.connected != null
  {
    if !s.dmaOn then s else
    var c := s.place.connected;
    var s1 := Transferred(s, c, count);
    s1.(dmaOn := false, log := s1.log.(dma := s1.log.dma + [Stop(c)]))
  }

  function OnTimeout(cfg: Config, s: Driver, r: Chip): Outcome {
    var c := if s.place.state == RunningLevel2 then s.place.connected else s.place.selecting;
    if c == null then Fault
    else Ok(Schedule(cfg, Complete(s, c, BySelectionTimeout, NoConnect), r.dmaOk))
  }

  /** The messages sent after selection: IDENTIFY and, for a first contact, SDTR. */
  function Greeting(cfg: Config, s: Driver, c: Cmd): seq<byte> {
    var identify := 0x80 + c.lun + if ScpOf(s, c).phase then 0x40 else 0;
    if s.stat[c.id] != SyncFirst then [identify] else
    var sdtr := if c.id in cfg.noSync then SyncMsg(cfg.defaultSxPer, 0, false)
                else SyncMsg(cfg.table[1].periodNs, OPTIMUM_SX_OFF, cfg.fast);
    [identify, EXTENDED_MESSAGE, 3, EXTENDED_SDTR, sdtr.0, sdtr.1]
  }

  function OnSelect(cfg: Config, s: Driver): Outcome {
    var c := s.place.selecting;
    if c == null then Fault else
    Ok(s.(place := Selected(s.place), outgoing := Greeting(cfg, s, c),
          stat := if s.stat[c.id] == SyncFirst then s.stat[c.id := SyncWaiting] else s.stat))
  }

  /** Programmed I/O: the chip moved bytes for `c` while the driver waited. */
  function PioMoved(s: Driver, c: Cmd, dirIn: bool, left: nat): Driver {
    var s1 := Transferred(s, c, left);
    s1.(log := s1.log.(pio := s1.log.pio + [PioCall(c, dirIn)]))
  }

  /** `transfer_bytes`: the next piece of data, by DMA if possible, in the direction that the
      interrupt names. */
  function TransferBytes(cfg: Config, s: Driver, c: Cmd, dirIn: bool, r: Chip): Driver {
    var x := NextBuffer(c.sg, ScpOf(s, c));
    var s1 := WithScp(s, c, x);
    if x.thisResidual == 0 then s1
    else if cfg.noDma || !r.dmaOk then PioMoved(s1, c, dirIn, r.pioLeft)
    else
      var s2 := StartDma(s1, c, dirIn);
      if cfg.level2 >= L2_DATA || (cfg.level2 == L2_BASIC && !x.phase) then WithCode(s2, RunningLevel2)
      else s2
  }

  function OnData(cfg: Config, s: Driver, dirIn: bool, r: Chip): Outcome {
    if s.place.connected == null then Fault else
    var s1 := TransferBytes(cfg, s, s.place.connected, dirIn, r);
    Ok(if s1.place.state != RunningLevel2 then WithCode(s1, Connected) else s1)
  }

  function OnCommand(s: Driver): Outcome {
    if s.place.connected == null then Fault else Ok(WithCode(s, Connected))
  }

  function OnStatus(cfg: Config, s: Driver, r: Chip): Outcome {
    var c := s.place.connected;
    if c == null then Fault else
    var s1 := WithScp(s, c, ScpOf(s, c).(status := r.data));
    var s2 := s1.(log := s1.log.(statuses := s1.log.statuses[c := StatusesOf(s, c) + [r.data]]));
    Ok(WithCode(s2, if cfg.level2 >= L2_BASIC then RunningLevel2 else Connected))
  }

  /** The transfer register value an SDTR message leads to. */
  function SdtrXfer(cfg: Config, s: Driver, c: Cmd, ucp: MsgBuf): bv8 {
    if s.stat[c.id] != SyncWaiting then AsyncXfer(cfg.defaultSxPer, cfg)
    else if ucp[4] != 0 then SyncXfer(ucp[3], ucp[4], cfg.fast, cfg.table)
    else if ucp[3] != 0 then SyncXfer(ucp[3], ucp[4], false, cfg.table)
    else AsyncXfer(cfg.defaultSxPer, cfg)
  }

  function OnExtended(cfg: Config, s: Driver, c: Cmd, ucp: MsgBuf): Driver {
    if ucp[2] == EXTENDED_SDTR then
      var sdtr := SyncMsg(cfg.defaultSxPer, 0, false);
      s.(xfer := s.xfer[c.id := SdtrXfer(cfg, s, c, ucp)], stat := s.stat[c.id := SyncSet],
         outgoing := if s.stat[c.id] == SyncWaiting then s.outgoing
                     else [EXTENDED_MESSAGE, 3, EXTENDED_SDTR, sdtr.0, sdtr.1])
    else if ucp[2] == EXTENDED_WDTR then
      s.(outgoing := [EXTENDED_MESSAGE, 2, EXTENDED_WDTR, 0])
    else
      s.(outgoing := [MESSAGE_REJECT])
  }

  function OnShort(cfg: Config, s: Driver, c: Cmd, code: byte): Driver {
    if code == COMMAND_COMPLETE then WithCode(s, PreCmpDisc)
    else if code == SAVE_POINTERS then WithCode(s, Connected)
    else if code == RESTORE_POINTERS then
      WithCode(s, if cfg.level2 >= L2_BASIC then RunningLevel2 else Connected)
    else if code == DISCONNECT then WithCode(s, PreTmpDisc)
    else if code == MESSAGE_REJECT then
      WithCode(if s.stat[c.id] != SyncWaiting then s
               else s.(stat := s.stat[c.id := SyncSet],
                       xfer := s.xfer[c.id := AsyncXfer(cfg.defaultSxPer, cfg)]), Connected)
    else WithCode(s.(outgoing := [MESSAGE_REJECT]), Connected)
  }

  function OnMessIn(cfg: Config, s: Driver, r: Chip): Outcome {
    var c := s.place.connected;
    if c == null then Fault else
    match Assemble(s.msgIn, r.data)
    case OutOfBounds => Fault
    case Wants(next) =>
      var s1 := WithScp(s, c, ScpOf(s, c).(message := EXTENDED_MESSAGE)).(msgIn := next);
      Ok(WithCode(s1, Connected))
    case Whole(next, Extended(_)) =>
      var s1 := WithScp(s, c, ScpOf(s, c).(message := EXTENDED_MESSAGE)).(msgIn := next);
      Ok(WithCode(OnExtended(cfg, s1, c, next.buf), Connected))
    case Whole(next, Short(code)) =>
      var s1 := WithScp(s, c, ScpOf(s, c).(message := code)).(msgIn := next);
      Ok(OnShort(cfg, s1, c, code))
  }

  function OnSelXferDone(cfg: Config, s: Driver, r: Chip): Outcome {
    if r.phs != 0x60 then Ok(s) else
    var c := s.place.connected;
    if c == null then Fault else
    var status := if ScpOf(s, c).status == ILLEGAL_STATUS_BYTE then r.lunReg else ScpOf(s, c).status;
    Ok(Schedule(cfg, Complete(s, c, ByLevel2(StatusesOf(s, c), r.lunReg), ResultOf(c, COMMAND_COMPLETE, status)),
                r.dmaOk))
  }

  function OnSdp(s: Driver): Outcome {
    Ok(WithCode(s, RunningLevel2))
  }

  /** The bytes to be sent in a MESSAGE OUT phase: the prepared message, or NO OPERATION. */
  function MessageOf(s: Driver): seq<byte> {
    if s.outgoing == [] then [NOP] else s.outgoing
  }

  /** The bytes taken when `left` of them are not: a target may change the phase before the end. */
  function TakenOf(bytes: seq<byte>, left: nat): seq<byte> {
    if left <= |bytes| then bytes[..|bytes| - left] else []
  }

  /** The driver does not look whether the target took the whole message. */
  function OnMessOut(s: Driver, r: Chip): Outcome {
    var sent := s.log.sent + [Sent(s.place.connected, TakenOf(MessageOf(s), r.pioLeft))];
    Ok(WithCode(s.(outgoing := [], log := s.log.(sent := sent)), Connected))
  }

  /** A command that ended with a disconnection reports the message and status it has. */
  function Disconnected(s: Driver, c: Cmd, announced: bool): Driver
    requires c == s.place.connected
  {
    var x := ScpOf(s, c);
    Complete(s, c, ByDisconnect(StatusesOf(s, c), x.message, announced),
             ResultOf(c, x.message, x.status))
  }

  function OnUnexpDisc(cfg: Config, s: Driver, r: Chip): Outcome {
    if s.place.connected == null then Ok(WithCode(s, Unconnected))
    else Ok(Schedule(cfg, Disconnected(s, s.place.connected, false), r.dmaOk))
  }

  function OnDisc(cfg: Config, s: Driver, r: Chip): Outcome {
    var s1 :=
      if s.place.connected == null then WithCode(s, Unconnected)
      else if s.place.state == PreCmpDisc then Disconnected(s, s.place.connected, true)
      else if s.place.state in {PreTmpDisc, RunningLevel2} then s.(place := Park(s.place))
      else WithCode(s, Unconnected);
    Ok(Schedule(cfg, s1, r.dmaOk))
  }

  function ResumeCode(cfg: Config): Code {
    if cfg.level2 >= L2_RESELECT then RunningLevel2 else Connected
  }

  function OnResel(cfg: Config, s: Driver, r: Chip): Outcome {
    var l2None := cfg.level2 <= L2_NONE;
    if !l2None && s.place.connected != null && r.phs != 0 then Stuck
    else Ok(s.(place := Reselect(s.place, l2None, r.unit, ResumeCode(cfg))))
  }

  /** The interrupt handler after DMA has been stopped. */
  function OnCause(cfg: Config, s: Driver, r: Chip): Outcome {
    match CauseOf(r.sr)
    case Timeout => OnTimeout(cfg, s, r)
    case Select => OnSelect(cfg, s)
    case DataIn => OnData(cfg, s, true, r)
    case DataOut => OnData(cfg, s, false, r)
    case Command => OnCommand(s)
    case Status => OnStatus(cfg, s, r)
    case MessIn => OnMessIn(cfg, s, r)
    case MessOut => OnMessOut(s, r)
    case SelXferDone => OnSelXferDone(cfg, s, r)
    case Sdp => OnSdp(s)
    case UnexpDisc => OnUnexpDisc(cfg, s, r)
    case Disc => OnDisc(cfg, s, r)
    case Resel => OnResel(cfg, s, r)
    case Unknown => Ok(s)
  }

  /** A masked interrupt: not pending, or the chip is busy. */
  predicate Masked(r: Chip) {
    r.asr & 0x80 == 0 || r.asr & 0x20 != 0
  }

  function OnInterrupt(cfg: Config, s: Driver, r: Chip): Outcome {
    if Masked(r) then Ok(s)
    else if s.dmaOn && s.place.connected == null then Fault
    else OnCause(cfg, StopDma(s, r.count), r)
  }

  // ----- error handling -----

  /** Takes the last occurrence of `c` out of a sequence. */
  function RemoveLast(s: seq<Cmd>, c: Cmd): seq<Cmd> {
    if s == [] then []
    else if s[|s| - 1] == c then s[..|s| - 1]
    else RemoveLast(s[..|s| - 1], c) + [s[|s| - 1]]
  }

  function RemoveAll(s: seq<Cmd>, cs: seq<Cmd>): seq<Cmd>
    decreases |cs|
  {
    if cs == [] then s else RemoveAll(RemoveLast(s, cs[|cs| - 1]), cs[..|cs| - 1])
  }

  function OnAbort(cfg: Config, s: Driver, c: Cmd, dmaOk: bool): Driver {
    var k := IndexOf(s.place.inputQ, c);
    var withdrawn := s.log.(live := RemoveLast(s.log.live, c));
    if k < |s.place.inputQ| then
      Release(s.(place := Withdraw(s.place, k), log := withdrawn), c, ByAbort, Aborted)
    else if s.place.connected == c then
      var s1 := s.(dmaOn := false,
                   log := if s.dmaOn then withdrawn.(dma := s.log.dma + [Stop(c)]) else withdrawn);
      Schedule(cfg, Complete(s1, c, ByAbort, Aborted), dmaOk)
    else if c in s.place.disconnectedQ then s
    else Schedule(cfg, s, dmaOk)
  }

  /** A reset forgets every command and starts a new DMA history. */
  function OnReset(cfg: Config, s: Driver): Driver {
    var held := Active(s.place) + s.place.inputQ;
    Driver(EMPTY, map[], false, s.dmaDir, seq(8, _ => SyncUnset), seq(8, _ => AsyncXfer(DEFAULT_SX_PER, cfg)),
           s.msgIn.(ptr := 0), [],
           s.log.(live := RemoveAll(s.log.live, held), dropped := s.log.dropped + held,
                  dma := [], sent := [], statuses := map[], moved := map[]))
  }

  function Step(cfg: Config, s: Driver, e: Event): Outcome {
    match e
    case Queue(c, stale, dmaOk) => Ok(QueueCommand(cfg, s, c, stale, dmaOk))
    case Interrupt(chip) => OnInterrupt(cfg, s, chip)
    case Abort(c, dmaOk) => Ok(OnAbort(cfg, s, c, dmaOk))
    case Reset => Ok(OnReset(cfg, s))
  }
}
