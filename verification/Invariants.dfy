/** What holds between any two calls into the driver, and which calls keep it that way. */
module Invariants {
  import opened Basics
  import opened Commands
  import opened Placement
  import opened ScatterGather
  import opened Messages
  import opened Driver

  // ----- ledger and order -----

  function Cmds(done: seq<Completion>): seq<Cmd> {
    seq(|done|, i requires 0 <= i < |done| => done[i].cmd)
  }

  /** The commands that ran to an end of their own, in completion order. */
  function Ended(done: seq<Completion>): seq<Cmd> {
    if done == [] then []
    else Ended(done[..|done| - 1]) + if done[|done| - 1].ending.ByAbort? then [] else [done[|done| - 1].cmd]
  }

  /** Every submission is held, completed or dropped by a reset: one of these, and once. */
  predicate Ledger(p: Place, log: Log) {
    multiset(log.submitted) == Stock(p) + multiset(Cmds(log.done)) + multiset(log.dropped)
  }

  /** On unit `u`: what ended, then what is pending, is what was submitted and not withdrawn. */
  predicate InOrder(p: Place, log: Log, u: Unit) {
    Line(Ended(log.done), u) + Pending(p, u) == Line(log.live, u)
  }

  // ----- reports -----

  function LastOr(bytes: seq<byte>, default: byte): byte {
    if bytes == [] then default else bytes[|bytes| - 1]
  }

  /** The status a level-2 completion must report: the last byte of a STATUS phase if there was
      one (0xff counts as none), otherwise the LUN register. */
  function Level2Status(statuses: seq<byte>, lunReg: byte): byte {
    if LastOr(statuses, ILLEGAL_STATUS_BYTE) == ILLEGAL_STATUS_BYTE then lunReg
    else LastOr(statuses, ILLEGAL_STATUS_BYTE)
  }

  /** The result handed to `scsi_done` is the one the target's bytes call for. */
  predicate WellReported(x: Completion) {
    match x.ending
    case BySelectionTimeout => x.result == NoConnect
    case ByAbort => x.result == Aborted
    case ByLevel2(statuses, lunReg) =>
      x.result == ResultOf(x.cmd, COMMAND_COMPLETE, Level2Status(statuses, lunReg))
    case ByDisconnect(statuses, message, announced) =>
      && x.result == ResultOf(x.cmd, message, LastOr(statuses, ILLEGAL_STATUS_BYTE))
      && (announced ==> message == COMMAND_COMPLETE)
  }

  // ----- held commands -----

  predicate Tracked(s: Driver) {
    && s.scp.Keys == Held(s.place)
    && s.log.statuses.Keys == s.scp.Keys
    && s.log.moved.Keys == s.scp.Keys
  }

  predicate CmdOk(c: Cmd, x: Scp, statuses: seq<byte>, moved: int) {
    Flow(c.sg, x, moved) && x.status == LastOr(statuses, ILLEGAL_STATUS_BYTE)
  }

  predicate CmdsOk(s: Driver) {
    forall c :: c in s.scp ==> CmdOk(c, ScpOf(s, c), StatusesOf(s, c), MovedOf(s, c))
  }

  /** The state code remembers the message that announced the disconnection. */
  predicate Announced(s: Driver) {
    s.place.state == PreCmpDisc && s.place.connected != null ==>
      ScpOf(s, s.place.connected).message == COMMAND_COMPLETE
  }

  // ----- DMA -----

  /** Setups and stops alternate, each stop for the command of the setup before it. */
  predicate Alternate(dma: seq<DmaCall>) {
    forall i :: 0 <= i < |dma| ==> InTurn(dma, i)
  }

  predicate InTurn(dma: seq<DmaCall>, i: nat)
    requires i < |dma|
  {
    if i % 2 == 0 then dma[i].Setup? else dma[i] == Stop(dma[i - 1].cmd)
  }

  predicate Paired(s: Driver) {
    && Alternate(s.log.dma)
    && (s.dmaOn <==> |s.log.dma| % 2 == 1)
    && (s.dmaOn ==> s.place.connected != null && s.log.dma[|s.log.dma| - 1] == Setup(s.place.connected, s.dmaDir))
  }

  // ----- together -----

  /** The books balance: the ledger, the order of every unit, and the reports. */
  ghost predicate Books(p: Place, log: Log) {
    && Ledger(p, log)
    && (forall u :: InOrder(p, log, u))
    && (forall x :: x in log.done ==> WellReported(x))
  }

  predicate Craft(s: Driver) {
    CmdsOk(s) && Announced(s) && Paired(s) && InMessage(s.msgIn)
  }

  /** Everything but work conservation: what holds when `Schedule` is about to be called. */
  ghost predicate Base(s: Driver) {
    Core(s.place) && Tracked(s) && Books(s.place, s.log) && Craft(s)
  }

  ghost predicate Inv(s: Driver) {
    Base(s) && WorkConserving(s.place)
  }

  // ----- the environment -----

  /** The caller does not queue a command that is already held, and the chip's counter never
      exceeds the value written to it. */
  predicate Plausible(s: Driver, e: Event) {
    match e
    case Queue(c, _, _) => c !in Held(s.place)
    case Interrupt(r) =>
      s.place.connected != null && !Masked(r) ==>
        var c := s.place.connected;
        && (s.dmaOn ==> r.count <= ScpOf(s, c).thisResidual)
        && (CauseOf(r.sr) in {DataIn, DataOut} ==>
              r.pioLeft <= NextBuffer(c.sg, ScpOf(StopDma(s, r.count), c)).thisResidual)
        && (CauseOf(r.sr) == MessOut ==> r.pioLeft <= |MessageOf(s)|)
    case Abort(_, _) => true
    case Reset => true
  }

  /** The interrupts the driver can answer in a given state. */
  predicate Expected(cfg: Config, s: Driver, r: Chip) {
    var p := s.place;
    match CauseOf(r.sr)
    case Timeout => p.state in {RunningLevel2, Selecting}
    case Select => p.selecting != null
    case DataIn => p.connected != null
    case DataOut => p.connected != null
    case Command => p.connected != null
    case Status => p.connected != null
    case MessIn => p.connected != null && Acceptable(s.msgIn, r.data)
    case MessOut => p.connected != null
    case SelXferDone => r.phs == 0x60 ==> p.connected != null
    case Sdp => p.connected != null
    case UnexpDisc => p.connected != null || p.selecting == null
    case Disc => if p.connected == null then p.selecting == null
                 else p.state in {PreCmpDisc, PreTmpDisc, RunningLevel2}
    case Resel =>
      && Reselectable(p, cfg.level2 <= L2_NONE, r.unit)
      && (cfg.level2 > L2_NONE && p.connected != null ==> r.phs == 0)
    case Unknown => true
  }

  predicate Admissible(cfg: Config, s: Driver, e: Event) {
    e.Interrupt? && !Masked(e.chip) ==> Expected(cfg, s, e.chip)
  }
}
