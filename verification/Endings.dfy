/** The interrupts that end or park a command and then call the scheduler, in two halves. */
module Endings {
  import opened Commands
  import opened Placement
  import opened ScatterGather
  import opened Messages
  import opened Driver
  import opened Invariants
  import opened InvariantProofs
  import opened InterruptProofs
  import opened HostProofs

  /** Whether the interrupt handler calls `wd33c93_execute`. */
  predicate Schedules(s: Driver, r: Chip) {
    match CauseOf(r.sr)
    case Timeout => true
    case SelXferDone => r.phs == 0x60
    case UnexpDisc => s.place.connected != null
    case Disc => true
    case _ => false
  }

  /** The command that such an interrupt completes. */
  function Completed(s: Driver, r: Chip): Cmd? {
    match CauseOf(r.sr)
    case Timeout => if s.place.state == RunningLevel2 then s.place.connected else s.place.selecting
    case SelXferDone => s.place.connected
    case UnexpDisc => s.place.connected
    case Disc => if s.place.state == PreCmpDisc then s.place.connected else null
    case _ => null
  }

  /** The driver at that moment. */
  function Before(s: Driver, r: Chip): Driver
    requires CauseOf(r.sr) in {Timeout, SelXferDone, UnexpDisc} ==> Completed(s, r) != null
  {
    var c := Completed(s, r);
    match CauseOf(r.sr)
    case Timeout => Complete(s, c, BySelectionTimeout, NoConnect)
    case SelXferDone =>
      var status := if ScpOf(s, c).status == ILLEGAL_STATUS_BYTE then r.lunReg else ScpOf(s, c).status;
      Complete(s, c, ByLevel2(StatusesOf(s, c), r.lunReg), ResultOf(c, 0, status))
    case UnexpDisc => Disconnected(s, c, false)
    case _ =>
      if s.place.connected == null then WithCode(s, Unconnected)
      else if s.place.state == PreCmpDisc then Disconnected(s, s.place.connected, true)
      else s.(place := Park(s.place))
  }

  /** A null slot here means that the interrupt was not admissible. */
  predicate Answerable(s: Driver, r: Chip) {
    CauseOf(r.sr) in {Timeout, SelXferDone, UnexpDisc} ==> Completed(s, r) != null
  }

  /** What holds when an interrupt that ends or parks a command calls the scheduler. */
  lemma BeforeKeeps(cfg: Config, s: Driver, r: Chip)
    requires Inv(s) && !s.dmaOn && Expected(cfg, s, r) && Schedules(s, r)
    ensures Answerable(s, r) && Base(Before(s, r)) && !Before(s, r).dmaOn
    ensures OnCause(cfg, s, r) == Ok(Schedule(cfg, Before(s, r), r.dmaOk))
    ensures Completed(s, r) != null ==> Completed(s, r) in s.scp
    ensures Before(s, r).scp == if Completed(s, r) == null then s.scp else s.scp - {Completed(s, r)}
  {
    hide Inv, Base, Schedule, CauseOf, Reselectable, Acceptable, ResultOf;
    SlotsHeld(s);
    match CauseOf(r.sr)
    case Timeout => TimeoutBefore(s);
    case SelXferDone => Level2Keeps(s, r);
    case UnexpDisc => DisconnectedKeeps(s, false);
    case Disc => DiscBefore(s);
    case _ =>
  }

  lemma TimeoutBefore(s: Driver)
    requires Inv(s) && !s.dmaOn && s.place.state in {RunningLevel2, Selecting}
    ensures var c := if s.place.state == RunningLevel2 then s.place.connected else s.place.selecting;
            c != null && Base(Complete(s, c, BySelectionTimeout, NoConnect))
  {
    hide Tracked, Books, Craft, Owned, Finish;
    CompleteKeeps(s, if s.place.state == RunningLevel2 then s.place.connected else s.place.selecting,
                  BySelectionTimeout, NoConnect);
  }

  lemma DiscBefore(s: Driver)
    requires Inv(s) && !s.dmaOn
    requires if s.place.connected == null then s.place.selecting == null
             else s.place.state in {PreCmpDisc, PreTmpDisc, RunningLevel2}
    ensures s.place.connected == null ==> s.place.state == Unconnected && Base(WithCode(s, Unconnected))
    ensures s.place.connected != null && s.place.state == PreCmpDisc ==>
      Base(Disconnected(s, s.place.connected, true))
    ensures s.place.connected != null && s.place.state != PreCmpDisc ==> Base(s.(place := Park(s.place)))
  {
    hide Disconnected, Park, Books, Craft, Owned, Tracked;
    if s.place.connected == null {
      assert WithCode(s, Unconnected) == s;
    } else if s.place.state == PreCmpDisc {
      DisconnectedKeeps(s, true);
    } else {
      ParkedKeeps(s);
    }
  }

  // ----- what the scheduler and an ending leave as it was -----

  /** The command that an idle bus would take next. */
  function NextUp(p: Place): Cmd? {
    var k := FirstRunnable(p.inputQ, p.busy);
    if k == |p.inputQ| then null else p.inputQ[k]
  }

  /** The scheduler only ever takes the next command, into one of the two slots. */
  lemma ScheduleSelects(cfg: Config, s: Driver, dmaOk: bool)
    ensures var s', n := Schedule(cfg, s, dmaOk), NextUp(s.place);
            && s'.outgoing == s.outgoing && s'.msgIn == s.msgIn && s'.log.sent == s.log.sent
            && (if s.place.selecting != null || s.place.connected != null || n == null then s' == s
                else if ViaSelect(cfg, s, n) then
                  && s'.place.selecting == n && s'.place.connected == null
                  && s'.stat == (if s.stat[n.id] == SyncUnset then s.stat[n.id := SyncFirst] else s.stat)
                else s'.place.selecting == null && s'.place.connected == n && s'.stat == s.stat)
  {
    hide Permit;
  }

  /** The place when the connected command has just ended or been parked. */
  function AfterEnding(s: Driver, r: Chip): Place
    requires s.place.connected != null
  {
    if CauseOf(r.sr) == Disc && s.place.state != PreCmpDisc then Park(s.place)
    else Finish(s.place, s.place.connected)
  }

  /** Both slots are free when an ending interrupt calls the scheduler; negotiation and messages are
      as before. */
  lemma BeforeFrame(cfg: Config, s: Driver, r: Chip)
    requires Inv(s) && !s.dmaOn && Expected(cfg, s, r) && Schedules(s, r)
    ensures Answerable(s, r)
    ensures var s1 := Before(s, r);
            && s1.place.selecting == null && s1.place.connected == null && s1.stat == s.stat
            && s1.outgoing == s.outgoing && s1.msgIn == s.msgIn && s1.log.sent == s.log.sent
    ensures CauseOf(r.sr) == Timeout && s.place.selecting != null ==>
      Before(s, r).place == Finish(s.place, s.place.selecting)
    ensures CauseOf(r.sr) != Timeout ==> s.place.selecting == null
    ensures s.place.connected != null ==> Before(s, r).place == AfterEnding(s, r)
  {
    hide CauseOf, Books, Craft, Tracked, WorkConserving, OnePerUnit, Reselectable, Acceptable;
  }

  lemma MaskedNothing(cfg: Config, s: Driver, r: Chip)
    requires Masked(r)
    ensures OnInterrupt(cfg, s, r) == Ok(s)
  {
  }

  lemma DataFrame(cfg: Config, s: Driver, dirIn: bool, r: Chip)
    requires OnData(cfg, s, dirIn, r).Ok?
    ensures var s' := OnData(cfg, s, dirIn, r).next;
            && s'.stat == s.stat && s'.log.sent == s.log.sent && s'.outgoing == s.outgoing && s'.msgIn == s.msgIn
            && s'.place.connected == s.place.connected && s'.place.selecting == s.place.selecting
  {
    hide TransferBytes;
    if s.place.connected != null {
      TransferSame(cfg, s, s.place.connected, dirIn, r);
    }
  }

  lemma TransferSame(cfg: Config, s: Driver, c: Cmd, dirIn: bool, r: Chip)
    ensures var s' := TransferBytes(cfg, s, c, dirIn, r);
            && s'.stat == s.stat && s'.log.sent == s.log.sent && s'.outgoing == s.outgoing && s'.msgIn == s.msgIn
            && s'.place.connected == s.place.connected && s'.place.selecting == s.place.selecting
  {
    hide NextBuffer, Advance;
  }
}
