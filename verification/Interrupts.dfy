/** What each value of the chip's SCSI status register makes the driver do. Codes are given as the numbers
    that the chip delivers: 0x18, 0x48 and 0x88 with the bus phase in their low three bits, and others. */
module Interrupts {
  import opened Basics
  import opened Commands
  import opened Placement
  import opened PlacementProofs
  import opened ScatterGather
  import opened Messages
  import opened Timing
  import opened Driver
  import opened Invariants
  import opened InvariantProofs
  import opened Runs
  import opened HostProofs
  import opened Permissions

  /** Transfer done, unexpected phase or service request, in this bus phase. */
  predicate InPhase(sr: byte, phase: int) {
    sr == 0x18 + phase || sr == 0x48 + phase || sr == 0x88 + phase
  }

  predicate Known(sr: byte) {
    || InPhase(sr, 0) || InPhase(sr, 1) || InPhase(sr, 2) || InPhase(sr, 3) || InPhase(sr, 6) || InPhase(sr, 7)
    || sr in {0x11, 0x16, 0x21, 0x41, 0x42, 0x80, 0x81, 0x85}
  }

  /** An interrupt that the driver sees, in a consistent state that admits it. */
  ghost predicate Arrives(cfg: Config, s: Driver, r: Chip) {
    Inv(s) && Plausible(s, Interrupt(r)) && Admissible(cfg, s, Interrupt(r)) && Seen(r)
  }

  /** The DMA calls so far, with the stop at interrupt entry. */
  function Stopped(s: Driver): seq<DmaCall> {
    s.log.dma + if s.dmaOn && s.place.connected != null then [Stop(s.place.connected)] else []
  }

  /** Nothing is transferred, but a running DMA is stopped. */
  predicate NoTransfer(s: Driver, s': Driver) {
    !s'.dmaOn && s'.log.dma == Stopped(s) && s'.log.pio == s.log.pio
  }

  predicate NoStatus(s: Driver, s': Driver) {
    s'.log.statuses == s.log.statuses
  }

  /** No message goes either way. */
  predicate NoMessage(s: Driver, s': Driver) {
    s'.log.sent == s.log.sent && s'.outgoing == s.outgoing && s'.msgIn == s.msgIn
  }

  predicate NobodyEnds(s: Driver, s': Driver) {
    s'.log.done == s.log.done
  }

  lemma Enters(cfg: Config, s: Driver, r: Chip)
    requires Arrives(cfg, s, r)
    ensures var s1 := StopDma(s, r.count);
            && !Masked(r) && (s.dmaOn ==> s.place.connected != null)
            && Inv(s1) && !s1.dmaOn && Expected(cfg, s1, r) && OnCause(cfg, s1, r).Ok?
            && Step(cfg, s, Interrupt(r)) == OnCause(cfg, s1, r)
            && s1.place == s.place && NoTransfer(s, s1) && NoStatus(s, s1) && NoMessage(s, s1) && NobodyEnds(s, s1)
            && s1.stat == s.stat && s1.xfer == s.xfer
            && (forall c :: c in s.scp.Keys + s1.scp.Keys ==>
                  ScpOf(s1, c).status == ScpOf(s, c).status && ScpOf(s1, c).message == ScpOf(s, c).message
                  && ScpOf(s1, c).phase == ScpOf(s, c).phase)
  {
    hide Inv, OnCause, NextBuffer, CauseOf, Reselectable, Acceptable;
    DmaNeedsConnected(s);
    StopDmaKeeps(s, r.count);
    StopDmaFrame(s, r.count);
    SameExpectation(cfg, s, StopDma(s, r.count), r);
    InterruptKeeps(cfg, s, r);
  }

  lemma PhaseCause(sr: byte)
    ensures InPhase(sr, 0) ==> CauseOf(sr) == DataOut
    ensures InPhase(sr, 1) ==> CauseOf(sr) == DataIn
    ensures InPhase(sr, 2) ==> CauseOf(sr) == Command
    ensures InPhase(sr, 3) ==> CauseOf(sr) == Status
    ensures InPhase(sr, 6) ==> CauseOf(sr) == MessOut
    ensures InPhase(sr, 7) ==> CauseOf(sr) == MessIn
    ensures !Known(sr) ==> CauseOf(sr) == Unknown
  {
  }

  lemma CodeCause(sr: byte)
    ensures sr == 0x11 <==> CauseOf(sr) == Select
    ensures sr == 0x16 <==> CauseOf(sr) == SelXferDone
    ensures sr == 0x21 <==> CauseOf(sr) == Sdp
    ensures sr == 0x41 <==> CauseOf(sr) == UnexpDisc
    ensures sr == 0x42 <==> CauseOf(sr) == Timeout
    ensures sr == 0x80 || sr == 0x81 <==> CauseOf(sr) == Resel
    ensures sr == 0x85 <==> CauseOf(sr) == Disc
  {
  }

  // ----- bus phases -----

  /** Phases 0 and 1 transfer data, outward and inward: by DMA if it is possible, otherwise by programmed
      I/O, and not at all if none is left. */
  lemma DataPhase(cfg: Config, s: Driver, r: Chip, phase: int)
    requires Arrives(cfg, s, r) && 0 <= phase <= 1 && InPhase(r.sr, phase)
    ensures s.place.connected != null && Step(cfg, s, Interrupt(r)).Ok?
    ensures var c, s', inward := s.place.connected, Step(cfg, s, Interrupt(r)).next, phase == 1;
            var left := NextBuffer(c.sg, ScpOf(StopDma(s, r.count), c)).thisResidual;
            && NoStatus(s, s') && NoMessage(s, s') && NobodyEnds(s, s') && s'.place.connected == c
            && (if left == 0 then NoTransfer(s, s')
                else if !cfg.noDma && r.dmaOk then
                  && s'.dmaOn && s'.dmaDir == inward
                  && s'.log.dma == Stopped(s) + [Setup(c, inward)] && s'.log.pio == s.log.pio
                else
                  && !s'.dmaOn && s'.log.dma == Stopped(s)
                  && s'.log.pio == s.log.pio + [PioCall(c, inward)])
  {
    hide Arrives, Inv, OnData, CauseOf, StopDma, Stopped, Step;
    Enters(cfg, s, r);
    PhaseCause(r.sr);
    DataEffect(cfg, StopDma(s, r.count), phase == 1, r);
  }

  lemma DataEffect(cfg: Config, s: Driver, inward: bool, r: Chip)
    requires s.place.connected != null && !s.dmaOn
    ensures OnData(cfg, s, inward, r).Ok?
    ensures var c, s' := s.place.connected, OnData(cfg, s, inward, r).next;
            && NoStatus(s, s') && NoMessage(s, s') && NobodyEnds(s, s') && s'.place.connected == c
            && (if NextBuffer(c.sg, ScpOf(s, c)).thisResidual == 0 then
                  !s'.dmaOn && s'.log.dma == s.log.dma && s'.log.pio == s.log.pio
                else if !cfg.noDma && r.dmaOk then
                  s'.dmaOn && s'.dmaDir == inward && s'.log.dma == s.log.dma + [Setup(c, inward)]
                  && s'.log.pio == s.log.pio
                else !s'.dmaOn && s'.log.dma == s.log.dma && s'.log.pio == s.log.pio + [PioCall(c, inward)])
  {
    hide NextBuffer, Advance;
  }

  /** Phase 2 sends the command block, and does nothing else. */
  lemma CommandPhase(cfg: Config, s: Driver, r: Chip)
    requires Arrives(cfg, s, r) && InPhase(r.sr, 2)
    ensures Step(cfg, s, Interrupt(r)).Ok?
    ensures var s' := Step(cfg, s, Interrupt(r)).next;
            NoTransfer(s, s') && NoStatus(s, s') && NoMessage(s, s') && NobodyEnds(s, s')
  {
    hide Arrives, Inv, CauseOf, StopDma, Stopped, Step;
    Enters(cfg, s, r);
    PhaseCause(r.sr);
  }

  /** Phase 3 takes one status byte, for the connected command. */
  lemma StatusPhase(cfg: Config, s: Driver, r: Chip)
    requires Arrives(cfg, s, r) && InPhase(r.sr, 3)
    ensures s.place.connected != null && Step(cfg, s, Interrupt(r)).Ok?
    ensures var c, s' := s.place.connected, Step(cfg, s, Interrupt(r)).next;
            && NoTransfer(s, s') && NoMessage(s, s') && NobodyEnds(s, s')
            && s'.log.statuses == s.log.statuses[c := StatusesOf(s, c) + [r.data]]
  {
    hide Arrives, Inv, CauseOf, StopDma, Stopped, Step;
    Enters(cfg, s, r);
    PhaseCause(r.sr);
  }

  /** Phase 6 sends the prepared message, or NO OPERATION, up to where the target stops taking it. */
  lemma MessageOutPhase(cfg: Config, s: Driver, r: Chip)
    requires Arrives(cfg, s, r) && InPhase(r.sr, 6)
    ensures s.place.connected != null && Step(cfg, s, Interrupt(r)).Ok?
    ensures var s', m := Step(cfg, s, Interrupt(r)).next, if s.outgoing == [] then [0x08] else s.outgoing;
            && NoTransfer(s, s') && NoStatus(s, s') && NobodyEnds(s, s')
            && r.pioLeft <= |m|
            && s'.log.sent == s.log.sent + [Sent(s.place.connected, m[..|m| - r.pioLeft])]
            && s'.outgoing == [] && s'.msgIn == s.msgIn
  {
    hide Arrives, Inv, CauseOf, StopDma, Stopped, Step;
    Enters(cfg, s, r);
    PhaseCause(r.sr);
    MessageFits(cfg, s, r);
  }

  lemma MessageFits(cfg: Config, s: Driver, r: Chip)
    requires Arrives(cfg, s, r) && CauseOf(r.sr) == MessOut && s.place.connected != null
    ensures r.pioLeft <= |MessageOf(s)|
  {
    hide Inv, CauseOf, NextBuffer;
  }

  /** Phase 7 takes one message byte. */
  lemma MessageInPhase(cfg: Config, s: Driver, r: Chip)
    requires Arrives(cfg, s, r) && InPhase(r.sr, 7)
    ensures s.place.connected != null && s.msgIn.ptr < 8 && Step(cfg, s, Interrupt(r)).Ok?
    ensures var s' := Step(cfg, s, Interrupt(r)).next;
            && NoTransfer(s, s') && NoStatus(s, s') && NobodyEnds(s, s') && s'.log.sent == s.log.sent
            && s'.msgIn.buf == s.msgIn.buf[s.msgIn.ptr := r.data]
  {
    hide Arrives, Inv, CauseOf, StopDma, Stopped, Step, OnMessIn;
    Enters(cfg, s, r);
    PhaseCause(r.sr);
    ByteStored(cfg, StopDma(s, r.count), r);
  }

  lemma ByteStored(cfg: Config, s: Driver, r: Chip)
    requires OnMessIn(cfg, s, r).Ok?
    ensures s.msgIn.ptr < 8
    ensures var s' := OnMessIn(cfg, s, r).next;
            && s'.dmaOn == s.dmaOn && s'.log == s.log && s'.msgIn.buf == s.msgIn.buf[s.msgIn.ptr := r.data]
  {
    hide OnExtended, OnShort;
    var c := s.place.connected;
    match Assemble(s.msgIn, r.data)
    case Wants(_) =>
    case Whole(next, Extended(_)) =>
      ExtendedBooks(cfg, WithScp(s, c, ScpOf(s, c).(message := EXTENDED_MESSAGE)).(msgIn := next), c, next.buf);
    case Whole(next, Short(code)) =>
      ShortBooks(cfg, WithScp(s, c, ScpOf(s, c).(message := code)).(msgIn := next), c, code);
  }

  lemma ExtendedBooks(cfg: Config, s: Driver, c: Cmd, ucp: MsgBuf)
    ensures var s' := OnExtended(cfg, s, c, ucp); s'.dmaOn == s.dmaOn && s'.log == s.log && s'.msgIn == s.msgIn
  {
    hide SdtrXfer, SyncMsg;
  }

  lemma ShortBooks(cfg: Config, s: Driver, c: Cmd, code: byte)
    ensures var s' := OnShort(cfg, s, c, code); s'.dmaOn == s.dmaOn && s'.log == s.log && s'.msgIn == s.msgIn
  {
    hide SyncXfer;
  }

  // ----- other codes -----

  /** Any code but these is passed over, and so are 0x16 outside phase 0x60 and an interrupt that is not
      pending or meets a busy chip. */
  lemma PassedOver(cfg: Config, s: Driver, r: Chip)
    requires Inv(s) && Plausible(s, Interrupt(r)) && Admissible(cfg, s, Interrupt(r))
    ensures !Seen(r) ==> Step(cfg, s, Interrupt(r)) == Ok(s)
    ensures Seen(r) && (!Known(r.sr) || (r.sr == 0x16 && r.phs != 0x60)) ==>
      var o := Step(cfg, s, Interrupt(r));
      && o.Ok? && o.next.place == s.place && o.next.stat == s.stat && o.next.xfer == s.xfer
      && NoTransfer(s, o.next) && NoStatus(s, o.next) && NoMessage(s, o.next) && NobodyEnds(s, o.next)
  {
    hide Inv, CauseOf, StopDma, Stopped, Known, Plausible, Admissible;
    if Seen(r) {
      Enters(cfg, s, r);
      PhaseCause(r.sr);
      CodeCause(r.sr);
    }
  }

  lemma ScheduleEnds(cfg: Config, s: Driver, dmaOk: bool)
    ensures Schedule(cfg, s, dmaOk).log.done == s.log.done
  {
    hide Permit, Launch;
  }

  lemma TimeoutEnds(cfg: Config, s: Driver, r: Chip)
    requires Inv(s) && s.place.state in {RunningLevel2, Selecting}
    ensures var o := OnTimeout(cfg, s, r);
            var c := if s.place.connected != null then s.place.connected else s.place.selecting;
            c != null && o.Ok? && o.next.log.done == s.log.done + [Completion(c, BySelectionTimeout, NoConnect)]
  {
    hide Books, Craft, Tracked, WorkConserving, OnePerUnit, NoRepeats, Units, Schedule, Finish;
    var c := if s.place.state == RunningLevel2 then s.place.connected else s.place.selecting;
    ScheduleEnds(cfg, Complete(s, c, BySelectionTimeout, NoConnect), r.dmaOk);
  }

  lemma Level2Ends(cfg: Config, s: Driver, r: Chip)
    requires r.phs == 0x60 ==> s.place.connected != null
    ensures var o, c := OnSelXferDone(cfg, s, r), s.place.connected;
            && o.Ok?
            && (if r.phs == 0x60 then
                  && |o.next.log.done| == |s.log.done| + 1
                  && o.next.log.done == s.log.done + [o.next.log.done[|s.log.done|]]
                  && o.next.log.done[|s.log.done|].cmd == c
                  && o.next.log.done[|s.log.done|].ending == ByLevel2(StatusesOf(s, c), r.lunReg)
                else o.next.log.done == s.log.done)
  {
    hide Schedule, Finish, ResultOf;
    if r.phs == 0x60 {
      var c := s.place.connected;
      var status := if ScpOf(s, c).status == ILLEGAL_STATUS_BYTE then r.lunReg else ScpOf(s, c).status;
      ScheduleEnds(cfg, Complete(s, c, ByLevel2(StatusesOf(s, c), r.lunReg),
                                 ResultOf(c, COMMAND_COMPLETE, status)), r.dmaOk);
    }
  }

  lemma DisconnectedEnds(s: Driver, c: Cmd, announced: bool)
    requires c == s.place.connected
    ensures var done := Disconnected(s, c, announced).log.done;
            && |done| == |s.log.done| + 1 && done == s.log.done + [done[|s.log.done|]]
            && done[|s.log.done|].cmd == c
            && done[|s.log.done|].ending == ByDisconnect(StatusesOf(s, c), ScpOf(s, c).message, announced)
  {
    hide Finish, ResultOf;
  }

  lemma UnexpectedEnds(cfg: Config, s: Driver, r: Chip)
    ensures var o, c := OnUnexpDisc(cfg, s, r), s.place.connected;
            && o.Ok? && o.next.log.done == if c == null then s.log.done else Disconnected(s, c, false).log.done
  {
    hide Schedule, Disconnected;
    if s.place.connected != null {
      ScheduleEnds(cfg, Disconnected(s, s.place.connected, false), r.dmaOk);
    }
  }

  lemma DisconnectEnds(cfg: Config, s: Driver, r: Chip)
    ensures var o, c := OnDisc(cfg, s, r), s.place.connected;
            && o.Ok?
            && o.next.log.done == if c != null && s.place.state == PreCmpDisc then Disconnected(s, c, true).log.done
                                  else s.log.done
  {
    hide Schedule, Disconnected, Park;
    if s.place.connected != null {
      ScheduleEnds(cfg, Disconnected(s, s.place.connected, true), r.dmaOk);
      ScheduleEnds(cfg, s.(place := Park(s.place)), r.dmaOk);
    }
    ScheduleEnds(cfg, WithCode(s, Unconnected), r.dmaOk);
  }

  /** The commands that end with an interrupt, and how: 0x42 ends the one being started, 0x16 in phase 0x60
      the connected one with the LUN register at hand, 0x41 the connected one as well, and so does 0x85 if
      COMMAND COMPLETE announced it. No other interrupt ends any. */
  lemma CompletionOf(cfg: Config, s: Driver, r: Chip)
    requires Arrives(cfg, s, r)
    ensures Step(cfg, s, Interrupt(r)).Ok?
    ensures var done, done' := s.log.done, Step(cfg, s, Interrupt(r)).next.log.done;
            if r.sr == 0x42 then
              && |done'| == |done| + 1 && done' == done + [done'[|done|]]
              && (done'[|done|].cmd == s.place.selecting || done'[|done|].cmd == s.place.connected)
              && done'[|done|].ending == BySelectionTimeout && done'[|done|].result == NoConnect
            else if s.place.connected != null && r.sr == 0x16 && r.phs == 0x60 then
              && |done'| == |done| + 1 && done' == done + [done'[|done|]]
              && done'[|done|].cmd == s.place.connected
              && done'[|done|].ending == ByLevel2(StatusesOf(s, s.place.connected), r.lunReg)
            else if s.place.connected != null && (r.sr == 0x41 || (r.sr == 0x85 && s.place.state == PreCmpDisc)) then
              && |done'| == |done| + 1 && done' == done + [done'[|done|]]
              && done'[|done|].cmd == s.place.connected
              && done'[|done|].ending
                 == ByDisconnect(StatusesOf(s, s.place.connected), ScpOf(s, s.place.connected).message, r.sr == 0x85)
            else done' == done
  {
    hide Arrives, Inv, CauseOf, StopDma, Stopped, Step, OnTimeout, OnSelXferDone, OnUnexpDisc, OnDisc, Disconnected,
      OnData, OnMessIn, OnSelect, OnResel, OnStatus, OnMessOut, Reselectable, Acceptable;
    Enters(cfg, s, r);
    CodeCause(r.sr);
    var s1 := StopDma(s, r.count);
    match CauseOf(r.sr)
    case Timeout => TimeoutEnds(cfg, s1, r);
    case SelXferDone => Level2Ends(cfg, s1, r);
    case UnexpDisc =>
      UnexpectedEnds(cfg, s1, r);
      if s.place.connected != null {
        DisconnectedEnds(s1, s.place.connected, false);
      }
    case Disc =>
      DisconnectEnds(cfg, s1, r);
      if s.place.connected != null {
        DisconnectedEnds(s1, s.place.connected, true);
      }
    case _ => NothingDone(cfg, s1, r);
  }

  /** Codes 0x80 and 0x81: the disconnected command of the reselecting unit is connected again, and a
      command that was being started goes back to the head of the queue. */
  lemma Reselection(cfg: Config, s: Driver, r: Chip, d: Cmd)
    requires Arrives(cfg, s, r) && (r.sr == 0x80 || r.sr == 0x81)
    requires d in s.place.disconnectedQ && d.id == r.unit.0 && d.lun == r.unit.1
    ensures Step(cfg, s, Interrupt(r)).Ok?
    ensures var p, p' := s.place, Step(cfg, s, Interrupt(r)).next.place;
            && p'.connected == d && p'.selecting == null && d !in p'.disconnectedQ
            && (forall x :: x in p.disconnectedQ && x != d ==> x in p'.disconnectedQ)
            && p'.inputQ == (if p.selecting != null then [p.selecting] else if p.connected != null then [p.connected]
                             else []) + p.inputQ
  {
    hide Arrives, Inv, CauseOf, StopDma, Stopped, Step, OnCause, Reselect, Reselectable, Acceptable;
    Enters(cfg, s, r);
    CodeCause(r.sr);
    ReselCause(cfg, StopDma(s, r.count), r);
    ReselMoves(cfg, StopDma(s, r.count), r, d);
  }

  lemma ReselCause(cfg: Config, s: Driver, r: Chip)
    requires CauseOf(r.sr) == Resel
    ensures OnCause(cfg, s, r) == OnResel(cfg, s, r)
  {
    hide CauseOf, OnResel;
  }

  lemma ReselMoves(cfg: Config, s: Driver, r: Chip, d: Cmd)
    requires Inv(s) && Expected(cfg, s, r) && CauseOf(r.sr) == Resel && OnResel(cfg, s, r).Ok?
    requires d in s.place.disconnectedQ && UnitOf(d) == r.unit
    ensures var p, p' := s.place, OnResel(cfg, s, r).next.place;
            && p'.connected == d && p'.selecting == null && d !in p'.disconnectedQ
            && (forall x :: x in p.disconnectedQ && x != d ==> x in p'.disconnectedQ)
            && p'.inputQ == (if p.selecting != null then [p.selecting] else if p.connected != null then [p.connected]
                             else []) + p.inputQ
  {
    hide Books, Craft, Tracked, WorkConserving, OnePerUnit, NoRepeats, Units, CauseOf, Acceptable, CodeAgrees, RemoveAt;
    var q := s.place.disconnectedQ;
    var k := ReselectedAt(s, d);
    RemoveAtKeeps(q, k);
    ParkedOnce(s, k);
  }

  lemma ReselectedAt(s: Driver, d: Cmd) returns (k: nat)
    requires Inv(s) && d in s.place.disconnectedQ
    ensures k == Find(s.place.disconnectedQ, UnitOf(d)) < |s.place.disconnectedQ| && s.place.disconnectedQ[k] == d
  {
    hide Books, Craft, Tracked, WorkConserving, NoRepeats, Units, CodeAgrees, OnePerUnit, Find;
    k := Find(s.place.disconnectedQ, UnitOf(d));
    var i :| 0 <= i < |s.place.disconnectedQ| && s.place.disconnectedQ[i] == d;
    SameUnit(Active(s.place), s.place.disconnectedQ[k], d);
  }

  lemma ParkedOnce(s: Driver, k: nat)
    requires Inv(s) && k < |s.place.disconnectedQ|
    ensures s.place.disconnectedQ[k] !in RemoveAt(s.place.disconnectedQ, k)
  {
    hide Books, Craft, Tracked, WorkConserving, OnePerUnit, Units, CodeAgrees, RemoveAt;
    var q, d := s.place.disconnectedQ, s.place.disconnectedQ[k];
    assert d in Stock(s.place) && multiset(q)[d] <= Stock(s.place)[d];
    assert multiset(RemoveAt(q, k))[d] == multiset(q)[d] - 1;
  }
}
