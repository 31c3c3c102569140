/** When a target may leave the bus, and what its last message makes of the command. */
module Leaving {
  import opened Basics
  import opened Commands
  import opened Placement
  import opened PlacementProofs
  import opened ScatterGather
  import opened Messages
  import opened Timing
  import opened Driver
  import opened Invariants
  import opened InterruptProofs
  import opened Runs
  import opened Endings
  import opened Permissions
  import opened Starts
  import opened Interrupts

  /** The disconnection of the connected target, code 0x85, would be understood. */
  predicate MayLeave(s: Driver) {
    s.place.connected != null && s.place.state in {RunningLevel2, PreTmpDisc, PreCmpDisc}
  }

  /** That is to say: it is admissible. */
  lemma MayLeaveIff(cfg: Config, s: Driver, r: Chip)
    requires s.place.connected != null && Seen(r) && r.sr == 0x85
    ensures Admissible(cfg, s, Interrupt(r)) <==> MayLeave(s)
  {
    hide Acceptable, Reselectable;
    CodeCause(r.sr);
    hide CauseOf;
  }

  // ----- what allows a disconnection -----

  /** Data: if the chip was left in its command sequence, or is put back into it because DMA is running
      and either the level is 4 or more, or it is 3 and the command may not disconnect. */
  lemma AfterData(cfg: Config, s: Driver, r: Chip)
    requires Arrives(cfg, s, r) && (InPhase(r.sr, 0) || InPhase(r.sr, 1))
    ensures s.place.connected != null && Step(cfg, s, Interrupt(r)).Ok?
    ensures var s' := Step(cfg, s, Interrupt(r)).next;
            && (MayLeave(s') <==>
                  s.place.state == RunningLevel2
                  || (s'.dmaOn && (cfg.level2 >= 4 || (cfg.level2 == 3 && !ScpOf(s, s.place.connected).phase))))
            && (MayLeave(s') ==> s'.place.state == RunningLevel2)
  {
    hide Arrives, Inv, CauseOf, StopDma, Stopped, Step, OnData;
    Enters(cfg, s, r);
    PhaseCause(r.sr);
    hide InPhase;
    var s1 := StopDma(s, r.count);
    DataCode(cfg, s1, CauseOf(r.sr) == DataIn, r);
    ConnectedScp(s, s1);
  }

  lemma ConnectedScp(s: Driver, s1: Driver)
    requires s.place.connected != null
    requires forall c :: c in s.scp.Keys + s1.scp.Keys ==> ScpOf(s1, c).phase == ScpOf(s, c).phase
    ensures ScpOf(s1, s.place.connected).phase == ScpOf(s, s.place.connected).phase
  {
  }

  lemma DataCode(cfg: Config, s: Driver, inward: bool, r: Chip)
    requires s.place.connected != null && !s.dmaOn
    ensures OnData(cfg, s, inward, r).Ok?
    ensures var s' := OnData(cfg, s, inward, r).next;
            && s'.place.connected == s.place.connected
            && (s'.place.state == RunningLevel2 <==>
                  s.place.state == RunningLevel2
                  || (s'.dmaOn && (cfg.level2 >= 4 || (cfg.level2 == 3 && !ScpOf(s, s.place.connected).phase))))
            && s'.place.state in {RunningLevel2, Connected}
  {
    var c := s.place.connected;
    NextKeepsPhase(c.sg, ScpOf(s, c));
    hide NextBuffer, Advance;
  }

  /** The other phases, save and select: a status byte if the level is 3 or more; 0x21, by which the chip
      goes on after SAVE POINTERS, always; the command block, a message to the target and a selection never. */
  lemma AfterOthers(cfg: Config, s: Driver, r: Chip)
    requires Arrives(cfg, s, r)
    requires InPhase(r.sr, 2) || InPhase(r.sr, 3) || InPhase(r.sr, 6) || r.sr in {0x11, 0x21}
    ensures Step(cfg, s, Interrupt(r)).Ok? && Step(cfg, s, Interrupt(r)).next.place.connected != null
    ensures var s' := Step(cfg, s, Interrupt(r)).next;
            && (MayLeave(s') <==> (InPhase(r.sr, 3) && cfg.level2 >= 3) || r.sr == 0x21)
            && (MayLeave(s') ==> s'.place.state == RunningLevel2)
  {
    hide Arrives, Inv, CauseOf, StopDma, Stopped, Step, Acceptable, Reselectable;
    Enters(cfg, s, r);
    PhaseCause(r.sr);
    CodeCause(r.sr);
  }

  /** A message byte: COMMAND COMPLETE (0) and DISCONNECT (4), and RESTORE POINTERS (3) if the level is 3 or
      more. After any other byte, and within an extended message, the target has to stay. */
  lemma AfterMessage(cfg: Config, s: Driver, r: Chip)
    requires Arrives(cfg, s, r) && InPhase(r.sr, 7)
    ensures s.place.connected != null && Step(cfg, s, Interrupt(r)).Ok?
    ensures var s' := Step(cfg, s, Interrupt(r)).next;
            && s'.place.connected == s.place.connected
            && (MayLeave(s') <==>
                  s.msgIn.ptr == 0 && (r.data == 0 || r.data == 4 || (r.data == 3 && cfg.level2 >= 3)))
            && (s'.place.state == PreCmpDisc <==> s.msgIn.ptr == 0 && r.data == 0)
            && (s'.place.state == PreTmpDisc <==> s.msgIn.ptr == 0 && r.data == 4)
            && (!(s.msgIn.ptr == 0 && r.data != 1) ==> ScpOf(s', s.place.connected).message == 1)
            && (s.msgIn.ptr == 0 && r.data != 1 ==>
                  s'.msgIn.ptr == 0 && ScpOf(s', s.place.connected).message == r.data
                  && ScpOf(s', s.place.connected).status == ScpOf(s, s.place.connected).status
                  && (r.data !in {0, 2, 3, 4, 7} ==> s'.outgoing == [7]))
  {
    hide Arrives, Inv, CauseOf, StopDma, Stopped, Step, OnMessIn;
    Enters(cfg, s, r);
    PhaseCause(r.sr);
    InMessageNow(cfg, s, r);
    var s1 := StopDma(s, r.count);
    ConnectedStatus(s, s1);
    MessageCode(cfg, s1, r);
  }

  lemma ConnectedStatus(s: Driver, s1: Driver)
    requires s.place.connected != null
    requires forall c :: c in s.scp.Keys + s1.scp.Keys ==> ScpOf(s1, c).status == ScpOf(s, c).status
    ensures ScpOf(s1, s.place.connected).status == ScpOf(s, s.place.connected).status
  {
  }

  lemma InMessageNow(cfg: Config, s: Driver, r: Chip)
    requires Arrives(cfg, s, r) && CauseOf(r.sr) == MessIn
    ensures s.place.connected != null && InMessage(s.msgIn)
  {
    hide CauseOf, Acceptable, NextBuffer, InMessage;
  }

  lemma MessageCode(cfg: Config, s: Driver, r: Chip)
    requires s.place.connected != null && InMessage(s.msgIn)
    ensures OnMessIn(cfg, s, r).Ok?
    ensures var s', c := OnMessIn(cfg, s, r).next, s.place.connected;
            && s'.place.connected == c
            && (MayLeave(s') <==>
                  s.msgIn.ptr == 0 && (r.data == 0 || r.data == 4 || (r.data == 3 && cfg.level2 >= 3)))
            && (s'.place.state == PreCmpDisc <==> s.msgIn.ptr == 0 && r.data == 0)
            && (s'.place.state == PreTmpDisc <==> s.msgIn.ptr == 0 && r.data == 4)
            && (!(s.msgIn.ptr == 0 && r.data != 1) ==> ScpOf(s', c).message == 1)
            && (s.msgIn.ptr == 0 && r.data != 1 ==>
                  s'.msgIn.ptr == 0 && ScpOf(s', c).message == r.data && ScpOf(s', c).status == ScpOf(s, c).status
                  && (r.data !in {0, 2, 3, 4, 7} ==> s'.outgoing == [7]))
  {
    hide OnExtended, OnShort;
    var c := s.place.connected;
    FirstByte(s.msgIn, r.data);
    hide Assemble;
    match Assemble(s.msgIn, r.data)
    case Wants(_) =>
    case Whole(next, Extended(_)) =>
      ExtendedStays(cfg, WithScp(s, c, ScpOf(s, c).(message := EXTENDED_MESSAGE)).(msgIn := next), c, next.buf);
    case Whole(next, Short(code)) =>
      ShortCode(cfg, WithScp(s, c, ScpOf(s, c).(message := code)).(msgIn := next), c, code);
  }

  /** A byte is a message of its own exactly if the buffer is empty and it does not open an extended one. */
  lemma FirstByte(m: MsgIn, b: byte)
    requires InMessage(m)
    ensures var a := Assemble(m, b);
            && !a.OutOfBounds?
            && (a.Whole? && a.message.Short? <==> m.ptr == 0 && b != 1)
            && (a.Whole? && a.message.Short? ==> a.message.code == b && a.next.ptr == 0)
  {
  }

  lemma ShortCode(cfg: Config, s: Driver, c: Cmd, code: byte)
    ensures var s' := OnShort(cfg, s, c, code);
            && s'.scp == s.scp && s'.msgIn == s.msgIn && s'.place == s.place.(state := s'.place.state)
            && (s'.place.state in {RunningLevel2, PreTmpDisc, PreCmpDisc} <==>
                  code == 0 || code == 4 || (code == 3 && cfg.level2 >= 3))
            && (s'.place.state == PreCmpDisc <==> code == 0) && (s'.place.state == PreTmpDisc <==> code == 4)
            && (code !in {0, 2, 3, 4, 7} ==> s'.outgoing == [7])
  {
    hide SyncXfer;
  }

  /** A reselection leaves the chip in its command sequence if the level is 6. */
  lemma AfterReselection(cfg: Config, s: Driver, r: Chip, d: Cmd)
    requires Arrives(cfg, s, r) && (r.sr == 0x80 || r.sr == 0x81)
    requires d in s.place.disconnectedQ && d.id == r.unit.0 && d.lun == r.unit.1
    ensures Step(cfg, s, Interrupt(r)).Ok?
    ensures var s' := Step(cfg, s, Interrupt(r)).next;
            (MayLeave(s') <==> cfg.level2 >= 6) && (MayLeave(s') ==> s'.place.state == RunningLevel2)
  {
    hide Arrives, Inv, CauseOf, StopDma, Stopped, Step, OnCause, Reselectable, Acceptable;
    Enters(cfg, s, r);
    CodeCause(r.sr);
    ReselCause(cfg, StopDma(s, r.count), r);
    var k := ReselectedAt(StopDma(s, r.count), d);
    hide Find;
  }

  // ----- the last message and the disconnection -----

  lemma HeldParts(p: Place, c: Cmd)
    ensures c in Held(p) <==> c in p.inputQ || c in Active(p)
  {
  }

  /** A disconnection, from the point of view of the connected command: with COMMAND COMPLETE before it the
      command is over and its unit free for the next one, otherwise it is parked. */
  lemma LeavingMoves(cfg: Config, s: Driver, r: Chip)
    requires Arrives(cfg, s, r) && r.sr == 0x85 && s.place.connected != null
    ensures Step(cfg, s, Interrupt(r)).Ok?
    ensures var c, s' := s.place.connected, Step(cfg, s, Interrupt(r)).next;
            if s.place.state == PreCmpDisc then
              && c !in Held(s'.place)
              && (UnitOf(c) in s'.place.busy ==>
                    exists d :: d in s.place.inputQ && d in Active(s'.place) && UnitOf(d) == UnitOf(c))
            else c in s'.place.disconnectedQ && s'.log.done == s.log.done
  {
    hide Arrives, Inv, Base, CauseOf, StopDma, Stopped, Step, OnCause, Schedule, Disconnected, Held, Active, Finish,
      Park;
    Enters(cfg, s, r);
    CodeCause(r.sr);
    var s1, c := StopDma(s, r.count), s.place.connected;
    DiscCause(cfg, s1, r);
    CauseKeeps(cfg, s1, r);
    var s' := Step(cfg, s, Interrupt(r)).next;
    if s.place.state == PreCmpDisc {
      var p := Disconnected(s1, c, true);
      DisconnectedMoves(s1, c);
      FinishFewer(s1, c);
      DisconnectedKeeps(s1, true);
      ScheduleHolds(cfg, p, r.dmaOk);
      HeldParts(p.place, c);
      ConnectedNotWaiting(s1, c);
      if UnitOf(c) in s'.place.busy {
        var d := NextOfUnit(cfg, s1, p, s', r.dmaOk, c);
      }
    } else {
      ParkedStays(cfg, s1, r.dmaOk);
      DisconnectEnds(cfg, s1, r);
    }
  }

  lemma ConnectedNotWaiting(s: Driver, c: Cmd)
    requires Inv(s) && c == s.place.connected
    ensures c !in s.place.inputQ && c in Active(s.place)
  {
    hide Inv;
    ActiveParts(s.place);
    ActiveNotWaiting(s, c);
  }

  lemma DiscCause(cfg: Config, s: Driver, r: Chip)
    requires Inv(s) && !s.dmaOn && CauseOf(r.sr) == Disc && Expected(cfg, s, r) && s.place.connected != null
    ensures OnCause(cfg, s, r) == OnDisc(cfg, s, r)
    ensures OnDisc(cfg, s, r) ==
            Ok(Schedule(cfg, if s.place.state == PreCmpDisc then Disconnected(s, s.place.connected, true)
                             else s.(place := Park(s.place)), r.dmaOk))
  {
    hide CauseOf, Schedule, Disconnected, Acceptable, Reselectable;
  }

  lemma DisconnectedMoves(s: Driver, c: Cmd)
    requires c == s.place.connected
    ensures Disconnected(s, c, true).place == Finish(s.place, c)
  {
    hide Finish, ResultOf;
  }

  lemma ScheduleHolds(cfg: Config, p: Driver, dmaOk: bool)
    requires Base(p)
    ensures Held(Schedule(cfg, p, dmaOk).place) == Held(p.place)
  {
    hide Books, Craft, Tracked, Permit, Core;
    var v := NextUp(p.place) != null && ViaSelect(cfg, p, NextUp(p.place));
    ScheduleExecutes(cfg, p, dmaOk, v);
    CoreOf(p);
    ExecuteSettles(p.place, v);
  }

  lemma CoreOf(p: Driver)
    requires Base(p)
    ensures Core(p.place)
  {
  }

  lemma ScheduleExecutes(cfg: Config, p: Driver, dmaOk: bool, v: bool)
    requires NextUp(p.place) != null ==> v == ViaSelect(cfg, p, NextUp(p.place))
    ensures Schedule(cfg, p, dmaOk).place == Execute(p.place, v)
  {
    hide Permit, Launch;
  }

  lemma ParkedStays(cfg: Config, s: Driver, dmaOk: bool)
    requires Inv(s) && !s.dmaOn && s.place.connected != null
    ensures s.place.connected in Schedule(cfg, s.(place := Park(s.place)), dmaOk).place.disconnectedQ
  {
    hide Inv, Permit;
  }

  /** The unit of a command that is over can only be taken by one that was waiting for it. */
  lemma NextOfUnit(cfg: Config, s: Driver, p: Driver, s': Driver, dmaOk: bool, c: Cmd) returns (d: Cmd)
    requires Inv(s) && c == s.place.connected && Base(p) && s' == Schedule(cfg, p, dmaOk) && Inv(s')
    requires p.place == Finish(s.place, c) && UnitOf(c) in s'.place.busy
    ensures d in s.place.inputQ && d in Active(s'.place) && UnitOf(d) == UnitOf(c)
  {
    hide Inv, Base, Schedule, Finish, Active;
    BusyOwner(s'.place, UnitOf(c), s');
    d :| d in Active(s'.place) && UnitOf(d) == UnitOf(c);
    FinishFewer(s, c);
    if d in Active(p.place) {
      ActiveUnits(s, c, d);
    } else {
      TakenFrom(cfg, p, dmaOk, d);
    }
  }

  lemma BusyOwner(p: Place, u: Unit, s: Driver)
    requires Inv(s) && s.place == p && u in p.busy
    ensures exists d :: d in Active(p) && UnitOf(d) == u
  {
    hide Books, Craft, Tracked, WorkConserving, NoRepeats, OnePerUnit, CodeAgrees;
  }

  lemma ActiveUnits(s: Driver, c: Cmd, d: Cmd)
    requires Inv(s) && c == s.place.connected && d in Active(s.place) && UnitOf(d) == UnitOf(c)
    ensures d == c
  {
    hide Books, Craft, Tracked, WorkConserving, NoRepeats, Units, CodeAgrees, OnePerUnit;
    SameUnit(Active(s.place), c, d);
  }

  lemma TakenFrom(cfg: Config, p: Driver, dmaOk: bool, d: Cmd)
    requires Base(p) && d in Active(Schedule(cfg, p, dmaOk).place) && d !in Active(p.place)
    ensures d in p.place.inputQ
  {
    hide Base, Schedule, Active, FirstRunnable;
    var k := FirstRunnable(p.place.inputQ, p.place.busy);
    ActiveParts(p.place);
    ActiveParts(Schedule(cfg, p, dmaOk).place);
    ScheduleIdle(cfg, p, dmaOk);
    if p.place.selecting == null && p.place.connected == null && k < |p.place.inputQ| {
      ScheduleTakes(cfg, p, dmaOk, k);
      assert p.place.inputQ[k] in p.place.inputQ;
    }
  }

  /** The last status byte, if there was one. */
  function StatusByte(bytes: seq<byte>): byte {
    if bytes == [] then 0xff else bytes[|bytes| - 1]
  }

  /** COMMAND COMPLETE and a disconnection end the command: it is passed to `scsi_done` once, with the last
      status byte and message 0, or as failed if it is a REQUEST SENSE with another status than 0; it is
      held no more, and its unit is free unless a command that was waiting for it is started at once. */
  lemma CompletesAndLeaves(cfg: Config, s: Driver, r: Chip, r': Chip)
    requires Arrives(cfg, s, r) && InPhase(r.sr, 7) && s.msgIn.ptr == 0 && r.data == 0
    requires Step(cfg, s, Interrupt(r)).Ok? && Plausible(Step(cfg, s, Interrupt(r)).next, Interrupt(r'))
    requires Seen(r') && r'.sr == 0x85
    ensures s.place.connected != null
    ensures var c, s1 := s.place.connected, Step(cfg, s, Interrupt(r)).next;
            && Admissible(cfg, s1, Interrupt(r')) && Step(cfg, s1, Interrupt(r')).Ok?
            && var s2, bytes := Step(cfg, s1, Interrupt(r')).next, StatusesOf(s, c);
               && s2.log.done == s.log.done +
                    [Completion(c, ByDisconnect(bytes, 0, true),
                                if c.opcode == 0x03 && StatusByte(bytes) != 0 then SenseFailed
                                else Finished(0, StatusByte(bytes)))]
               && c !in Held(s2.place)
               && (UnitOf(c) in s2.place.busy ==>
                     exists d :: d in s.place.inputQ && d in Active(s2.place) && UnitOf(d) == UnitOf(c))
  {
    hide Arrives, Inv, Step, Plausible, Admissible, Held, Active, Stopped;
    var s1 := ThenLeaves(cfg, s, r, r');
    LeavingMoves(cfg, s1, r');
    CompletionOf(cfg, s1, r');
    var s2 := Step(cfg, s1, Interrupt(r')).next;
    assert |s2.log.done| == |s.log.done| + 1;
    LastReported(s2);
    LastReportRead(s2);
  }

  lemma LastReported(s: Driver)
    requires Inv(s) && s.log.done != []
    ensures WellReported(s.log.done[|s.log.done| - 1])
  {
    hide Core, Craft, Tracked, WorkConserving, Ledger, InOrder, WellReported;
  }

  lemma LastReportRead(s: Driver)
    requires s.log.done != [] && WellReported(s.log.done[|s.log.done| - 1])
    ensures var x := s.log.done[|s.log.done| - 1];
            x.ending.ByDisconnect? ==>
              var status := StatusByte(x.ending.statuses);
              x.result ==
              if x.cmd.opcode == 0x03 && status != 0 then SenseFailed else Finished(x.ending.message, status)
  {
  }

  /** DISCONNECT and a disconnection end nothing: the command waits for its reselection. */
  lemma DisconnectsAndLeaves(cfg: Config, s: Driver, r: Chip, r': Chip)
    requires Arrives(cfg, s, r) && InPhase(r.sr, 7) && s.msgIn.ptr == 0 && r.data == 4
    requires Step(cfg, s, Interrupt(r)).Ok? && Plausible(Step(cfg, s, Interrupt(r)).next, Interrupt(r'))
    requires Seen(r') && r'.sr == 0x85
    ensures s.place.connected != null
    ensures var c, s1 := s.place.connected, Step(cfg, s, Interrupt(r)).next;
            && Admissible(cfg, s1, Interrupt(r')) && Step(cfg, s1, Interrupt(r')).Ok?
            && var s2 := Step(cfg, s1, Interrupt(r')).next;
               s2.log.done == s.log.done && c in s2.place.disconnectedQ
  {
    hide Arrives, Inv, Step, Plausible, Admissible, Held, Active, Stopped;
    var s1 := ThenLeaves(cfg, s, r, r');
    LeavingMoves(cfg, s1, r');
  }

  lemma ThenLeaves(cfg: Config, s: Driver, r: Chip, r': Chip) returns (s1: Driver)
    requires Arrives(cfg, s, r) && InPhase(r.sr, 7) && s.msgIn.ptr == 0 && (r.data == 0 || r.data == 4)
    requires Step(cfg, s, Interrupt(r)).Ok? && Plausible(Step(cfg, s, Interrupt(r)).next, Interrupt(r'))
    requires Seen(r') && r'.sr == 0x85
    ensures s1 == Step(cfg, s, Interrupt(r)).next && Arrives(cfg, s1, r') && Admissible(cfg, s1, Interrupt(r'))
    ensures s.place.connected != null && s1.place.connected == s.place.connected
    ensures s1.place.inputQ == s.place.inputQ && s1.log.done == s.log.done
    ensures StatusesOf(s1, s.place.connected) == StatusesOf(s, s.place.connected)
    ensures ScpOf(s1, s.place.connected).message == r.data && (s1.place.state == PreCmpDisc <==> r.data == 0)
    ensures Step(cfg, s1, Interrupt(r')).Ok? && Inv(Step(cfg, s1, Interrupt(r')).next)
  {
    hide Inv, Step, Plausible, Admissible, Stopped, InPhase, Seen;
    s1 := Step(cfg, s, Interrupt(r)).next;
    StepKeeps(cfg, s, Interrupt(r));
    AfterMessage(cfg, s, r);
    MessageInPhase(cfg, s, r);
    MayLeaveIff(cfg, s1, r');
    StepKeeps(cfg, s1, Interrupt(r'));
    QueueStays(cfg, s, r);
  }

  lemma QueueStays(cfg: Config, s: Driver, r: Chip)
    requires Arrives(cfg, s, r) && InPhase(r.sr, 7)
    ensures Step(cfg, s, Interrupt(r)).Ok? && Step(cfg, s, Interrupt(r)).next.place.inputQ == s.place.inputQ
  {
    hide Arrives, Inv, CauseOf, StopDma, Stopped, Step, OnMessIn;
    Enters(cfg, s, r);
    PhaseCause(r.sr);
    MessInStays(cfg, StopDma(s, r.count), r);
  }
}
