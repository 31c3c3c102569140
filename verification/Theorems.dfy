/** What every run of the driver guarantees, stated about any state `s` that a run `es` of
    admissible calls reaches from start-up. */
module Theorems {
  import opened Basics
  import opened Commands
  import opened Placement
  import opened PlacementProofs
  import opened ScatterGather
  import opened Driver
  import opened Invariants
  import opened Runs

  /** Ownership: a held command is in exactly one of the two queues and two slots, and a busy
      bit is set exactly when one started command, and no other, belongs to that unit. */
  lemma Ownership(cfg: Config, es: seq<Event>, s: Driver)
    requires Reachable(cfg, es, s)
    ensures var p := s.place;
            forall c :: c in Held(p) ==>
              multiset(p.inputQ)[c] + SlotBag(p.selecting)[c] + SlotBag(p.connected)[c]
              + multiset(p.disconnectedQ)[c] == 1
    ensures forall u :: u in s.place.busy <==>
              exists c :: c in Active(s.place) && UnitOf(c) == u
    ensures forall c, d :: c in Active(s.place) && d in Active(s.place) && UnitOf(c) == UnitOf(d) ==> c == d
  {
    ReachableInv(cfg, es, s);
    forall c, d | c in Active(s.place) && d in Active(s.place) && UnitOf(c) == UnitOf(d)
      ensures c == d
    {
      SameUnit(Active(s.place), c, d);
    }
  }

  /** The state code is S_SELECTING, one of the four connected codes, or S_UNCONNECTED exactly
      when `selecting`, `connected`, or neither is set; both are never set together. */
  lemma StateCode(cfg: Config, es: seq<Event>, s: Driver)
    requires Reachable(cfg, es, s)
    ensures s.place.selecting == null || s.place.connected == null
    ensures s.place.state == Selecting <==> s.place.selecting != null
    ensures s.place.state in {RunningLevel2, Connected, PreTmpDisc, PreCmpDisc} <==> s.place.connected != null
    ensures s.place.state == Unconnected <==> s.place.selecting == null && s.place.connected == null
  {
    ReachableInv(cfg, es, s);
  }

  /** The bus is never idle while a runnable command waits: with both slots free, the unit of
      every waiting command is occupied by a disconnected one. */
  lemma NeverIdle(cfg: Config, es: seq<Event>, s: Driver)
    requires Reachable(cfg, es, s) && s.place.selecting == null && s.place.connected == null
    ensures forall c :: c in s.place.inputQ ==>
              exists d :: d in s.place.disconnectedQ && UnitOf(d) == UnitOf(c)
  {
    ReachableInv(cfg, es, s);
    forall c | c in s.place.inputQ
      ensures exists d :: d in s.place.disconnectedQ && UnitOf(d) == UnitOf(c)
    {
      var k := Find(s.place.disconnectedQ, UnitOf(c));
      assert s.place.disconnectedQ[k] in s.place.disconnectedQ;
    }
  }

  predicate NoReset(es: seq<Event>) {
    forall e :: e in es ==> !e.Reset?
  }

  predicate NoAbort(es: seq<Event>) {
    forall e :: e in es ==> !e.Abort?
  }

  /** Exactly-once completion: as multisets, the submissions are the held commands and the
      calls of `scsi_done`, apart from what resets dropped; without a reset nothing is. */
  lemma ExactlyOnce(cfg: Config, es: seq<Event>, s: Driver)
    requires Reachable(cfg, es, s)
    ensures multiset(s.log.submitted) == Stock(s.place) + multiset(Cmds(s.log.done)) + multiset(s.log.dropped)
    ensures NoReset(es) ==> s.log.dropped == []
    ensures forall c :: multiset(Cmds(s.log.done))[c] <= multiset(s.log.submitted)[c]
  {
    ReachableInv(cfg, es, s);
    if NoReset(es) {
      RunLog(cfg, Initial(cfg), es);
    }
  }

  /** Per-unit order: the commands of a unit other than REQUEST SENSE end in the order in which
      they were submitted; without aborts and resets `live` is everything submitted. */
  lemma PerUnitOrder(cfg: Config, es: seq<Event>, s: Driver, u: Unit)
    requires Reachable(cfg, es, s)
    ensures Line(Ended(s.log.done), u) <= Line(s.log.live, u)
    ensures NoReset(es) && NoAbort(es) ==> s.log.live == s.log.submitted
  {
    ReachableInv(cfg, es, s);
    assert InOrder(s.place, s.log, u);
    if NoReset(es) && NoAbort(es) {
      RunLog(cfg, Initial(cfg), es);
    }
  }

  /** DMA pairing: setups and stops alternate, each stop for the command of the setup before
      it; DMA is marked as running exactly between the two, and then on the connected command. */
  lemma DmaPairing(cfg: Config, es: seq<Event>, s: Driver)
    requires Reachable(cfg, es, s)
    ensures forall i :: 0 <= i < |s.log.dma| ==> InTurn(s.log.dma, i)
    ensures s.dmaOn <==> |s.log.dma| % 2 == 1
    ensures s.dmaOn ==> s.place.connected != null && s.log.dma[|s.log.dma| - 1] == Setup(s.place.connected, s.dmaDir)
  {
    ReachableInv(cfg, es, s);
  }

  /** Scatter-gather conservation for every held command, over any mix of DMA, programmed I/O
      and disconnections. */
  lemma BytesConserved(cfg: Config, es: seq<Event>, s: Driver, c: Cmd)
    requires Reachable(cfg, es, s) && c in Held(s.place) && c.sg != []
    ensures c in s.scp && c in s.log.moved
    ensures var x := s.scp[c];
            && x.buffer + x.buffersResidual + 1 == |c.sg|
            && s.log.moved[c] + x.thisResidual + Total(c.sg[x.buffer + 1..]) == Total(c.sg)
            && x.ptr == c.sg[x.buffer].addr + (c.sg[x.buffer].len - x.thisResidual)
  {
    ReachableInv(cfg, es, s);
    assert CmdOk(c, ScpOf(s, c), StatusesOf(s, c), MovedOf(s, c));
  }

  /** What a command with this status and message must report: a REQUEST SENSE (0x03) is failed unless its
      status is 0, everything else reports both bytes. */
  predicate Reports(x: Completion, message: byte, status: byte) {
    x.result == if x.cmd.opcode == 0x03 && status != 0 then SenseFailed else Finished(message, status)
  }

  /** Status provenance: a level-2 completion reports the last byte read in a STATUS phase since the
      command was queued, if there was one and it is not 0xff, and the LUN register otherwise; a
      completion by disconnection reports that byte, or 0xff, with the last message byte, which is
      COMMAND COMPLETE unless the disconnection was unexpected. */
  lemma StatusProvenance(cfg: Config, es: seq<Event>, s: Driver, x: Completion)
    requires Reachable(cfg, es, s) && x in s.log.done
    ensures x.ending.ByLevel2? ==>
      var bytes := x.ending.statuses;
      Reports(x, 0, if bytes != [] && bytes[|bytes| - 1] != 0xff then bytes[|bytes| - 1] else x.ending.lunReg)
    ensures x.ending.ByDisconnect? ==>
      var bytes := x.ending.statuses;
      && Reports(x, x.ending.message, if bytes != [] then bytes[|bytes| - 1] else 0xff)
      && (x.ending.announced ==> x.ending.message == 0)
    ensures x.result == NoConnect <==> x.ending.BySelectionTimeout?
    ensures x.result == Aborted <==> x.ending.ByAbort?
  {
    ReachableInv(cfg, es, s);
    assert WellReported(x);
  }

  /** The disconnect mark that a waiting command was given when another one started makes no
      difference: starting the command computes its permission afresh. */
  lemma MarkMakesNoDifference(cfg: Config, s: Driver, k: nat, mark: bool, dmaOk: bool)
    requires k < |s.place.inputQ| && s.place.inputQ[k] in s.scp
    ensures var c := s.place.inputQ[k];
            Start(cfg, WithScp(s, c, ScpOf(s, c).(phase := mark)), k, dmaOk) == Start(cfg, s, k, dmaOk)
  {
    hide OthersWait, MayDisconnect;
    var c, rest := s.place.inputQ[k], RemoveAt(s.place.inputQ, k);
    var s' := WithScp(s, c, ScpOf(s, c).(phase := mark));
    assert Permit(cfg, s', c, rest) == Permit(cfg, s, c, rest);
  }

  /** A data phase goes the way its interrupt says, whatever the command was meant for: in that
      direction DMA is set up or programmed I/O done, once, unless no data is left. */
  lemma DirectionOfInterrupt(cfg: Config, s: Driver, r: Chip)
    requires CauseOf(r.sr) in {DataIn, DataOut} && s.place.connected != null && !s.dmaOn
    ensures var c, o, dirIn := s.place.connected, OnCause(cfg, s, r), CauseOf(r.sr) == DataIn;
            && o.Ok?
            && (o.next.dmaOn ==> o.next.dmaDir == dirIn)
            && (if NextBuffer(c.sg, ScpOf(s, c)).thisResidual == 0 then
                  !o.next.dmaOn && o.next.log.dma == s.log.dma && o.next.log.pio == s.log.pio
                else if o.next.dmaOn then
                  o.next.log.dma == s.log.dma + [Setup(c, dirIn)] && o.next.log.pio == s.log.pio
                else
                  o.next.log.dma == s.log.dma && o.next.log.pio == s.log.pio + [PioCall(c, dirIn)])
  {
    hide CauseOf, NextBuffer, Advance;
  }

  // ----- the log over a run -----

  /** Interrupts submit nothing, withdraw nothing and drop nothing. */
  predicate SameIntake(log: Log, log': Log) {
    log'.submitted == log.submitted && log'.live == log.live && log'.dropped == log.dropped
  }

  lemma ScheduleIntake(cfg: Config, s: Driver, dmaOk: bool)
    ensures SameIntake(s.log, Schedule(cfg, s, dmaOk).log)
  {
    hide Permit, Launch;
  }

  lemma CauseIntake(cfg: Config, s: Driver, r: Chip)
    ensures OnCause(cfg, s, r).Ok? ==> SameIntake(s.log, OnCause(cfg, s, r).next.log)
  {
    hide CauseOf, OnTimeout, OnSelXferDone, OnUnexpDisc, OnDisc, OnMessIn, TransferBytes, PioMoved, Greeting, Reselect;
    match CauseOf(r.sr)
    case Timeout => TimeoutIntake(cfg, s, r);
    case SelXferDone => SelXferDoneIntake(cfg, s, r);
    case UnexpDisc => DiscIntake(cfg, s, r);
    case Disc => DiscIntake(cfg, s, r);
    case MessIn => MessInIntake(cfg, s, r);
    case DataIn => DataIntake(cfg, s, true, r);
    case DataOut => DataIntake(cfg, s, false, r);
    case _ =>
  }

  lemma TimeoutIntake(cfg: Config, s: Driver, r: Chip)
    ensures OnTimeout(cfg, s, r).Ok? ==> SameIntake(s.log, OnTimeout(cfg, s, r).next.log)
  {
    hide Schedule, Finish;
    var c := if s.place.state == RunningLevel2 then s.place.connected else s.place.selecting;
    if c != null {
      ScheduleIntake(cfg, Complete(s, c, BySelectionTimeout, NoConnect), r.dmaOk);
    }
  }

  lemma DiscIntake(cfg: Config, s: Driver, r: Chip)
    ensures OnUnexpDisc(cfg, s, r).Ok? ==> SameIntake(s.log, OnUnexpDisc(cfg, s, r).next.log)
    ensures OnDisc(cfg, s, r).Ok? ==> SameIntake(s.log, OnDisc(cfg, s, r).next.log)
  {
    hide Schedule, Finish, Park;
    if s.place.connected != null {
      ScheduleIntake(cfg, Disconnected(s, s.place.connected, true), r.dmaOk);
      ScheduleIntake(cfg, Disconnected(s, s.place.connected, false), r.dmaOk);
      ScheduleIntake(cfg, s.(place := Park(s.place)), r.dmaOk);
    }
    ScheduleIntake(cfg, WithCode(s, Unconnected), r.dmaOk);
  }

  lemma MessInIntake(cfg: Config, s: Driver, r: Chip)
    ensures OnMessIn(cfg, s, r).Ok? ==> SameIntake(s.log, OnMessIn(cfg, s, r).next.log)
  {
    hide SdtrXfer;
  }

  lemma DataIntake(cfg: Config, s: Driver, dirIn: bool, r: Chip)
    ensures OnData(cfg, s, dirIn, r).Ok? ==> SameIntake(s.log, OnData(cfg, s, dirIn, r).next.log)
  {
    hide TransferBytes;
    if s.place.connected != null {
      TransferIntake(cfg, s, s.place.connected, dirIn, r);
    }
  }

  lemma TransferIntake(cfg: Config, s: Driver, c: Cmd, dirIn: bool, r: Chip)
    ensures SameIntake(s.log, TransferBytes(cfg, s, c, dirIn, r).log)
  {
    hide NextBuffer, Advance;
  }

  lemma SelXferDoneIntake(cfg: Config, s: Driver, r: Chip)
    ensures OnSelXferDone(cfg, s, r).Ok? ==> SameIntake(s.log, OnSelXferDone(cfg, s, r).next.log)
  {
    hide Schedule, Finish;
    if r.phs == 0x60 && s.place.connected != null {
      var c := s.place.connected;
      var status := if ScpOf(s, c).status == ILLEGAL_STATUS_BYTE then r.lunReg else ScpOf(s, c).status;
      ScheduleIntake(cfg, Complete(s, c, ByLevel2(StatusesOf(s, c), r.lunReg),
                                   ResultOf(c, 0, status)), r.dmaOk);
    }
  }

  lemma StepLog(cfg: Config, s: Driver, e: Event)
    requires Step(cfg, s, e).Ok?
    ensures !e.Reset? ==> Step(cfg, s, e).next.log.dropped == s.log.dropped
    ensures !e.Reset? && !e.Abort? && s.log.live == s.log.submitted ==>
      Step(cfg, s, e).next.log.live == Step(cfg, s, e).next.log.submitted
  {
    hide OnCause, Schedule, RemoveLast, RemoveAll, Finish, Withdraw, Enqueue;
    match e
    case Queue(c, stale, dmaOk) => ScheduleIntake(cfg, Accept(s, c, stale), dmaOk);
    case Interrupt(r) =>
      if !Masked(r) && (s.dmaOn ==> s.place.connected != null) {
        CauseIntake(cfg, StopDma(s, r.count), r);
      }
    case Abort(c, dmaOk) =>
      AbortDropsNothing(cfg, s, c, dmaOk);
    case Reset =>
  }

  lemma AbortDropsNothing(cfg: Config, s: Driver, c: Cmd, dmaOk: bool)
    ensures OnAbort(cfg, s, c, dmaOk).log.dropped == s.log.dropped
  {
    hide Schedule, RemoveLast, Finish, Withdraw;
    ScheduleIntake(cfg, s, dmaOk);
    if s.place.connected == c {
      var withdrawn := s.log.(live := RemoveLast(s.log.live, c));
      var s1 := s.(dmaOn := false,
                   log := if s.dmaOn then withdrawn.(dma := s.log.dma + [Stop(c)]) else withdrawn);
      ScheduleIntake(cfg, Complete(s1, c, ByAbort, Aborted), dmaOk);
    }
  }

  lemma {:induction false} RunLog(cfg: Config, s: Driver, es: seq<Event>)
    requires RunOf(cfg, s, es).Ok? && NoReset(es)
    ensures RunOf(cfg, s, es).next.log.dropped == s.log.dropped
    ensures NoAbort(es) && s.log.live == s.log.submitted ==>
      RunOf(cfg, s, es).next.log.live == RunOf(cfg, s, es).next.log.submitted
    decreases |es|
  {
    hide Step;
    if es != [] {
      assert es[0] in es && forall e :: e in es[1..] ==> e in es;
      StepLog(cfg, s, es[0]);
      RunLog(cfg, Step(cfg, s, es[0]).next, es[1..]);
    }
  }
}
