/** Synchronous transfer negotiation over whole runs: no target that must not be asked for
    synchronous transfers ever gets them, and negotiation only moves forward. */
module Negotiation {
  import opened Basics
  import opened Commands
  import opened Placement
  import opened Messages
  import opened Timing
  import opened Driver
  import opened Runs
  import opened Theorems
  import opened Invariants
  import opened Offers

  function Rank(x: SyncStat): nat {
    match x
    case SyncUnset => 0 case SyncFirst => 1 case SyncWaiting => 2 case SyncSet => 3
  }

  /** No target's negotiation moves backwards. */
  predicate Forward(s: Driver, s': Driver) {
    forall t :: 0 <= t < 8 ==> Rank(s.stat[t]) <= Rank(s'.stat[t])
  }

  /** The targets of the `nosync` setting are set to asynchronous transfer. */
  predicate Quiet(cfg: Config, s: Driver) {
    forall t :: t in cfg.noSync ==> s.xfer[t] & 0x0f == 0
  }

  /** The interrupt brings the last byte of an SDTR message that answers the driver's own. */
  predicate IsReply(s: Driver, r: Chip) {
    && CauseOf(r.sr) == MessIn && s.place.connected != null
    && s.stat[s.place.connected.id] == SyncWaiting
    && var a := Assemble(s.msgIn, r.data);
       a.Whole? && a.message.Extended? && a.next.buf[2] == EXTENDED_SDTR
  }

  /** The message that the interrupt completes. */
  function PayloadOf(s: Driver, r: Chip): seq<byte> {
    var a := Assemble(s.msgIn, r.data);
    if a.Whole? && a.message.Extended? then a.message.payload else []
  }

  /** The interrupt brings the last byte of a reply of a target that must not get synchronous transfer. */
  predicate Answers(cfg: Config, s: Driver, e: Event) {
    e.Interrupt? && !Masked(e.chip) && IsReply(s, e.chip) && s.place.connected.id in cfg.noSync
  }

  function OffersMade(s: Driver): seq<byte>
    requires s.place.connected != null
  {
    OffersTo(s.log.sent, s.place.connected.id)
  }

  /** The reply names an offset, and it is larger than what was last offered to the target. */
  predicate Greedy(cfg: Config, s: Driver, e: Event) {
    && Answers(cfg, s, e)
    && var p := PayloadOf(s, e.chip);
       |p| >= 3 && OffersMade(s) != [] && p[2] > LastOffer(s.log.sent, s.place.connected.id)
  }

  /** The reply accepts an offset above 0 that the driver did offer. */
  predicate Misled(cfg: Config, s: Driver, e: Event) {
    && Answers(cfg, s, e)
    && var p := PayloadOf(s, e.chip);
       |p| >= 3 && OffersMade(s) != [] && 0 < p[2] <= LastOffer(s.log.sent, s.place.connected.id)
  }

  /** Nothing was offered: the reply is an SDTR message of the target's own, with an offset above 0. */
  predicate Uninvited(cfg: Config, s: Driver, e: Event) {
    && Answers(cfg, s, e)
    && var p := PayloadOf(s, e.chip);
       |p| >= 3 && OffersMade(s) == [] && p[2] > 0
  }

  /** The reply is too short to name an offset, and an earlier message left one above 0 at that place in
      the buffer. */
  predicate Stale(cfg: Config, s: Driver, e: Event) {
    && Answers(cfg, s, e)
    && |PayloadOf(s, e.chip)| < 3 && Assemble(s.msgIn, e.chip.data).next.buf[4] > 0
  }

  /** A target that must not get synchronous transfer names an offset in its reply, and asks for no more
      than the last SDTR message that was sent to it, nor for any if none was: the SDTR agreement of
      section 6.6.21 of ANSI X3.131-1994. */
  predicate HonestReply(cfg: Config, s: Driver, e: Event) {
    Answers(cfg, s, e) ==>
      var p := PayloadOf(s, e.chip);
      |p| >= 3 && p[2] <= LastOffer(s.log.sent, s.place.connected.id)
  }

  /** The byte that the driver takes for the offset is the third of the payload, if there is one. */
  lemma OffsetByte(m: MsgIn, b: byte)
    requires Assemble(m, b).Whole? && Assemble(m, b).message.Extended?
    ensures var p, buf := Assemble(m, b).message.payload, Assemble(m, b).next.buf;
            |p| >= 3 ==> p[2] == buf[4]
  {
  }

  /** A target that accepts the driver's proposal as it stands gets just that: the second entry of
      the period table with offset 12, or asynchronous transfer if it must not be asked for more. */
  lemma AcceptedProposal(cfg: Config, s: Driver, c: Cmd, s': Driver, ucp: MsgBuf)
    requires Shaped(cfg.table) && s.stat[c.id] == SyncFirst && s'.stat[c.id] == SyncWaiting
    requires |Greeting(cfg, s, c)| == 6 ==> ucp[3] == Greeting(cfg, s, c)[4] && ucp[4] == Greeting(cfg, s, c)[5]
    ensures |Greeting(cfg, s, c)| == 6
    ensures var r := SdtrXfer(cfg, s', c, ucp);
            if c.id in cfg.noSync then r & 0x0f == 0
            else EntryOf(r) == 1 && r & 0x0f == 12 && r & 0x80 == if cfg.fast then STR_FSS else 0
  {
    hide SyncXfer, SyncMsg, EntryOf;
    if c.id in cfg.noSync {
      ZeroOffset(cfg.defaultSxPer);
      AsyncIffNoOffset(ucp[3], 0, false, cfg.table);
      AsyncIffNoOffset(cfg.defaultSxPer / 4, 0, false, cfg.table);
    } else {
      SdtrRoundTrip(cfg.table, 1, OPTIMUM_SX_OFF, cfg.fast);
    }
  }

  lemma ZeroOffset(period: nat)
    ensures SyncMsg(period, 0, false).1 == 0
  {
  }

  // ----- which steps touch the negotiation -----

  lemma ScheduleNegotiates(cfg: Config, s: Driver, dmaOk: bool)
    ensures Forward(s, Schedule(cfg, s, dmaOk)) && Schedule(cfg, s, dmaOk).xfer == s.xfer
  {
    hide Permit, Launch;
  }

  lemma TimeoutNegotiates(cfg: Config, s: Driver, r: Chip)
    requires OnTimeout(cfg, s, r).Ok?
    ensures Forward(s, OnTimeout(cfg, s, r).next) && OnTimeout(cfg, s, r).next.xfer == s.xfer
  {
    hide Schedule, Finish;
    var c := if s.place.state == RunningLevel2 then s.place.connected else s.place.selecting;
    ScheduleNegotiates(cfg, Complete(s, c, BySelectionTimeout, NoConnect), r.dmaOk);
  }

  lemma SelXferDoneNegotiates(cfg: Config, s: Driver, r: Chip)
    requires OnSelXferDone(cfg, s, r).Ok?
    ensures Forward(s, OnSelXferDone(cfg, s, r).next) && OnSelXferDone(cfg, s, r).next.xfer == s.xfer
  {
    hide Schedule, Finish;
    if r.phs == 0x60 {
      var c := s.place.connected;
      var status := if ScpOf(s, c).status == ILLEGAL_STATUS_BYTE then r.lunReg else ScpOf(s, c).status;
      ScheduleNegotiates(cfg, Complete(s, c, ByLevel2(StatusesOf(s, c), r.lunReg),
                                       ResultOf(c, COMMAND_COMPLETE, status)), r.dmaOk);
    }
  }

  lemma DiscNegotiates(cfg: Config, s: Driver, r: Chip)
    ensures OnUnexpDisc(cfg, s, r).Ok? ==>
      Forward(s, OnUnexpDisc(cfg, s, r).next) && OnUnexpDisc(cfg, s, r).next.xfer == s.xfer
    ensures OnDisc(cfg, s, r).Ok? ==>
      Forward(s, OnDisc(cfg, s, r).next) && OnDisc(cfg, s, r).next.xfer == s.xfer
  {
    hide Schedule, Finish, Park;
    if s.place.connected != null {
      ScheduleNegotiates(cfg, Disconnected(s, s.place.connected, true), r.dmaOk);
      ScheduleNegotiates(cfg, Disconnected(s, s.place.connected, false), r.dmaOk);
      ScheduleNegotiates(cfg, s.(place := Park(s.place)), r.dmaOk);
    }
    ScheduleNegotiates(cfg, WithCode(s, Unconnected), r.dmaOk);
  }

  lemma DataNegotiates(cfg: Config, s: Driver, dirIn: bool, r: Chip)
    requires OnData(cfg, s, dirIn, r).Ok?
    ensures Forward(s, OnData(cfg, s, dirIn, r).next) && OnData(cfg, s, dirIn, r).next.xfer == s.xfer
  {
    hide ScatterGather.NextBuffer, ScatterGather.Advance;
  }

  /** A message only changes the settings of the connected target: to asynchronous transfer
      unless it is a reply, and then to the offset of the reply. */
  lemma MessInNegotiates(cfg: Config, s: Driver, r: Chip)
    requires Shaped(cfg.table) && CauseOf(r.sr) == MessIn && OnMessIn(cfg, s, r).Ok?
    ensures Forward(s, OnMessIn(cfg, s, r).next)
    ensures var id, next := s.place.connected.id, OnMessIn(cfg, s, r).next;
            && (forall t :: 0 <= t < 8 && t != id ==> next.xfer[t] == s.xfer[t])
            && (if IsReply(s, r)
                then next.xfer[id] & 0x0f == 0 <==> Assemble(s.msgIn, r.data).next.buf[4] == 0
                else next.xfer[id] == s.xfer[id] || next.xfer[id] & 0x0f == 0)
  {
    hide Assemble, CauseOf, OnExtended, OnShort, Shaped, Forward;
    var c := s.place.connected;
    match Assemble(s.msgIn, r.data)
    case Wants(next) =>
      SameIsForward(s, OnMessIn(cfg, s, r).next);
    case Whole(next, Extended(_)) =>
      var s1 := WithScp(s, c, ScpOf(s, c).(message := EXTENDED_MESSAGE)).(msgIn := next);
      ExtendedNegotiates(cfg, s1, c, next.buf);
      ForwardFrame(s1, OnExtended(cfg, s1, c, next.buf), s, OnMessIn(cfg, s, r).next);
    case Whole(next, Short(code)) =>
      var s1 := WithScp(s, c, ScpOf(s, c).(message := code)).(msgIn := next);
      ShortNegotiates(cfg, s1, c, code);
      ForwardFrame(s1, OnShort(cfg, s1, c, code), s, OnMessIn(cfg, s, r).next);
  }

  lemma SameIsForward(s: Driver, s': Driver)
    requires s'.stat == s.stat
    ensures Forward(s, s')
  {
  }

  lemma ForwardFrame(s: Driver, s': Driver, q: Driver, q': Driver)
    requires Forward(s, s') && q.stat == s.stat && q'.stat == s'.stat
    ensures Forward(q, q')
  {
  }

  lemma ExtendedNegotiates(cfg: Config, s: Driver, c: Cmd, ucp: MsgBuf)
    requires Shaped(cfg.table)
    ensures var s' := OnExtended(cfg, s, c, ucp);
            && Forward(s, s')
            && (forall t :: 0 <= t < 8 && t != c.id ==> s'.xfer[t] == s.xfer[t])
            && (if ucp[2] == EXTENDED_SDTR && s.stat[c.id] == SyncWaiting
                then s'.xfer[c.id] & 0x0f == 0 <==> ucp[4] == 0
                else s'.xfer[c.id] == s.xfer[c.id] || s'.xfer[c.id] & 0x0f == 0)
  {
    hide SyncXfer, SyncMsg, Shaped;
    AsyncIffNoOffset(cfg.defaultSxPer / 4, 0, false, cfg.table);
    AsyncIffNoOffset(ucp[3], ucp[4], cfg.fast, cfg.table);
    AsyncIffNoOffset(ucp[3], ucp[4], false, cfg.table);
  }

  lemma ShortNegotiates(cfg: Config, s: Driver, c: Cmd, code: byte)
    requires Shaped(cfg.table)
    ensures var s' := OnShort(cfg, s, c, code);
            && Forward(s, s')
            && (forall t :: 0 <= t < 8 && t != c.id ==> s'.xfer[t] == s.xfer[t])
            && (s'.xfer[c.id] == s.xfer[c.id] || s'.xfer[c.id] & 0x0f == 0)
  {
    hide SyncXfer, Shaped;
    AsyncIffNoOffset(cfg.defaultSxPer / 4, 0, false, cfg.table);
  }

  lemma CauseNegotiates(cfg: Config, s: Driver, r: Chip)
    requires Shaped(cfg.table) && OnCause(cfg, s, r).Ok?
    ensures Forward(s, OnCause(cfg, s, r).next)
    ensures CauseOf(r.sr) != MessIn ==> OnCause(cfg, s, r).next.xfer == s.xfer
  {
    hide CauseOf, OnTimeout, OnSelXferDone, OnUnexpDisc, OnDisc, OnMessIn, OnData, Greeting, Reselect, IsReply,
      Shaped;
    match CauseOf(r.sr)
    case Timeout => TimeoutNegotiates(cfg, s, r);
    case SelXferDone => SelXferDoneNegotiates(cfg, s, r);
    case UnexpDisc => DiscNegotiates(cfg, s, r);
    case Disc => DiscNegotiates(cfg, s, r);
    case MessIn => MessInNegotiates(cfg, s, r);
    case DataIn => DataNegotiates(cfg, s, true, r);
    case DataOut => DataNegotiates(cfg, s, false, r);
    case _ =>
  }

  lemma AbortNegotiates(cfg: Config, s: Driver, c: Cmd, dmaOk: bool)
    ensures Forward(s, OnAbort(cfg, s, c, dmaOk)) && OnAbort(cfg, s, c, dmaOk).xfer == s.xfer
  {
    hide Schedule, RemoveLast, Finish, Withdraw;
    ScheduleNegotiates(cfg, s, dmaOk);
    if s.place.connected == c {
      var withdrawn := s.log.(live := RemoveLast(s.log.live, c));
      var s1 := s.(dmaOn := false,
                   log := if s.dmaOn then withdrawn.(dma := s.log.dma + [Stop(c)]) else withdrawn);
      ScheduleNegotiates(cfg, Complete(s1, c, ByAbort, Aborted), dmaOk);
    }
  }

  lemma ResetIsQuiet(cfg: Config, s: Driver)
    requires Shaped(cfg.table)
    ensures Quiet(cfg, OnReset(cfg, s)) && Quiet(cfg, Initial(cfg))
  {
    hide SyncXfer, RemoveAll;
    AsyncIffNoOffset(DEFAULT_SX_PER / 4, 0, false, cfg.table);
  }

  // ----- steps and runs -----

  /** Between resets negotiation only moves forward: unset, first, waiting, set. */
  lemma StepForward(cfg: Config, s: Driver, e: Event)
    requires Shaped(cfg.table) && Step(cfg, s, e).Ok? && !e.Reset?
    ensures Forward(s, Step(cfg, s, e).next)
  {
    hide OnCause, Schedule, OnAbort, StopDma, Shaped;
    match e
    case Queue(c, stale, dmaOk) => ScheduleNegotiates(cfg, Accept(s, c, stale), dmaOk);
    case Interrupt(r) =>
      if !Masked(r) {
        StopDmaFrame(s, r.count);
        CauseNegotiates(cfg, StopDma(s, r.count), r);
      }
    case Abort(c, dmaOk) => AbortNegotiates(cfg, s, c, dmaOk);
  }

  /** The four kinds of reply that a target must not have accepted. */
  predicate Disturbs(cfg: Config, s: Driver, e: Event) {
    Greedy(cfg, s, e) || Misled(cfg, s, e) || Uninvited(cfg, s, e) || Stale(cfg, s, e)
  }

  lemma DisturbsIffOffset(cfg: Config, s: Driver, e: Event)
    requires Answers(cfg, s, e)
    ensures Disturbs(cfg, s, e) <==> Assemble(s.msgIn, e.chip.data).next.buf[4] != 0
  {
    hide Assemble, CauseOf, Masked, OffersTo;
    OffsetByte(s.msgIn, e.chip.data);
  }

  /** From a quiet state a call leaves a quiet state exactly when it is not such a reply. */
  lemma QuietIff(cfg: Config, s: Driver, e: Event)
    requires Shaped(cfg.table) && Quiet(cfg, s) && Step(cfg, s, e).Ok?
    ensures Quiet(cfg, Step(cfg, s, e).next) <==> !Disturbs(cfg, s, e)
  {
    hide OnCause, Schedule, OnAbort, StopDma, Shaped, OnReset, IsReply;
    match e
    case Queue(c, stale, dmaOk) => ScheduleNegotiates(cfg, Accept(s, c, stale), dmaOk);
    case Interrupt(r) =>
      if !Masked(r) {
        QuietInterrupt(cfg, s, r);
      }
    case Abort(c, dmaOk) => AbortNegotiates(cfg, s, c, dmaOk);
    case Reset => ResetIsQuiet(cfg, s);
  }

  lemma QuietInterrupt(cfg: Config, s: Driver, r: Chip)
    requires Shaped(cfg.table) && Quiet(cfg, s) && OnInterrupt(cfg, s, r).Ok? && !Masked(r)
    ensures Quiet(cfg, OnInterrupt(cfg, s, r).next) <==> !Disturbs(cfg, s, Interrupt(r))
  {
    hide Assemble, OnCause, CauseOf, Masked, Disturbs, Shaped, StopDma, IsReply;
    var s1 := StopDma(s, r.count);
    StopDmaFrame(s, r.count);
    SameReply(s, s1, r);
    CauseNegotiates(cfg, s1, r);
    if CauseOf(r.sr) == MessIn {
      MessInOnCause(cfg, s1, r);
      MessInNegotiates(cfg, s1, r);
      ReplyIsMessIn(s, r);
      if Answers(cfg, s, Interrupt(r)) {
        DisturbsIffOffset(cfg, s, Interrupt(r));
      } else {
        OnlyAnswersDisturb(cfg, s, Interrupt(r));
      }
    } else {
      ReplyIsMessIn(s, r);
      OnlyAnswersDisturb(cfg, s, Interrupt(r));
    }
  }

  lemma ReplyIsMessIn(s: Driver, r: Chip)
    ensures IsReply(s, r) ==> CauseOf(r.sr) == MessIn && s.place.connected != null
  {
    hide CauseOf, Assemble;
  }

  lemma OnlyAnswersDisturb(cfg: Config, s: Driver, e: Event)
    ensures Disturbs(cfg, s, e) ==> Answers(cfg, s, e)
  {
    hide IsReply, PayloadOf, Answers, OffersTo, Assemble;
  }

  lemma MessInOnCause(cfg: Config, s: Driver, r: Chip)
    requires CauseOf(r.sr) == MessIn
    ensures OnCause(cfg, s, r) == OnMessIn(cfg, s, r)
  {
  }

  lemma SameReply(s: Driver, s': Driver, r: Chip)
    requires s'.place == s.place && s'.msgIn == s.msgIn && s'.stat == s.stat
    ensures IsReply(s, r) == IsReply(s', r)
  {
    hide CauseOf, Assemble;
  }

  /** With an honest target only the driver itself can be at fault: by having sent it an offer above 0. */
  lemma HonestQuietIff(cfg: Config, s: Driver, e: Event)
    requires Shaped(cfg.table) && Quiet(cfg, s) && Step(cfg, s, e).Ok? && HonestReply(cfg, s, e)
    ensures Quiet(cfg, Step(cfg, s, e).next) <==> !Misled(cfg, s, e)
  {
    hide Step, Shaped, Quiet, PayloadOf, Masked, OffersTo, Assemble, CauseOf;
    QuietIff(cfg, s, e);
  }

  /** An honest reply to suitable offers asks for nothing. */
  lemma HonestDoesNotDisturb(cfg: Config, s: Driver, e: Event)
    requires HonestReply(cfg, s, e) && SentSuits(cfg, s.log.sent)
    ensures !Disturbs(cfg, s, e)
  {
    hide PayloadOf, Masked, OffersTo, SentSuits, Assemble, CauseOf;
    if Answers(cfg, s, e) {
      OffersAreZero(cfg, s.log.sent, s.place.connected.id);
    }
  }

  /** Every reply of the run is honest. */
  predicate Honest(cfg: Config, s: Driver, es: seq<Event>)
    decreases |es|
  {
    es == [] ||
    (HonestReply(cfg, s, es[0]) &&
      (Step(cfg, s, es[0]).Ok? ==> Honest(cfg, Step(cfg, s, es[0]).next, es[1..])))
  }

  lemma {:induction false} QuietRun(cfg: Config, s: Driver, es: seq<Event>)
    requires Shaped(cfg.table) && Quiet(cfg, s) && Honest(cfg, s, es)
    requires Inv(s) && Obeys(cfg, s, es) && NoOfferLeft(cfg, s, es) && Suits(cfg, s) && SentSuits(cfg, s.log.sent)
    ensures RunOf(cfg, s, es).Ok? && Quiet(cfg, RunOf(cfg, s, es).next)
    decreases |es|
  {
    hide Step, Shaped, Quiet, HonestReply, Disturbs, Inv, Plausible, Admissible, Suits, SentSuits, LeavesOffer;
    if es != [] {
      StepKeeps(cfg, s, es[0]);
      OfferKeptIff(cfg, s, es[0]);
      HonestDoesNotDisturb(cfg, s, es[0]);
      QuietIff(cfg, s, es[0]);
      QuietRun(cfg, Step(cfg, s, es[0]).next, es[1..]);
    }
  }

  /** No unrequested synchronous transfer: if no call leaves an offer above 0 to a target that must not
      get it, and those targets ask for no more than the driver sent them, then each of them has
      offset 0 in every reachable state. */
  lemma NoUnrequestedSync(cfg: Config, es: seq<Event>, s: Driver, t: Target)
    requires Shaped(cfg.table) && Reachable(cfg, es, s)
    requires NoOfferLeft(cfg, Initial(cfg), es) && Honest(cfg, Initial(cfg), es)
    requires t in cfg.noSync
    ensures s.xfer[t] & 0x0f == 0
  {
    hide Shaped, RunOf, Honest, Inv, Obeys, NoOfferLeft;
    InitialInv(cfg);
    NothingSent(cfg);
    ResetIsQuiet(cfg, Initial(cfg));
    QuietRun(cfg, Initial(cfg), es);
  }

  lemma {:induction false} RunForward(cfg: Config, s: Driver, es: seq<Event>)
    requires Shaped(cfg.table) && NoReset(es) && RunOf(cfg, s, es).Ok?
    ensures Forward(s, RunOf(cfg, s, es).next)
    decreases |es|
  {
    hide Step, Shaped;
    if es != [] {
      assert es[0] in es && forall e :: e in es[1..] ==> e in es;
      StepForward(cfg, s, es[0]);
      RunForward(cfg, Step(cfg, s, es[0]).next, es[1..]);
    }
  }
}
