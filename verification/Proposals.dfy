/** `SS_WAITING` is set when the driver's SDTR message is prepared, not when it is sent. This is when
    it does get sent, and which calls lose it. */
module Proposals {
  import opened Basics
  import opened Commands
  import opened Placement
  import opened ScatterGather
  import opened Messages
  import opened Timing
  import opened Driver
  import opened Invariants
  import opened InvariantProofs
  import opened InterruptProofs
  import opened Runs
  import opened HostProofs
  import opened Endings
  import opened Connections

  /** IDENTIFY followed by SDTR, as it is prepared after a first selection. */
  predicate IsProposal(bytes: seq<byte>) {
    |bytes| == 6 && bytes[1..4] == [EXTENDED_MESSAGE, 3, EXTENDED_SDTR]
  }

  /** The driver's SDTR has been sent to `t`, since the last reset. */
  predicate Proposed(log: Log, t: Target) {
    exists k :: 0 <= k < |log.sent| && SentTo(log.sent[k], t)
  }

  predicate SentTo(m: Sent, t: Target) {
    m.to != null && m.to.id == t && IsProposal(m.bytes)
  }

  /** `t` is connected, and the SDTR is the next message to be sent. */
  predicate AtHand(s: Driver, t: Target) {
    s.place.connected != null && s.place.connected.id == t && IsProposal(s.outgoing)
  }

  /** Whoever is waited for has been asked, or is going to be. */
  predicate Carried(s: Driver) {
    forall t :: 0 <= t < 8 && s.stat[t] == SyncWaiting ==> Proposed(s.log, t) || AtHand(s, t)
  }

  /** The connected target is waited for, but has not been asked. */
  predicate Unasked(s: Driver) {
    && s.place.connected != null && s.stat[s.place.connected.id] == SyncWaiting
    && !Proposed(s.log, s.place.connected.id)
  }

  /** The idle bus goes at once to another command of target `t`, by Select-With-ATN-Xfer, which
      leaves the prepared message alone. */
  predicate TakesOver(cfg: Config, p: Place, t: Target) {
    NextUp(p) != null && NextUp(p).id == t && cfg.level2 != L2_NONE
  }

  /** The message byte makes the driver prepare another message. */
  predicate Overwrites(s: Driver, b: byte) {
    var a := Assemble(s.msgIn, b);
    a.Whole? &&
    match a.message
    case Extended(_) => a.next.buf[2] != EXTENDED_SDTR
    case Short(code) =>
      code !in {COMMAND_COMPLETE, SAVE_POINTERS, RESTORE_POINTERS, DISCONNECT, MESSAGE_REJECT}
  }

  /** The calls that lose an SDTR which is prepared but not sent: its connection ends or is displaced
      and the bus does not stay with the target, or another message takes its place. */
  predicate LosesProposal(cfg: Config, s: Driver, e: Event) {
    Unasked(s) &&
    var c := s.place.connected;
    match e
    case Interrupt(r) =>
      && !Masked(r)
      && (if Schedules(s, r) then !TakesOver(cfg, AfterEnding(s, r), c.id)
          else match CauseOf(r.sr)
               case MessIn => Overwrites(s, r.data)
               case MessOut => r.pioLeft > 0
               case Resel => cfg.level2 > L2_NONE && r.unit.0 != c.id
               case _ => false)
    case Abort(d, _) => d == c && !TakesOver(cfg, Finish(s.place, c), c.id)
    case _ => false
  }

  // ----- endings -----

  lemma CarriedFrame(s: Driver, s': Driver)
    requires Carried(s) && s'.stat == s.stat && s'.log.sent == s.log.sent
    requires s'.place.connected == s.place.connected && s'.outgoing == s.outgoing
    ensures Carried(s')
  {
    forall t | 0 <= t < 8 && s'.stat[t] == SyncWaiting
      ensures Proposed(s'.log, t) || AtHand(s', t)
    {
      assert Proposed(s.log, t) ==> Proposed(s'.log, t);
    }
  }

  /** The scheduler can only help: it may bring the same target back. */
  lemma ScheduleCarries(cfg: Config, s: Driver, dmaOk: bool)
    requires s.place.selecting == null && s.place.connected == null
    requires forall t :: 0 <= t < 8 && s.stat[t] == SyncWaiting ==> Proposed(s.log, t)
    ensures Carried(Schedule(cfg, s, dmaOk))
  {
    hide Schedule, NextUp, IsProposal;
    ScheduleSelects(cfg, s, dmaOk);
    var s' := Schedule(cfg, s, dmaOk);
    forall t | 0 <= t < 8 && s'.stat[t] == SyncWaiting
      ensures Proposed(s'.log, t)
    {
      assert Proposed(s.log, t) ==> Proposed(s'.log, t);
    }
  }

  lemma ScheduleAfterEnding(cfg: Config, s: Driver, dmaOk: bool, u: Target)
    requires s.place.selecting == null && s.place.connected == null && IsProposal(s.outgoing)
    requires s.stat[u] == SyncWaiting && !Proposed(s.log, u)
    requires forall t :: 0 <= t < 8 && t != u && s.stat[t] == SyncWaiting ==> Proposed(s.log, t)
    ensures Carried(Schedule(cfg, s, dmaOk)) <==> TakesOver(cfg, s.place, u)
  {
    hide Schedule, NextUp, IsProposal;
    ScheduleSelects(cfg, s, dmaOk);
    var s' := Schedule(cfg, s, dmaOk);
    SameProposed(s.log, s'.log);
    assert s'.stat[u] == SyncWaiting;
  }

  lemma SameProposed(log: Log, log': Log)
    requires log'.sent == log.sent
    ensures forall t :: 0 <= t < 8 ==> Proposed(log', t) == Proposed(log, t)
  {
  }

  /** Only the connected target can be waited for without having been asked. */
  lemma OthersAsked(s: Driver)
    requires Carried(s)
    ensures Unasked(s) ==> IsProposal(s.outgoing)
    ensures forall t :: 0 <= t < 8 && s.stat[t] == SyncWaiting && !(Unasked(s) && t == s.place.connected.id) ==>
              Proposed(s.log, t)
  {
    hide IsProposal, Proposed;
  }

  lemma EndingCarries(cfg: Config, s: Driver, r: Chip)
    requires Inv(s) && !s.dmaOn && Expected(cfg, s, r) && Schedules(s, r) && Carried(s) && !Masked(r)
    ensures OnCause(cfg, s, r).Ok?
    ensures Carried(OnCause(cfg, s, r).next) <==> !LosesProposal(cfg, s, Interrupt(r))
  {
    hide Inv, OnCause, Schedule, Before, CauseOf, Masked, Expected, NextUp, Finish, Carried, Proposed, IsProposal,
      AfterEnding;
    BeforeKeeps(cfg, s, r);
    BeforeFrame(cfg, s, r);
    OthersAsked(s);
    var s1 := Before(s, r);
    SameProposed(s.log, s1.log);
    if Unasked(s) {
      ScheduleAfterEnding(cfg, s1, r.dmaOk, s.place.connected.id);
    } else {
      ScheduleCarries(cfg, s1, r.dmaOk);
    }
  }

  // ----- other interrupts -----

  lemma SelectCarries(cfg: Config, s: Driver)
    requires Carried(s) && s.place.connected == null && s.place.selecting != null
    ensures Carried(OnSelect(cfg, s).next)
  {
    hide SyncMsg;
    OthersAsked(s);
    var s', c := OnSelect(cfg, s).next, s.place.selecting;
    SameProposed(s.log, s'.log);
    assert s.stat[c.id] == SyncFirst ==> IsProposal(Greeting(cfg, s, c));
  }

  lemma MessOutCarries(s: Driver, r: Chip)
    requires Carried(s) && s.place.connected != null
    ensures Carried(OnMessOut(s, r).next) <==> !(Unasked(s) && r.pioLeft > 0)
  {
    hide IsProposal;
    var s', c, m := OnMessOut(s, r).next, s.place.connected, TakenOf(MessageOf(s), r.pioLeft);
    OthersAsked(s);
    EmptyIsNone();
    forall t | 0 <= t < 8
      ensures Proposed(s'.log, t) <==> Proposed(s.log, t) || (t == c.id && IsProposal(m))
    {
      SentOneMore(s.log, s'.log, Sent(c, m), t);
    }
    if Unasked(s) {
      ProposalIsWhole(s.outgoing, r.pioLeft);
    }
  }

  lemma SentOneMore(log: Log, log': Log, x: Sent, t: Target)
    requires log'.sent == log.sent + [x]
    ensures Proposed(log', t) <==> Proposed(log, t) || SentTo(x, t)
  {
    hide SentTo;
    assert log'.sent[|log.sent|] == x;
    if Proposed(log, t) {
      var k :| 0 <= k < |log.sent| && SentTo(log.sent[k], t);
      assert SentTo(log'.sent[k], t);
    }
    if Proposed(log', t) {
      var k :| 0 <= k < |log'.sent| && SentTo(log'.sent[k], t);
      assert k < |log.sent| ==> SentTo(log.sent[k], t);
    }
  }

  /** A message that is cut short is not the SDTR any more. */
  lemma ProposalIsWhole(bytes: seq<byte>, left: nat)
    requires IsProposal(bytes)
    ensures IsProposal(TakenOf(bytes, left)) <==> left == 0
  {
    assert left == 0 ==> TakenOf(bytes, left) == bytes;
  }

  lemma EmptyIsNone()
    ensures !IsProposal([])
  {
  }

  lemma MessInCarries(cfg: Config, s: Driver, r: Chip)
    requires Carried(s) && OnMessIn(cfg, s, r).Ok?
    ensures Carried(OnMessIn(cfg, s, r).next) <==> !(Unasked(s) && Overwrites(s, r.data))
  {
    hide OnMessIn, SdtrXfer, SyncMsg, Proposed, Overwrites;
    OthersAsked(s);
    var s', c := OnMessIn(cfg, s, r).next, s.place.connected;
    MessInChanges(cfg, s, r);
    SameProposed(s.log, s'.log);
    if Unasked(s) {
      assert AtHand(s', c.id) <==> IsProposal(s'.outgoing);
    }
  }

  /** What a message byte does to the prepared message. */
  lemma MessInChanges(cfg: Config, s: Driver, r: Chip)
    requires OnMessIn(cfg, s, r).Ok?
    ensures var s', c := OnMessIn(cfg, s, r).next, s.place.connected;
            && s'.place.connected == c && s'.log.sent == s.log.sent
            && (forall t :: 0 <= t < 8 && t != c.id ==> s'.stat[t] == s.stat[t])
            && s'.stat[c.id] in {s.stat[c.id], SyncSet}
            && (s.stat[c.id] == SyncWaiting && s'.stat[c.id] == SyncWaiting ==>
                  (Overwrites(s, r.data) ==> |s'.outgoing| != 6)
                  && (!Overwrites(s, r.data) ==> s'.outgoing == s.outgoing))
            && (Overwrites(s, r.data) ==> s'.stat == s.stat)
  {
    hide Assemble, OnExtended, OnShort;
    var c := s.place.connected;
    match Assemble(s.msgIn, r.data)
    case Wants(_) =>
    case Whole(next, Extended(_)) =>
      ExtendedChanges(cfg, WithScp(s, c, ScpOf(s, c).(message := EXTENDED_MESSAGE)).(msgIn := next), c, next.buf);
    case Whole(next, Short(code)) =>
      ShortChanges(cfg, WithScp(s, c, ScpOf(s, c).(message := code)).(msgIn := next), c, code);
  }

  /** Only the negotiation with `t` may have been concluded. */
  predicate Concluded(stat: Stats, stat': Stats, t: Target) {
    (forall u :: 0 <= u < 8 && u != t ==> stat'[u] == stat[u]) && stat'[t] in {stat[t], SyncSet}
  }

  lemma ExtendedChanges(cfg: Config, s: Driver, c: Cmd, ucp: MsgBuf)
    ensures var s' := OnExtended(cfg, s, c, ucp);
            && s'.place == s.place && s'.log == s.log && Concluded(s.stat, s'.stat, c.id)
            && (if ucp[2] == EXTENDED_SDTR then s'.stat[c.id] == SyncSet
                else s'.stat == s.stat && |s'.outgoing| != 6)
  {
    hide SdtrXfer, SyncMsg;
  }

  lemma ShortChanges(cfg: Config, s: Driver, c: Cmd, code: byte)
    ensures var s' := OnShort(cfg, s, c, code);
            && s'.place == s.place.(state := s'.place.state) && s'.log == s.log && Concluded(s.stat, s'.stat, c.id)
            && (if code in {COMMAND_COMPLETE, SAVE_POINTERS, RESTORE_POINTERS, DISCONNECT, MESSAGE_REJECT}
                then s'.outgoing == s.outgoing
                else s'.stat == s.stat && |s'.outgoing| != 6)
  {
    hide SyncXfer;
  }

  lemma ReselCarries(cfg: Config, s: Driver, r: Chip)
    requires Inv(s) && Carried(s) && OnResel(cfg, s, r).Ok? && Reselectable(s.place, cfg.level2 <= L2_NONE, r.unit)
    ensures Carried(OnResel(cfg, s, r).next) <==>
      !(Unasked(s) && cfg.level2 > L2_NONE && r.unit.0 != s.place.connected.id)
  {
    hide Books, Craft, Tracked, WorkConserving, OnePerUnit, NoRepeats, IsProposal, Proposed;
    OthersAsked(s);
    SameProposed(s.log, OnResel(cfg, s, r).next.log);
  }

  lemma DataCarries(cfg: Config, s: Driver, dirIn: bool, r: Chip)
    requires OnData(cfg, s, dirIn, r).Ok? && Carried(s)
    ensures Carried(OnData(cfg, s, dirIn, r).next)
  {
    hide OnData;
    DataFrame(cfg, s, dirIn, r);
    CarriedFrame(s, OnData(cfg, s, dirIn, r).next);
  }

  lemma OtherCarries(cfg: Config, s: Driver, r: Chip)
    requires Inv(s) && !s.dmaOn && Expected(cfg, s, r) && !Schedules(s, r) && Carried(s) && !Masked(r)
    requires OnCause(cfg, s, r).Ok?
    ensures Carried(OnCause(cfg, s, r).next) <==> !LosesProposal(cfg, s, Interrupt(r))
  {
    hide Inv, CauseOf, OnMessIn, OnResel, OnData, OnSelect, OnMessOut, Masked, Acceptable, Reselectable, Carried,
      Unasked, Overwrites, AfterEnding, TakesOver;
    SlotsExclude(s);
    match CauseOf(r.sr)
    case MessIn => MessInCarries(cfg, s, r);
    case Resel => ReselCarries(cfg, s, r);
    case DataIn => DataCarries(cfg, s, true, r);
    case DataOut => DataCarries(cfg, s, false, r);
    case Select => SelectCarries(cfg, s);
    case MessOut => MessOutCarries(s, r);
    case Command => PlainCarries(cfg, s, r);
    case Status => PlainCarries(cfg, s, r);
    case SelXferDone => PlainCarries(cfg, s, r);
    case Sdp => PlainCarries(cfg, s, r);
    case UnexpDisc => PlainCarries(cfg, s, r);
    case Unknown =>
    case _ =>
  }

  lemma SlotsExclude(s: Driver)
    requires Inv(s)
    ensures s.place.selecting == null || s.place.connected == null
    ensures s.place.selecting != null ==> !Unasked(s)
  {
  }

  lemma PlainCarries(cfg: Config, s: Driver, r: Chip)
    requires CauseOf(r.sr) in {Command, Status, SelXferDone, Sdp, UnexpDisc} && !Schedules(s, r)
    requires OnCause(cfg, s, r).Ok? && Carried(s)
    ensures Carried(OnCause(cfg, s, r).next)
  {
    hide OnCause, CauseOf, Carried;
    PlainFrame(cfg, s, r);
    CarriedFrame(s, OnCause(cfg, s, r).next);
  }

  lemma InterruptCarries(cfg: Config, s: Driver, r: Chip)
    requires Inv(s) && Plausible(s, Interrupt(r)) && Admissible(cfg, s, Interrupt(r)) && Carried(s) && !Masked(r)
    ensures OnInterrupt(cfg, s, r).Ok?
    ensures Carried(OnInterrupt(cfg, s, r).next) <==> !LosesProposal(cfg, s, Interrupt(r))
  {
    hide Inv, OnCause, Schedules, NextBuffer, CauseOf, NextUp, Masked, StopDma, Reselectable, Acceptable, Carried;
    DmaNeedsConnected(s);
    var s1 := StopDma(s, r.count);
    StopDmaKeeps(s, r.count);
    StopFrame(s, r.count);
    SameExpectation(cfg, s, s1, r);
    CauseKeeps(cfg, s1, r);
    CarriedFrame(s, s1);
    SameProposed(s.log, s1.log);
    SameLoss(cfg, s, s1, r);
    if Schedules(s1, r) {
      EndingCarries(cfg, s1, r);
    } else {
      OtherCarries(cfg, s1, r);
    }
  }

  lemma SameLoss(cfg: Config, s: Driver, s1: Driver, r: Chip)
    requires s1.place == s.place && s1.stat == s.stat && s1.msgIn == s.msgIn && s1.log.sent == s.log.sent
    ensures LosesProposal(cfg, s1, Interrupt(r)) == LosesProposal(cfg, s, Interrupt(r))
  {
    hide CauseOf, TakesOver, Assemble, Finish, Park, Proposed;
    SameProposed(s.log, s1.log);
  }

  // ----- steps and runs -----

  lemma QueueCarries(cfg: Config, s: Driver, c: Cmd, stale: Scp, dmaOk: bool)
    requires Carried(s)
    ensures Carried(QueueCommand(cfg, s, c, stale, dmaOk))
  {
    hide Schedule, Carried, Proposed, IsProposal, Begin;
    var s1 := Accept(s, c, stale);
    CarriedFrame(s, s1);
    if s1.place.selecting == null && s1.place.connected == null {
      OthersAsked(s1);
      ScheduleCarries(cfg, s1, dmaOk);
    } else {
      ScheduleSelects(cfg, s1, dmaOk);
    }
  }

  lemma AbortCarries(cfg: Config, s: Driver, c: Cmd, dmaOk: bool)
    requires Inv(s) && Carried(s)
    ensures Carried(OnAbort(cfg, s, c, dmaOk)) <==> !LosesProposal(cfg, s, Abort(c, dmaOk))
  {
    hide Inv, Schedule, RemoveLast, Complete, Release, Withdrawal, Carried, Proposed, IsProposal, NextUp, Finish;
    SlotsHeld(s);
    OthersAsked(s);
    if c in s.place.inputQ {
      WaitingAbort(cfg, s, IndexOf(s.place.inputQ, c), dmaOk);
      WithdrawalFrame(s, IndexOf(s.place.inputQ, c));
      CarriedFrame(s, Withdrawal(s, IndexOf(s.place.inputQ, c)));
    } else if c == s.place.connected {
      SeveredFrame(s, c);
      var s1 := Severed(s, c);
      SameProposed(s.log, s1.log);
      assert OnAbort(cfg, s, c, dmaOk) == Schedule(cfg, s1, dmaOk);
      if Unasked(s) {
        ScheduleAfterEnding(cfg, s1, dmaOk, c.id);
      } else {
        ScheduleCarries(cfg, s1, dmaOk);
      }
    } else if s.place.selecting == null && s.place.connected == null {
      ScheduleCarries(cfg, s, dmaOk);
    } else {
      ScheduleSelects(cfg, s, dmaOk);
    }
  }

  /** A call leaves every target that is waited for asked, or about to be, if and only if it is not
      one that loses a prepared SDTR. */
  lemma ProposalKeptIff(cfg: Config, s: Driver, e: Event)
    requires Inv(s) && Carried(s) && Plausible(s, e) && Admissible(cfg, s, e)
    ensures Step(cfg, s, e).Ok?
    ensures Carried(Step(cfg, s, e).next) <==> !LosesProposal(cfg, s, e)
  {
    hide Inv, OnInterrupt, OnAbort, QueueCommand, OnReset, CauseOf, Held, Expected, NextBuffer, Carried, Unasked;
    match e
    case Queue(c, stale, dmaOk) => QueueCarries(cfg, s, c, stale, dmaOk);
    case Interrupt(r) =>
      if Masked(r) {
        MaskedNothing(cfg, s, r);
      } else {
        InterruptCarries(cfg, s, r);
      }
    case Abort(c, dmaOk) => AbortCarries(cfg, s, c, dmaOk);
    case Reset => ResetCarries(cfg, s);
  }

  lemma ResetCarries(cfg: Config, s: Driver)
    ensures Carried(OnReset(cfg, s))
  {
    hide RemoveAll, Active;
  }

  /** No call of the run loses a prepared SDTR. */
  predicate NoneLost(cfg: Config, s: Driver, es: seq<Event>)
    decreases |es|
  {
    es == [] ||
    (!LosesProposal(cfg, s, es[0]) &&
      (Step(cfg, s, es[0]).Ok? ==> NoneLost(cfg, Step(cfg, s, es[0]).next, es[1..])))
  }

  lemma {:induction false} CarriedRun(cfg: Config, s: Driver, es: seq<Event>)
    requires Inv(s) && Obeys(cfg, s, es) && NoneLost(cfg, s, es) && Carried(s)
    ensures RunOf(cfg, s, es).Ok? && Carried(RunOf(cfg, s, es).next)
    decreases |es|
  {
    hide Inv, Step, Plausible, Admissible, LosesProposal, Carried;
    if es != [] {
      StepKeeps(cfg, s, es[0]);
      ProposalKeptIff(cfg, s, es[0]);
      CarriedRun(cfg, Step(cfg, s, es[0]).next, es[1..]);
    }
  }

  /** While none is lost, whoever is waited for when the bus is free has been asked. */
  lemma WaitedForIsAsked(cfg: Config, es: seq<Event>, s: Driver, t: Target)
    requires Reachable(cfg, es, s) && NoneLost(cfg, Initial(cfg), es)
    requires s.stat[t] == SyncWaiting && !AtHand(s, t)
    ensures Proposed(s.log, t)
  {
    hide Inv, Obeys, NoneLost, RunOf, AtHand, Proposed;
    InitialInv(cfg);
    NothingWaitedFor(cfg);
    CarriedRun(cfg, Initial(cfg), es);
  }

  lemma NothingWaitedFor(cfg: Config)
    ensures Carried(Initial(cfg))
  {
  }
}
