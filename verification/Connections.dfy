/** Which calls end or displace a connection, who is connected next, and what that one finds. */
module Connections {
  import opened Basics
  import opened Timing
  import opened Commands
  import opened Placement
  import opened ScatterGather
  import opened Messages
  import opened Driver
  import opened Invariants
  import opened InvariantProofs
  import opened InterruptProofs
  import opened Runs
  import opened HostProofs
  import opened Endings

  /** The call ends the connection, or displaces it. */
  predicate Severs(cfg: Config, s: Driver, e: Event) {
    s.place.connected != null &&
    match e
    case Queue(_, _, _) => false
    case Interrupt(r) => !Masked(r) && (Schedules(s, r) || (CauseOf(r.sr) == Resel && cfg.level2 > L2_NONE))
    case Abort(d, _) => d == s.place.connected
    case Reset => true
  }

  /** The idle bus connects its next command at once. */
  predicate Connects(cfg: Config, s: Driver, p: Place) {
    NextUp(p) != null && cfg.level2 != L2_NONE && s.stat[NextUp(p).id] != SyncUnset
  }

  /** The command, if any, that is connected by a call that severs a connection. */
  function Successor(cfg: Config, s: Driver, e: Event): Cmd?
    requires s.place.connected != null
  {
    match e
    case Interrupt(r) =>
      if Schedules(s, r) then Direct(cfg, s, AfterEnding(s, r))
      else
        var k := Find(s.place.disconnectedQ, r.unit);
        if k < |s.place.disconnectedQ| then s.place.disconnectedQ[k] else null
    case Abort(_, _) => Direct(cfg, s, Finish(s.place, s.place.connected))
    case _ => null
  }

  function Direct(cfg: Config, s: Driver, p: Place): Cmd? {
    if Connects(cfg, s, p) then NextUp(p) else null
  }

  /** Selection has succeeded. */
  predicate Selects(e: Event) {
    e.Interrupt? && !Masked(e.chip) && CauseOf(e.chip.sr) == Select
  }

  /** Nothing that one connection could leave to another changes. */
  predicate SameMessages(s: Driver, s': Driver) {
    s'.msgIn == s.msgIn && s'.outgoing == s.outgoing && s'.log.sent == s.log.sent
  }

  /** The driver's own answers: MESSAGE REJECT, WDTR for 8 bits, and SDTR for offset 0. */
  predicate IsAnswer(bytes: seq<byte>) {
    || bytes == [MESSAGE_REJECT]
    || bytes == [EXTENDED_MESSAGE, 2, EXTENDED_WDTR, 0]
    || (|bytes| == 5 && bytes[0] == EXTENDED_MESSAGE && bytes[1] == 3 && bytes[2] == EXTENDED_SDTR && bytes[4] == 0)
  }

  /** What a call may do to the messages of a connection that lasts. */
  predicate Talks(s: Driver, e: Event, s': Driver) {
    && s'.place.connected == s.place.connected
    && (s'.outgoing == s.outgoing || s'.outgoing == [] || IsAnswer(s'.outgoing))
    && (s'.log.sent == s.log.sent ||
        (e.Interrupt? &&
         s'.log.sent == s.log.sent + [Sent(s.place.connected, TakenOf(MessageOf(s), e.chip.pioLeft))]))
  }

  /** Selection prepares the messages of the new connection. */
  predicate Greets(cfg: Config, s: Driver, s': Driver) {
    && s.place.selecting != null && s'.place.connected == s.place.selecting
    && s'.msgIn == s.msgIn && s'.log.sent == s.log.sent && s'.outgoing == Greeting(cfg, s, s.place.selecting)
  }

  /** What becomes of a connection and its messages in one call. */
  predicate Follows(cfg: Config, s: Driver, e: Event, s': Driver) {
    if s.place.connected == null then
      (if Selects(e) then Greets(cfg, s, s') else SameMessages(s, s'))
    else if Severs(cfg, s, e) then
      SameMessages(s, s') && s'.place.connected == Successor(cfg, s, e) != s.place.connected
    else Talks(s, e, s')
  }

  // ----- frames -----

  lemma StopFrame(s: Driver, count: nat)
    requires s.dmaOn ==> s.place.connected != null
    ensures var s1 := StopDma(s, count);
            s1.place == s.place && s1.stat == s.stat && s1.outgoing == s.outgoing && s1.msgIn == s.msgIn
            && s1.log.sent == s.log.sent
  {
  }

  lemma SeveredFrame(s: Driver, c: Cmd)
    requires Inv(s) && c == s.place.connected
    ensures var s1 := Severed(s, c);
            && s1.place == Finish(s.place, c) && s1.place.selecting == null && s1.place.connected == null
            && s1.stat == s.stat && s1.outgoing == s.outgoing && s1.msgIn == s.msgIn && s1.log.sent == s.log.sent
  {
    hide RemoveLast, Books, Craft, Tracked, WorkConserving, OnePerUnit, NoRepeats, Units;
  }

  lemma WithdrawalFrame(s: Driver, k: nat)
    requires k < |s.place.inputQ|
    ensures var s1 := Withdrawal(s, k);
            && s1.place.connected == s.place.connected && s1.place.selecting == s.place.selecting
            && s1.stat == s.stat && s1.outgoing == s.outgoing && s1.msgIn == s.msgIn && s1.log.sent == s.log.sent
  {
    hide RemoveLast, RemoveAt;
  }

  lemma PlainFrame(cfg: Config, s: Driver, r: Chip)
    requires CauseOf(r.sr) in {Command, Status, SelXferDone, Sdp, UnexpDisc} && !Schedules(s, r)
    requires OnCause(cfg, s, r).Ok?
    ensures var s' := OnCause(cfg, s, r).next;
            && s'.stat == s.stat && s'.log.sent == s.log.sent && s'.outgoing == s.outgoing && s'.msgIn == s.msgIn
            && s'.place.connected == s.place.connected && s'.place.selecting == s.place.selecting
  {
    hide CauseOf;
  }

  lemma MessInTalks(cfg: Config, s: Driver, r: Chip)
    requires OnMessIn(cfg, s, r).Ok?
    ensures s.place.connected != null && Talks(s, Interrupt(r), OnMessIn(cfg, s, r).next)
  {
    hide Assemble, OnExtended, OnShort, IsAnswer;
    var c := s.place.connected;
    match Assemble(s.msgIn, r.data)
    case Wants(_) =>
    case Whole(next, Extended(_)) =>
      ExtendedTalks(cfg, WithScp(s, c, ScpOf(s, c).(message := EXTENDED_MESSAGE)).(msgIn := next), c, next.buf);
    case Whole(next, Short(code)) =>
      ShortTalks(cfg, WithScp(s, c, ScpOf(s, c).(message := code)).(msgIn := next), c, code);
  }

  lemma ExtendedTalks(cfg: Config, s: Driver, c: Cmd, ucp: MsgBuf)
    ensures var s' := OnExtended(cfg, s, c, ucp);
            && s'.place == s.place && s'.log == s.log && (s'.outgoing == s.outgoing || IsAnswer(s'.outgoing))
  {
    hide SdtrXfer;
  }

  lemma ShortTalks(cfg: Config, s: Driver, c: Cmd, code: byte)
    ensures var s' := OnShort(cfg, s, c, code);
            && s'.place.connected == s.place.connected && s'.log == s.log
            && (s'.outgoing == s.outgoing || IsAnswer(s'.outgoing))
  {
    hide SyncXfer;
  }

  lemma SlotsExclude(s: Driver)
    requires Inv(s)
    ensures s.place.selecting == null || s.place.connected == null
  {
  }

  // ----- the successor is another command -----

  lemma NextUpWaits(p: Place)
    ensures NextUp(p) != null ==> NextUp(p) in p.inputQ
  {
  }

  lemma WaitsElsewhere(s: Driver, c: Cmd)
    requires Inv(s) && c in s.place.inputQ
    ensures c != s.place.connected
  {
    hide Books, Craft, Tracked, WorkConserving, OnePerUnit, CodeAgrees;
    assert c in Stock(s.place) && multiset(s.place.inputQ)[c] >= 1;
    assert multiset(s.place.inputQ)[c] + SlotBag(s.place.connected)[c] <= Stock(s.place)[c] == 1;
  }

  lemma DirectIsAnother(cfg: Config, s: Driver, p: Place)
    requires Inv(s) && p.inputQ == s.place.inputQ && s.place.connected != null
    ensures Direct(cfg, s, p) != s.place.connected
  {
    hide Inv, NextUp;
    NextUpWaits(p);
    if NextUp(p) != null {
      WaitsElsewhere(s, NextUp(p));
    }
  }

  lemma ReselectedIsAnother(s: Driver, k: nat)
    requires Inv(s) && s.place.connected != null && k < |s.place.disconnectedQ|
    ensures s.place.disconnectedQ[k] != s.place.connected
  {
    hide Books, Craft, Tracked, WorkConserving, OnePerUnit, CodeAgrees;
    var c := s.place.disconnectedQ[k];
    assert c in Stock(s.place) && multiset(s.place.disconnectedQ)[c] >= 1;
    assert multiset(s.place.disconnectedQ)[c] + SlotBag(s.place.connected)[c] <= Stock(s.place)[c] == 1;
  }

  // ----- calls -----

  lemma ScheduleConnects(cfg: Config, s: Driver, dmaOk: bool)
    ensures SameMessages(s, Schedule(cfg, s, dmaOk))
    ensures Schedule(cfg, s, dmaOk).place.connected ==
      if s.place.selecting == null && s.place.connected == null then Direct(cfg, s, s.place) else s.place.connected
  {
    hide Schedule, NextUp;
    ScheduleSelects(cfg, s, dmaOk);
  }

  lemma SameDirect(cfg: Config, s: Driver, s': Driver, p: Place)
    requires s'.stat == s.stat
    ensures Direct(cfg, s', p) == Direct(cfg, s, p)
  {
  }

  lemma EndingFollows(cfg: Config, s: Driver, r: Chip)
    requires Inv(s) && !s.dmaOn && Expected(cfg, s, r) && Schedules(s, r) && !Masked(r)
    ensures OnCause(cfg, s, r).Ok? && Follows(cfg, s, Interrupt(r), OnCause(cfg, s, r).next)
  {
    hide Inv, OnCause, Schedule, Before, CauseOf, Masked, Expected, Direct, Finish, Park;
    BeforeKeeps(cfg, s, r);
    BeforeFrame(cfg, s, r);
    NotSelect(s, r);
    var s1 := Before(s, r);
    ScheduleConnects(cfg, s1, r.dmaOk);
    if s.place.connected != null {
      SameDirect(cfg, s, s1, s1.place);
      EndingKeepsQueue(s, r);
      DirectIsAnother(cfg, s, s1.place);
    }
  }

  lemma NotSelect(s: Driver, r: Chip)
    requires Schedules(s, r)
    ensures CauseOf(r.sr) !in {Select, Resel}
  {
    hide CauseOf;
  }

  lemma EndingKeepsQueue(s: Driver, r: Chip)
    requires s.place.connected != null
    ensures AfterEnding(s, r).inputQ == s.place.inputQ
  {
    hide CauseOf;
  }

  lemma ReselFollows(cfg: Config, s: Driver, r: Chip)
    requires Inv(s) && !s.dmaOn && Expected(cfg, s, r) && CauseOf(r.sr) == Resel && !Masked(r)
    requires OnResel(cfg, s, r).Ok?
    ensures Follows(cfg, s, Interrupt(r), OnResel(cfg, s, r).next)
  {
    hide Inv, CauseOf, Masked, Acceptable;
    SlotsExclude(s);
    var k := Find(s.place.disconnectedQ, r.unit);
    if s.place.connected != null && k < |s.place.disconnectedQ| {
      ReselectedIsAnother(s, k);
    }
  }

  lemma OtherFollows(cfg: Config, s: Driver, r: Chip)
    requires Inv(s) && !s.dmaOn && Expected(cfg, s, r) && !Schedules(s, r) && !Masked(r)
    requires OnCause(cfg, s, r).Ok?
    ensures Follows(cfg, s, Interrupt(r), OnCause(cfg, s, r).next)
  {
    hide Inv, CauseOf, OnMessIn, OnResel, OnData, Acceptable, Reselectable, Greeting, Masked, Successor, IsAnswer,
      MessageOf, TakenOf;
    SlotsExclude(s);
    match CauseOf(r.sr)
    case MessIn => MessInTalks(cfg, s, r);
    case Resel => ReselFollows(cfg, s, r);
    case DataIn => DataFrame(cfg, s, true, r);
    case DataOut => DataFrame(cfg, s, false, r);
    case Command => PlainFrame(cfg, s, r);
    case Status => PlainFrame(cfg, s, r);
    case SelXferDone => PlainFrame(cfg, s, r);
    case Sdp => PlainFrame(cfg, s, r);
    case UnexpDisc => PlainFrame(cfg, s, r);
    case _ =>
  }

  lemma SameFollows(cfg: Config, s: Driver, s1: Driver, r: Chip, s': Driver)
    requires s1.place == s.place && s1.stat == s.stat && SameMessages(s, s1)
    requires s.place.connected == null ==> s1 == s
    requires Follows(cfg, s1, Interrupt(r), s')
    ensures Follows(cfg, s, Interrupt(r), s')
  {
    hide CauseOf, NextUp, Finish, Park, IsAnswer, TakenOf;
  }

  lemma IdleStop(s: Driver, count: nat)
    requires !s.dmaOn || s.place.connected != null
    ensures s.place.connected == null ==> StopDma(s, count) == s
  {
  }

  lemma InterruptFollows(cfg: Config, s: Driver, r: Chip)
    requires Inv(s) && Plausible(s, Interrupt(r)) && Admissible(cfg, s, Interrupt(r)) && !Masked(r)
    ensures OnInterrupt(cfg, s, r).Ok? && Follows(cfg, s, Interrupt(r), OnInterrupt(cfg, s, r).next)
  {
    hide Inv, OnCause, Schedules, NextBuffer, CauseOf, Masked, StopDma, Reselectable, Acceptable, Follows;
    DmaNeedsConnected(s);
    var s1 := StopDma(s, r.count);
    StopDmaKeeps(s, r.count);
    StopFrame(s, r.count);
    SameExpectation(cfg, s, s1, r);
    CauseKeeps(cfg, s1, r);
    if Schedules(s1, r) {
      EndingFollows(cfg, s1, r);
    } else {
      OtherFollows(cfg, s1, r);
    }
    IdleStop(s, r.count);
    SameFollows(cfg, s, s1, r, OnCause(cfg, s1, r).next);
  }

  lemma AbortSevers(cfg: Config, s: Driver, c: Cmd, dmaOk: bool)
    requires c !in s.place.inputQ && c == s.place.connected
    ensures OnAbort(cfg, s, c, dmaOk) == Schedule(cfg, Severed(s, c), dmaOk)
  {
    hide Schedule;
  }

  lemma AbortFollows(cfg: Config, s: Driver, c: Cmd, dmaOk: bool)
    requires Inv(s)
    ensures Follows(cfg, s, Abort(c, dmaOk), OnAbort(cfg, s, c, dmaOk))
  {
    hide Inv, Schedule, RemoveLast, Complete, Release, Withdrawal, Direct;
    SlotsHeld(s);
    if c in s.place.inputQ {
      WaitsElsewhere(s, c);
      WaitingAbort(cfg, s, IndexOf(s.place.inputQ, c), dmaOk);
      WithdrawalFrame(s, IndexOf(s.place.inputQ, c));
    } else if c == s.place.connected {
      SeveredFrame(s, c);
      ScheduleConnects(cfg, Severed(s, c), dmaOk);
      SameDirect(cfg, s, Severed(s, c), Finish(s.place, c));
      DirectIsAnother(cfg, s, Finish(s.place, c));
      AbortSevers(cfg, s, c, dmaOk);
    } else {
      ScheduleConnects(cfg, s, dmaOk);
    }
  }

  /** A call that severs a connection, and no other, changes who is connected while somebody is. What
      has been collected of a message and what has been prepared is left as it is, for the successor. */
  lemma StepFollows(cfg: Config, s: Driver, e: Event)
    requires Inv(s) && Plausible(s, e) && Admissible(cfg, s, e) && !e.Reset?
    ensures Step(cfg, s, e).Ok? && Follows(cfg, s, e, Step(cfg, s, e).next)
  {
    hide Inv, OnInterrupt, OnAbort, Schedule, CauseOf, Held, Expected, NextBuffer, NextUp, Follows;
    match e
    case Queue(c, stale, dmaOk) => QueueFollows(cfg, s, c, stale, dmaOk);
    case Interrupt(r) =>
      if Masked(r) {
        MaskedFollows(cfg, s, r);
      } else {
        InterruptFollows(cfg, s, r);
      }
    case Abort(c, dmaOk) => AbortFollows(cfg, s, c, dmaOk);
  }

  lemma QueueFollows(cfg: Config, s: Driver, c: Cmd, stale: Scp, dmaOk: bool)
    ensures Follows(cfg, s, Queue(c, stale, dmaOk), QueueCommand(cfg, s, c, stale, dmaOk))
  {
    hide Schedule, Begin;
    ScheduleConnects(cfg, Accept(s, c, stale), dmaOk);
  }

  lemma MaskedFollows(cfg: Config, s: Driver, r: Chip)
    requires Masked(r)
    ensures OnInterrupt(cfg, s, r) == Ok(s) && Follows(cfg, s, Interrupt(r), s)
  {
    hide CauseOf, OnCause, StopDma, Schedules, Successor;
    assert !Severs(cfg, s, Interrupt(r)) && !Selects(Interrupt(r));
  }
}
