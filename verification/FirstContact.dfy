/** The first contact with a target is to carry an SDTR message. `SS_FIRST` promises one while the
    target is being selected; this is when the promise lasts until selection succeeds, and what happens
    when it does not. What becomes of the message after selection is the subject of `Proposals`. */
module FirstContact {
  import opened Basics
  import opened Commands
  import opened Placement
  import opened ScatterGather
  import opened Messages
  import opened Timing
  import opened Driver
  import opened Invariants
  import opened InvariantProofs
  import opened InterruptProofs
  import opened Runs
  import opened HostProofs
  import opened Endings
  import opened Theorems
  import opened Negotiation
  import opened Encounters

  /** A target whose first contact is pending is the one being selected. */
  predicate InContact(s: Driver) {
    forall t :: 0 <= t < 8 && s.stat[t] == SyncFirst ==> s.place.selecting != null && s.place.selecting.id == t
  }

  predicate NoneFirst(s: Driver) {
    forall t :: 0 <= t < 8 ==> s.stat[t] != SyncFirst
  }

  /** The calls that take the bus away from a first contact for good: a selection timeout, unless the
      next command is for the same target and every command is selected, and, in the mode without
      level-2 commands, a lost arbitration. */
  predicate LosesContact(cfg: Config, s: Driver, e: Event) {
    && e.Interrupt? && !Masked(e.chip)
    && s.place.selecting != null && s.stat[s.place.selecting.id] == SyncFirst
    && match CauseOf(e.chip.sr)
       case Timeout =>
         var n := NextUp(Finish(s.place, s.place.selecting));
         cfg.level2 != L2_NONE || n == null || n.id != s.place.selecting.id
       case Resel => cfg.level2 <= L2_NONE
       case _ => false
  }

  // ----- the scheduler -----

  lemma ScheduleContact(cfg: Config, s: Driver, dmaOk: bool)
    requires InContact(s)
    ensures InContact(Schedule(cfg, s, dmaOk))
  {
    hide Schedule, NextUp;
    ScheduleSelects(cfg, s, dmaOk);
  }

  /** A target that was left behind is selected again only by a command of its own, and only if
      every command is selected. */
  lemma ScheduleAfterLoss(cfg: Config, s: Driver, dmaOk: bool, t: Target)
    requires s.place.selecting == null && s.place.connected == null && s.stat[t] == SyncFirst
    requires forall u :: 0 <= u < 8 && u != t ==> s.stat[u] != SyncFirst
    ensures InContact(Schedule(cfg, s, dmaOk)) <==>
      cfg.level2 == L2_NONE && NextUp(s.place) != null && NextUp(s.place).id == t
  {
    hide Schedule, NextUp;
    ScheduleSelects(cfg, s, dmaOk);
    var s' := Schedule(cfg, s, dmaOk);
    assert s'.stat[t] == SyncFirst;
  }

  // ----- interrupts -----

  lemma EndingContact(cfg: Config, s: Driver, r: Chip)
    requires Inv(s) && !s.dmaOn && Expected(cfg, s, r) && Schedules(s, r) && InContact(s) && !Masked(r)
    ensures OnCause(cfg, s, r).Ok?
    ensures InContact(OnCause(cfg, s, r).next) <==> !LosesContact(cfg, s, Interrupt(r))
  {
    hide Inv, OnCause, Schedule, Before, CauseOf, Masked, Expected, NextUp, Finish;
    BeforeKeeps(cfg, s, r);
    BeforeFrame(cfg, s, r);
    var s1 := Before(s, r);
    if s.place.selecting != null && s.stat[s.place.selecting.id] == SyncFirst {
      ScheduleAfterLoss(cfg, s1, r.dmaOk, s.place.selecting.id);
    } else {
      ScheduleContact(cfg, s1, r.dmaOk);
    }
  }

  lemma MessInContact(cfg: Config, s: Driver, r: Chip)
    requires NoneFirst(s) && OnMessIn(cfg, s, r).Ok?
    ensures NoneFirst(OnMessIn(cfg, s, r).next)
  {
    hide Assemble, SdtrXfer;
  }

  lemma ReselContact(cfg: Config, s: Driver, r: Chip)
    requires Inv(s) && InContact(s) && OnResel(cfg, s, r).Ok? && Reselectable(s.place, cfg.level2 <= L2_NONE, r.unit)
    ensures InContact(OnResel(cfg, s, r).next) <==>
      !(s.place.selecting != null && s.stat[s.place.selecting.id] == SyncFirst && cfg.level2 <= L2_NONE)
  {
    hide Books, Craft, Tracked, WorkConserving, OnePerUnit, NoRepeats;
  }

  lemma OtherContact(cfg: Config, s: Driver, r: Chip)
    requires Inv(s) && !s.dmaOn && Expected(cfg, s, r) && !Schedules(s, r) && InContact(s) && !Masked(r)
    requires OnCause(cfg, s, r).Ok?
    ensures InContact(OnCause(cfg, s, r).next) <==> !LosesContact(cfg, s, Interrupt(r))
  {
    hide Books, Craft, Tracked, WorkConserving, OnePerUnit, NoRepeats, CauseOf, OnMessIn, OnResel, Masked, NextUp,
      TransferBytes, Greeting, Acceptable, Reselectable, CodeAgrees;
    match CauseOf(r.sr)
    case MessIn => MessInContact(cfg, s, r);
    case Resel => ReselContact(cfg, s, r);
    case DataIn => DataContact(cfg, s, true, r);
    case DataOut => DataContact(cfg, s, false, r);
    case _ =>
  }

  lemma DataContact(cfg: Config, s: Driver, dirIn: bool, r: Chip)
    requires OnData(cfg, s, dirIn, r).Ok? && InContact(s)
    ensures InContact(OnData(cfg, s, dirIn, r).next)
  {
    hide OnData;
    DataFrame(cfg, s, dirIn, r);
  }

  lemma InterruptContact(cfg: Config, s: Driver, r: Chip)
    requires Inv(s) && Plausible(s, Interrupt(r)) && Admissible(cfg, s, Interrupt(r)) && InContact(s) && !Masked(r)
    ensures OnInterrupt(cfg, s, r).Ok?
    ensures InContact(OnInterrupt(cfg, s, r).next) <==> !LosesContact(cfg, s, Interrupt(r))
  {
    hide Inv, OnCause, Schedules, NextBuffer, CauseOf, NextUp, Masked, StopDma, Reselectable, Acceptable;
    DmaNeedsConnected(s);
    var s1 := StopDma(s, r.count);
    StopDmaKeeps(s, r.count);
    StopDmaFrame(s, r.count);
    SameExpectation(cfg, s, s1, r);
    CauseKeeps(cfg, s1, r);
    if Schedules(s1, r) {
      EndingContact(cfg, s1, r);
    } else {
      OtherContact(cfg, s1, r);
    }
  }

  // ----- steps -----

  lemma AbortContact(cfg: Config, s: Driver, c: Cmd, dmaOk: bool)
    requires Inv(s) && InContact(s)
    ensures InContact(OnAbort(cfg, s, c, dmaOk))
  {
    hide Books, Craft, Tracked, WorkConserving, OnePerUnit, NoRepeats, Units, CodeAgrees, Schedule, RemoveLast,
      Complete, Release, Withdrawal;
    ScheduleContact(cfg, s, dmaOk);
    if c in s.place.inputQ {
      WaitingAbort(cfg, s, IndexOf(s.place.inputQ, c), dmaOk);
      WithdrawalContact(s, IndexOf(s.place.inputQ, c));
    } else if c == s.place.connected {
      SeveredContact(s, c);
      ScheduleContact(cfg, Severed(s, c), dmaOk);
      assert OnAbort(cfg, s, c, dmaOk) == Schedule(cfg, Severed(s, c), dmaOk);
    }
  }

  lemma WithdrawalContact(s: Driver, k: nat)
    requires InContact(s) && k < |s.place.inputQ|
    ensures InContact(Withdrawal(s, k))
  {
    hide RemoveLast, RemoveAt;
  }

  lemma SeveredContact(s: Driver, c: Cmd)
    requires InContact(s) && c == s.place.connected
    ensures InContact(Severed(s, c))
  {
    hide RemoveLast;
  }

  /** A pending first contact stays the one being selected over a call if and only if the call is
      not one of the two that lose it. */
  lemma ContactKeptIff(cfg: Config, s: Driver, e: Event)
    requires Inv(s) && InContact(s) && Plausible(s, e) && Admissible(cfg, s, e)
    ensures Step(cfg, s, e).Ok?
    ensures InContact(Step(cfg, s, e).next) <==> !LosesContact(cfg, s, e)
  {
    hide Inv, OnInterrupt, OnAbort, Schedule, OnReset, CauseOf, Held, NextUp, Expected, NextBuffer;
    match e
    case Queue(c, stale, dmaOk) => ScheduleContact(cfg, Accept(s, c, stale), dmaOk);
    case Interrupt(r) =>
      if !Masked(r) {
        InterruptContact(cfg, s, r);
      } else {
        MaskedNothing(cfg, s, r);
      }
    case Abort(c, dmaOk) => AbortContact(cfg, s, c, dmaOk);
    case Reset => ResetContact(cfg, s);
  }

  lemma ResetContact(cfg: Config, s: Driver)
    ensures NoneFirst(OnReset(cfg, s))
  {
    hide RemoveAll, Active;
  }

  // ----- a target whose first contact was lost -----

  /** Negotiation with `t` is not under way, and nothing is being selected that would start it. */
  predicate Forgotten(s: Driver, t: Target) {
    s.stat[t] in {SyncFirst, SyncSet} && (s.place.selecting == null || s.place.selecting.id != t)
  }

  predicate Asynchronous(s: Driver, t: Target) {
    s.xfer[t] & 0x0f == 0
  }

  lemma ScheduleForgets(cfg: Config, s: Driver, dmaOk: bool, t: Target)
    requires cfg.level2 != L2_NONE && Forgotten(s, t)
    ensures Forgotten(Schedule(cfg, s, dmaOk), t)
  {
    hide Schedule, NextUp;
    ScheduleSelects(cfg, s, dmaOk);
  }

  lemma EndingForgets(cfg: Config, s: Driver, r: Chip, t: Target)
    requires Inv(s) && !s.dmaOn && Expected(cfg, s, r) && Schedules(s, r)
    requires cfg.level2 != L2_NONE && Forgotten(s, t)
    ensures OnCause(cfg, s, r).Ok? && Forgotten(OnCause(cfg, s, r).next, t)
  {
    hide Inv, OnCause, Schedule, Before, CauseOf, Expected;
    BeforeKeeps(cfg, s, r);
    BeforeFrame(cfg, s, r);
    ScheduleForgets(cfg, Before(s, r), r.dmaOk, t);
  }

  lemma MessInForgets(cfg: Config, s: Driver, r: Chip, t: Target)
    requires Forgotten(s, t) && OnMessIn(cfg, s, r).Ok?
    ensures Forgotten(OnMessIn(cfg, s, r).next, t)
  {
    hide Assemble, SdtrXfer, SyncMsg;
  }

  lemma DataForgets(cfg: Config, s: Driver, dirIn: bool, r: Chip, t: Target)
    requires Forgotten(s, t) && OnData(cfg, s, dirIn, r).Ok?
    ensures Forgotten(OnData(cfg, s, dirIn, r).next, t)
  {
    hide OnData;
    DataFrame(cfg, s, dirIn, r);
  }

  lemma OtherForgets(cfg: Config, s: Driver, r: Chip, t: Target)
    requires !Schedules(s, r) && Forgotten(s, t) && OnCause(cfg, s, r).Ok?
    ensures Forgotten(OnCause(cfg, s, r).next, t)
  {
    hide CauseOf, OnMessIn, OnData, Greeting;
    match CauseOf(r.sr)
    case MessIn => MessInForgets(cfg, s, r, t);
    case DataIn => DataForgets(cfg, s, true, r, t);
    case DataOut => DataForgets(cfg, s, false, r, t);
    case _ =>
  }

  lemma InterruptForgets(cfg: Config, s: Driver, r: Chip, t: Target)
    requires Inv(s) && Plausible(s, Interrupt(r)) && Admissible(cfg, s, Interrupt(r)) && !Masked(r)
    requires Shaped(cfg.table) && cfg.level2 != L2_NONE && Forgotten(s, t)
    ensures var o := OnInterrupt(cfg, s, r);
            o.Ok? && Forgotten(o.next, t) && (Asynchronous(s, t) ==> Asynchronous(o.next, t))
  {
    hide Inv, OnCause, Schedules, NextBuffer, CauseOf, Masked, StopDma, Reselectable, Acceptable, Shaped;
    DmaNeedsConnected(s);
    var s1 := StopDma(s, r.count);
    StopDmaKeeps(s, r.count);
    StopDmaFrame(s, r.count);
    SameExpectation(cfg, s, s1, r);
    CauseKeeps(cfg, s1, r);
    if Schedules(s1, r) {
      EndingForgets(cfg, s1, r, t);
    } else {
      OtherForgets(cfg, s1, r, t);
    }
    CauseNegotiates(cfg, s1, r);
    if CauseOf(r.sr) == MessIn && Asynchronous(s, t) {
      AnswerStaysAsynchronous(cfg, s1, r, t);
    }
  }

  lemma AnswerStaysAsynchronous(cfg: Config, s: Driver, r: Chip, t: Target)
    requires Shaped(cfg.table) && CauseOf(r.sr) == MessIn && OnCause(cfg, s, r).Ok?
    requires Forgotten(s, t) && Asynchronous(s, t)
    ensures Asynchronous(OnCause(cfg, s, r).next, t)
  {
    hide CauseOf, Shaped, OnMessIn, Assemble;
    MessInNegotiates(cfg, s, r);
  }

  lemma AbortForgets(cfg: Config, s: Driver, c: Cmd, dmaOk: bool, t: Target)
    requires cfg.level2 != L2_NONE && Forgotten(s, t)
    ensures Forgotten(OnAbort(cfg, s, c, dmaOk), t)
  {
    hide Schedule, RemoveLast, RemoveAt, IndexOf, CauseOf;
    ScheduleForgets(cfg, s, dmaOk, t);
    if c == s.place.connected {
      ScheduleForgets(cfg, Severed(s, c), dmaOk, t);
      assert IndexOf(s.place.inputQ, c) == |s.place.inputQ| ==>
        OnAbort(cfg, s, c, dmaOk) == Schedule(cfg, Severed(s, c), dmaOk);
    }
  }

  lemma StepForgets(cfg: Config, s: Driver, e: Event, t: Target)
    requires Inv(s) && Plausible(s, e) && Admissible(cfg, s, e) && !e.Reset?
    requires Shaped(cfg.table) && cfg.level2 != L2_NONE && Forgotten(s, t)
    ensures var o := Step(cfg, s, e);
            o.Ok? && Forgotten(o.next, t) && (Asynchronous(s, t) ==> Asynchronous(o.next, t))
  {
    hide Inv, OnInterrupt, OnAbort, Schedule, CauseOf, Held, Expected, NextBuffer, Shaped, Forgotten;
    match e
    case Queue(c, stale, dmaOk) =>
      AcceptForgets(s, c, stale, t);
      ScheduleForgets(cfg, Accept(s, c, stale), dmaOk, t);
      ScheduleNegotiates(cfg, Accept(s, c, stale), dmaOk);
    case Interrupt(r) =>
      if Masked(r) {
        MaskedNothing(cfg, s, r);
      } else {
        InterruptForgets(cfg, s, r, t);
      }
    case Abort(c, dmaOk) =>
      AbortForgets(cfg, s, c, dmaOk, t);
      AbortNegotiates(cfg, s, c, dmaOk);
  }

  lemma AcceptForgets(s: Driver, c: Cmd, stale: Scp, t: Target)
    ensures Forgotten(s, t) ==> Forgotten(Accept(s, c, stale), t)
  {
  }

  /** With level-2 commands, a target whose first contact was lost is never asked for synchronous
      transfer again until a reset, and stays asynchronous, whatever it sends. */
  lemma {:induction false} ForgottenForGood(cfg: Config, s: Driver, es: seq<Event>, t: Target)
    requires Inv(s) && Obeys(cfg, s, es) && NoReset(es)
    requires Shaped(cfg.table) && cfg.level2 != L2_NONE && Forgotten(s, t) && Asynchronous(s, t)
    ensures var o := RunOf(cfg, s, es); o.Ok? && Forgotten(o.next, t) && Asynchronous(o.next, t)
    decreases |es|
  {
    hide Inv, Step, Plausible, Admissible, Shaped, Forgotten, Asynchronous;
    if es != [] {
      assert es[0] in es && forall e :: e in es[1..] ==> e in es;
      StepForgets(cfg, s, es[0], t);
      StepKeeps(cfg, s, es[0]);
      ForgottenForGood(cfg, Step(cfg, s, es[0]).next, es[1..], t);
    }
  }

  /** The driver does get there: one selection timeout on the first contact is enough. */
  lemma TimeoutForgets(cfg: Config, a: Cmd) returns (es: seq<Event>, s: Driver)
    requires Shaped(cfg.table) && cfg.level2 != L2_NONE
    ensures Reachable(cfg, es, s) && s.stat[a.id] == SyncFirst
    ensures Forgotten(s, a.id) && Asynchronous(s, a.id) && !InContact(s)
  {
    hide Reachable, Held, SyncXfer, Shaped;
    StartsAtRest(cfg);
    NothingHeld(a);
    es, s := FirstSelection(cfg, [], Initial(cfg), a);
    es, s := FailedSelection(cfg, es, s);
    AsyncIffNoOffset(DEFAULT_SX_PER / 4, 0, false, cfg.table);
  }

  /** Nobody answers the selection. */
  lemma FailedSelection(cfg: Config, es: seq<Event>, s: Driver) returns (es': seq<Event>, s': Driver)
    requires Reachable(cfg, es, s) && !s.dmaOn && s.place.selecting != null && s.place.connected == null
    requires s.place.inputQ == [] && s.place.state == Selecting
    ensures Reachable(cfg, es', s') && s'.place == Finish(s.place, s.place.selecting)
    ensures s'.stat == s.stat && s'.xfer == s.xfer
  {
    hide Reachable;
    IrqIsSeen(0x42, 0);
    es', s' := Extend(cfg, es, s, Interrupt(Irq(0x42, 0)));
  }
}
