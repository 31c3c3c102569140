/** Whole runs of the driver: which calls keep the invariant, and what that means for every
    state a run can reach. */
module Runs {
  import opened Placement
  import opened PlacementProofs
  import opened ScatterGather
  import opened Messages
  import opened Driver
  import opened Invariants
  import opened InvariantProofs
  import opened InterruptProofs

  // ----- one step -----

  lemma CauseKeeps(cfg: Config, s: Driver, r: Chip)
    requires Inv(s) && !s.dmaOn && Expected(cfg, s, r)
    requires CauseOf(r.sr) in {DataIn, DataOut} ==> PioFits(s, s.place.connected, r)
    ensures var o := OnCause(cfg, s, r); o.Ok? && Inv(o.next)
  {
    hide Inv, OnTimeout, OnSelect, OnData, OnCommand, OnStatus, OnMessIn, OnMessOut, OnSelXferDone, OnSdp,
      OnUnexpDisc, OnDisc, OnResel, CauseOf, PioFits, Reselectable, Acceptable;
    match CauseOf(r.sr)
    case Timeout => TimeoutKeeps(cfg, s, r);
    case Select => SelectKeeps(cfg, s);
    case DataIn => DataKeeps(cfg, s, true, r);
    case DataOut => DataKeeps(cfg, s, false, r);
    case Command => CommandKeeps(s);
    case Status => StatusKeeps(cfg, s, r);
    case MessIn => MessInKeeps(cfg, s, r);
    case MessOut => MessOutKeeps(s, r);
    case SelXferDone => SelXferDoneKeeps(cfg, s, r);
    case Sdp => SdpKeeps(s);
    case UnexpDisc => UnexpDiscKeeps(cfg, s, r);
    case Disc => DiscKeeps(cfg, s, r);
    case Resel => ReselKeeps(cfg, s, r);
    case Unknown =>
  }

  lemma MessOutKeeps(s: Driver, r: Chip)
    requires Inv(s) && s.place.connected != null
    ensures OnMessOut(s, r).Ok? && Inv(OnMessOut(s, r).next)
  {
    hide Inv;
    PlainKeeps(s, OnMessOut(s, r).next.(place := s.place), Connected);
  }

  lemma SdpKeeps(s: Driver)
    requires Inv(s) && s.place.connected != null
    ensures OnSdp(s).Ok? && Inv(OnSdp(s).next)
  {
    hide Inv;
    PlainKeeps(s, s, RunningLevel2);
  }

  lemma StopDmaFrame(s: Driver, count: nat)
    requires s.dmaOn ==> s.place.connected != null
    ensures StopDma(s, count).place == s.place && StopDma(s, count).msgIn == s.msgIn
    ensures StopDma(s, count).stat == s.stat && StopDma(s, count).xfer == s.xfer
  {
  }

  lemma DmaNeedsConnected(s: Driver)
    requires Inv(s)
    ensures s.dmaOn ==> s.place.connected != null
  {
  }

  lemma InterruptKeeps(cfg: Config, s: Driver, r: Chip)
    requires Inv(s) && Plausible(s, Interrupt(r)) && Admissible(cfg, s, Interrupt(r))
    ensures var o := OnInterrupt(cfg, s, r); o.Ok? && Inv(o.next)
  {
    hide Inv, OnCause, StopDma, CauseOf, NextBuffer;
    if !Masked(r) {
      DmaNeedsConnected(s);
      StopDmaKeeps(s, r.count);
      StopDmaFrame(s, r.count);
      CauseKeeps(cfg, StopDma(s, r.count), r);
    }
  }

  /** An admissible call returns and keeps the invariant. */
  lemma StepKeeps(cfg: Config, s: Driver, e: Event)
    requires Inv(s) && Plausible(s, e) && Admissible(cfg, s, e)
    ensures Step(cfg, s, e).Ok? && Inv(Step(cfg, s, e).next)
  {
    hide Inv, QueueCommand, OnInterrupt, OnAbort, OnReset, Held;
    match e
    case Queue(c, stale, dmaOk) => QueueKeeps(cfg, s, c, stale, dmaOk);
    case Interrupt(r) => InterruptKeeps(cfg, s, r);
    case Abort(c, dmaOk) => AbortKeeps(cfg, s, c, dmaOk);
    case Reset => ResetKeeps(cfg, s);
  }

  /** An unexpected interrupt is never answered properly: the handler dereferences a null
      pointer, loops for ever, or leaves an inconsistent state behind. */
  lemma CauseBreaks(cfg: Config, s: Driver, r: Chip)
    requires Settled(s.place) && InMessage(s.msgIn) && !Expected(cfg, s, r)
    ensures var o := OnCause(cfg, s, r);
            o.Ok? ==> !Core(o.next.place) || !InMessage(o.next.msgIn)
  {
    hide CauseOf, Owned, WorkConserving, Reselectable, Reselect, Assemble, InMessage, Acceptable, TransferBytes,
      OnExtended, Complete, Disconnected, Execute;
    match CauseOf(r.sr)
    case MessIn => MessInBreaks(cfg, s, r);
    case Disc => DiscBreaks(cfg, s, r);
    case Resel =>
      if !Reselectable(s.place, cfg.level2 <= L2_NONE, r.unit) {
        ReselectBreaks(s.place, cfg.level2 <= L2_NONE, r.unit, ResumeCode(cfg));
      }
    case _ =>
  }

  lemma MessInBreaks(cfg: Config, s: Driver, r: Chip)
    requires InMessage(s.msgIn) && !(s.place.connected != null && Acceptable(s.msgIn, r.data))
    ensures OnMessIn(cfg, s, r).Ok? ==> !InMessage(OnMessIn(cfg, s, r).next.msgIn)
  {
    hide InMessage, Acceptable, Assemble, SdtrXfer;
    AssembleKeeps(s.msgIn, r.data);
  }

  lemma DiscBreaks(cfg: Config, s: Driver, r: Chip)
    requires Core(s.place)
    requires !(if s.place.connected == null then s.place.selecting == null
               else s.place.state in {PreCmpDisc, PreTmpDisc, RunningLevel2})
    ensures OnDisc(cfg, s, r).Ok? && !Core(OnDisc(cfg, s, r).next.place)
  {
    hide Owned, Start, Disconnected, Park;
    assert OnDisc(cfg, s, r).next == WithCode(s, Unconnected);
  }

  /** The environment assumptions are exact: from a consistent state, a plausible call returns
      and leaves a consistent state if and only if it is admissible. */
  lemma AdmissibleIffKept(cfg: Config, s: Driver, e: Event)
    requires Inv(s) && Plausible(s, e)
    ensures Step(cfg, s, e).Ok? && Inv(Step(cfg, s, e).next) <==> Admissible(cfg, s, e)
  {
    if Admissible(cfg, s, e) {
      StepKeeps(cfg, s, e);
    } else {
      hide Owned, CodeAgrees, WorkConserving, Books, Expected, OnCause, StopDma, CmdsOk, Tracked;
      var r := e.chip;
      StopDmaFrame(s, r.count);
      SameExpectation(cfg, s, StopDma(s, r.count), r);
      CauseBreaks(cfg, StopDma(s, r.count), r);
    }
  }

  lemma SameExpectation(cfg: Config, s: Driver, s': Driver, r: Chip)
    requires s'.place == s.place && s'.msgIn == s.msgIn
    ensures Expected(cfg, s, r) == Expected(cfg, s', r)
  {
    hide CauseOf, Reselectable, Acceptable;
  }

  // ----- runs -----

  function RunOf(cfg: Config, s: Driver, es: seq<Event>): Outcome
    decreases |es|
  {
    if es == [] then Ok(s) else
    match Step(cfg, s, es[0])
    case Ok(next) => RunOf(cfg, next, es[1..])
    case Fault => Fault
    case Stuck => Stuck
  }

  /** Every call of the run is plausible and admissible in the state it meets. */
  predicate Obeys(cfg: Config, s: Driver, es: seq<Event>)
    decreases |es|
  {
    es == [] ||
    (Plausible(s, es[0]) && Admissible(cfg, s, es[0]) &&
      (Step(cfg, s, es[0]).Ok? ==> Obeys(cfg, Step(cfg, s, es[0]).next, es[1..])))
  }

  lemma InitialInv(cfg: Config)
    ensures Inv(Initial(cfg))
  {
    EmptyIsSettled();
    forall u
      ensures InOrder(EMPTY, Initial(cfg).log, u)
    {
      NothingPending(u);
    }
  }

  lemma {:induction false} RunKeeps(cfg: Config, s: Driver, es: seq<Event>)
    requires Inv(s) && Obeys(cfg, s, es)
    ensures RunOf(cfg, s, es).Ok? && Inv(RunOf(cfg, s, es).next)
    decreases |es|
  {
    hide Inv, Plausible, Admissible, Step;
    if es != [] {
      StepKeeps(cfg, s, es[0]);
      RunKeeps(cfg, Step(cfg, s, es[0]).next, es[1..]);
    }
  }

  /** A state that a run of the driver can reach. */
  ghost predicate Reachable(cfg: Config, es: seq<Event>, s: Driver) {
    Obeys(cfg, Initial(cfg), es) && RunOf(cfg, Initial(cfg), es) == Ok(s)
  }

  lemma ReachableInv(cfg: Config, es: seq<Event>, s: Driver)
    requires Reachable(cfg, es, s)
    ensures Inv(s)
  {
    hide Inv, Obeys;
    InitialInv(cfg);
    RunKeeps(cfg, Initial(cfg), es);
  }
}
