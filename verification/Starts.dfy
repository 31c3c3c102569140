/** Which command a call starts, and what starting does to the commands that go on waiting. Every call
    is a change that starts nothing, followed by the scheduler. */
module Starts {
  import opened Basics
  import opened Commands
  import opened Placement
  import opened PlacementProofs
  import opened ScatterGather
  import opened Messages
  import opened Timing
  import opened Driver
  import opened Invariants
  import opened InvariantProofs
  import opened InterruptProofs
  import opened Runs
  import opened HostProofs
  import opened Endings
  import opened Connections

  // ----- a call without its scheduling -----

  /** What `dma_setup` answers, if the scheduler calls it. */
  function DmaOkOf(e: Event): bool {
    match e
    case Queue(_, _, dmaOk) => dmaOk
    case Interrupt(r) => r.dmaOk
    case Abort(_, dmaOk) => dmaOk
    case Reset => false
  }

  /** The commands on the way are some of those before, with the permission they had. */
  predicate Fewer(s: Driver, p: Driver) {
    forall c :: c in Active(p.place) ==> c in Active(s.place) && ScpOf(p, c).phase == ScpOf(s, c).phase
  }

  /** How the input queue changes before the scheduler looks at it. */
  predicate Lines(q: seq<Cmd>, active: seq<Cmd>, e: Event, q': seq<Cmd>) {
    match e
    case Queue(c, _, _) => q' == if c.opcode == 0x03 then [c] + q else q + [c]
    case Interrupt(_) => q' == q || (|q'| == |q| + 1 && q'[0] in active && q'[1..] == q)
    case Abort(c, _) => q' == q || exists k :: 0 <= k < |q| && q[k] == c && q' == RemoveAt(q, k)
    case Reset => q' == []
  }

  ghost predicate Eased(s: Driver, e: Event, p: Driver) {
    && Base(p) && Fewer(s, p) && Lines(s.place.inputQ, Active(s.place), e, p.place.inputQ)
  }

  /** Negotiation is as before, and nobody waits who was on the way. */
  predicate Fresh(s: Driver, p: Driver) {
    p.stat == s.stat && forall c :: c in p.place.inputQ ==> c !in Active(s.place)
  }

  lemma FreshQueue(s: Driver, p: Driver)
    requires Inv(s) && p.stat == s.stat && forall c :: c in p.place.inputQ ==> c in s.place.inputQ
    ensures Fresh(s, p)
  {
    hide Inv, Active;
    forall c | c in p.place.inputQ
      ensures c !in Active(s.place)
    {
      if c in Active(s.place) {
        ActiveNotWaiting(s, c);
      }
    }
  }

  /** The call is `p` and then the scheduler. */
  ghost predicate Splits(cfg: Config, s: Driver, e: Event, p: Driver) {
    && Step(cfg, s, e) == Ok(Schedule(cfg, p, DmaOkOf(e)))
    && Eased(s, e, p) && (Fresh(s, p) || Inv(p))
  }

  /** Only the state code and what is noted about the commands changes. */
  predicate Stays(s: Driver, s': Driver) {
    && s'.place == s.place.(state := s'.place.state)
    && forall c :: c in s.scp.Keys + s'.scp.Keys ==> ScpOf(s', c).phase == ScpOf(s, c).phase
  }

  lemma StaysIsFewer(s: Driver, s': Driver)
    requires Stays(s, s')
    ensures Fewer(s, s') && s'.place.inputQ == s.place.inputQ && Active(s'.place) == Active(s.place)
  {
  }

  lemma FewerAgain(s: Driver, s1: Driver, s2: Driver)
    requires Fewer(s, s1) && Fewer(s1, s2)
    ensures Fewer(s, s2)
  {
    hide Active;
  }

  /** In a consistent state the scheduler finds nothing to do. */
  lemma NothingToStart(cfg: Config, s: Driver, dmaOk: bool)
    requires Inv(s)
    ensures Schedule(cfg, s, dmaOk) == s
  {
    hide Books, Craft, Tracked, NoRepeats, OnePerUnit, CodeAgrees;
    var p, k := s.place, FirstRunnable(s.place.inputQ, s.place.busy);
    if p.selecting == null && p.connected == null {
      forall c | c in p.inputQ
        ensures UnitOf(c) in p.busy
      {
        assert p.disconnectedQ[Find(p.disconnectedQ, UnitOf(c))] in Active(p);
      }
    }
  }

  // ----- interrupts -----

  lemma StopStays(s: Driver, count: nat)
    requires s.dmaOn ==> s.place.connected != null
    ensures Stays(s, StopDma(s, count))
  {
  }

  lemma DataStays(cfg: Config, s: Driver, dirIn: bool, r: Chip)
    requires OnData(cfg, s, dirIn, r).Ok?
    ensures Stays(s, OnData(cfg, s, dirIn, r).next)
  {
    hide TransferBytes;
    if s.place.connected != null {
      TransferStays(cfg, s, s.place.connected, dirIn, r);
    }
  }

  lemma TransferStays(cfg: Config, s: Driver, c: Cmd, dirIn: bool, r: Chip)
    ensures Stays(s, TransferBytes(cfg, s, c, dirIn, r))
  {
    hide NextBuffer, PioMoved, Stays;
    var x := NextBuffer(c.sg, ScpOf(s, c));
    var s1 := WithScp(s, c, x);
    NextKeepsPhase(c.sg, ScpOf(s, c));
    NotedStays(s, c, x);
    PioStays(s1, c, dirIn, r.pioLeft);
    StaysAgain(s, s1, PioMoved(s1, c, dirIn, r.pioLeft));
    DmaStays(s, s1, StartDma(s1, c, dirIn));
    DmaStays(s, s1, WithCode(StartDma(s1, c, dirIn), RunningLevel2));
  }

  lemma NotedStays(s: Driver, c: Cmd, x: Scp)
    requires x.phase == ScpOf(s, c).phase
    ensures Stays(s, WithScp(s, c, x))
  {
  }

  lemma PioStays(s: Driver, c: Cmd, dirIn: bool, left: nat)
    ensures Stays(s, PioMoved(s, c, dirIn, left))
  {
    AdvanceKeepsPhase(ScpOf(s, c), left);
    hide Advance;
  }

  lemma DmaStays(s: Driver, s1: Driver, s2: Driver)
    requires Stays(s, s1) && s2.place == s1.place.(state := s2.place.state) && s2.scp == s1.scp
    ensures Stays(s, s2)
  {
  }

  lemma StaysAgain(s: Driver, s1: Driver, s2: Driver)
    requires Stays(s, s1) && Stays(s1, s2)
    ensures Stays(s, s2)
  {
  }

  lemma AdvanceKeepsPhase(x: Scp, left: nat)
    ensures Advance(x, left).phase == x.phase
  {
  }

  lemma NextKeepsPhase(sg: seq<Segment>, x: Scp)
    ensures NextBuffer(sg, x).phase == x.phase
  {
  }

  lemma MessInStays(cfg: Config, s: Driver, r: Chip)
    requires OnMessIn(cfg, s, r).Ok?
    ensures Stays(s, OnMessIn(cfg, s, r).next)
  {
    hide Assemble, OnExtended, OnShort;
    var c := s.place.connected;
    match Assemble(s.msgIn, r.data)
    case Wants(_) =>
    case Whole(next, Extended(_)) =>
      ExtendedStays(cfg, WithScp(s, c, ScpOf(s, c).(message := EXTENDED_MESSAGE)).(msgIn := next), c, next.buf);
    case Whole(next, Short(code)) =>
      ShortStays(cfg, WithScp(s, c, ScpOf(s, c).(message := code)).(msgIn := next), c, code);
  }

  lemma ExtendedStays(cfg: Config, s: Driver, c: Cmd, ucp: MsgBuf)
    ensures var s' := OnExtended(cfg, s, c, ucp); s'.place == s.place && s'.scp == s.scp
  {
    hide SdtrXfer, SyncMsg;
  }

  lemma ShortStays(cfg: Config, s: Driver, c: Cmd, code: byte)
    ensures var s' := OnShort(cfg, s, c, code); s'.place == s.place.(state := s'.place.state) && s'.scp == s.scp
  {
    hide SyncXfer;
  }

  lemma SelectFewer(cfg: Config, s: Driver)
    requires s.place.selecting != null && s.place.connected == null
    ensures var s' := OnSelect(cfg, s).next; Fewer(s, s') && s'.place.inputQ == s.place.inputQ
  {
    hide Greeting;
  }

  lemma ReselFewer(cfg: Config, s: Driver, r: Chip)
    requires Inv(s) && OnResel(cfg, s, r).Ok? && Reselectable(s.place, cfg.level2 <= L2_NONE, r.unit)
    ensures var s' := OnResel(cfg, s, r).next;
            Fewer(s, s') && Lines(s.place.inputQ, Active(s.place), Interrupt(r), s'.place.inputQ)
  {
    hide Books, Craft, Tracked, WorkConserving, OnePerUnit, NoRepeats, CodeAgrees;
    var p, l := s.place, Loser(s.place, cfg.level2 <= L2_NONE);
    var k := Find(p.disconnectedQ, r.unit);
    if k < |p.disconnectedQ| {
      RemoveAtKeeps(p.disconnectedQ, k);
    }
  }

  lemma OtherFewer(cfg: Config, s: Driver, r: Chip)
    requires Inv(s) && !s.dmaOn && Expected(cfg, s, r) && !Schedules(s, r) && OnCause(cfg, s, r).Ok?
    ensures var s' := OnCause(cfg, s, r).next;
            Fewer(s, s') && Lines(s.place.inputQ, Active(s.place), Interrupt(r), s'.place.inputQ)
  {
    hide Inv, CauseOf, OnMessIn, OnResel, OnData, OnSelect, Acceptable, Reselectable, Active, Stays, Fewer, Schedules;
    SlotsExclude(s);
    if CauseOf(r.sr) == Resel {
      ReselFewer(cfg, s, r);
    } else if CauseOf(r.sr) == Select {
      SelectFewer(cfg, s);
    } else {
      OtherStays(cfg, s, r);
      StaysIsFewer(s, OnCause(cfg, s, r).next);
    }
  }

  lemma OtherStays(cfg: Config, s: Driver, r: Chip)
    requires !Schedules(s, r) && OnCause(cfg, s, r).Ok? && CauseOf(r.sr) !in {Resel, Select}
    ensures Stays(s, OnCause(cfg, s, r).next)
  {
    hide CauseOf, OnMessIn, OnData;
    match CauseOf(r.sr)
    case MessIn => MessInStays(cfg, s, r);
    case DataIn => DataStays(cfg, s, true, r);
    case DataOut => DataStays(cfg, s, false, r);
    case _ =>
  }

  lemma EndingFewer(cfg: Config, s: Driver, r: Chip)
    requires Inv(s) && !s.dmaOn && Expected(cfg, s, r) && Schedules(s, r) && Answerable(s, r)
    ensures Fewer(s, Before(s, r)) && Before(s, r).place.inputQ == s.place.inputQ
  {
    hide CauseOf, Books, Craft, Tracked, WorkConserving, Reselectable, Acceptable, ResultOf, Active, Finish, Park;
    if Completed(s, r) != null {
      FinishFewer(s, Completed(s, r));
    } else if s.place.connected != null {
      ParkFewer(s);
    }
  }

  lemma FinishFewer(s: Driver, c: Cmd)
    requires Inv(s) && (c == s.place.selecting || c == s.place.connected)
    ensures Finish(s.place, c).inputQ == s.place.inputQ
    ensures forall d :: d in Active(Finish(s.place, c)) ==> d in Active(s.place) && d != c
  {
    hide Books, Craft, Tracked, WorkConserving, OnePerUnit, CodeAgrees;
    assert multiset(s.place.disconnectedQ)[c] + SlotBag(s.place.connected)[c] + SlotBag(s.place.selecting)[c]
        <= Stock(s.place)[c];
  }

  lemma ParkFewer(s: Driver)
    requires s.place.connected != null
    ensures Park(s.place).inputQ == s.place.inputQ
    ensures s.place.selecting == null ==> forall d :: d in Active(Park(s.place)) ==> d in Active(s.place)
  {
  }

  lemma InterruptSplits(cfg: Config, s: Driver, r: Chip) returns (p: Driver)
    requires Inv(s) && Plausible(s, Interrupt(r)) && Admissible(cfg, s, Interrupt(r)) && !Masked(r)
    ensures Splits(cfg, s, Interrupt(r), p)
  {
    hide Inv, Base, OnCause, Schedules, NextBuffer, CauseOf, Masked, StopDma, Reselectable, Acceptable, Stays, Active,
      Fewer, Schedule, Before;
    DmaNeedsConnected(s);
    var s1 := StopDma(s, r.count);
    StopDmaKeeps(s, r.count);
    StopStays(s, r.count);
    StaysIsFewer(s, s1);
    StopDmaFrame(s, r.count);
    SameExpectation(cfg, s, s1, r);
    CauseKeeps(cfg, s1, r);
    if Schedules(s1, r) {
      BeforeKeeps(cfg, s1, r);
      EndingFewer(cfg, s1, r);
      BeforeFrame(cfg, s1, r);
      p := Before(s1, r);
      FreshQueue(s, p);
    } else {
      p := OnCause(cfg, s1, r).next;
      OtherFewer(cfg, s1, r);
      NothingToStart(cfg, p, r.dmaOk);
      InvIsBase(p);
    }
    FewerAgain(s, s1, p);
  }

  lemma InvIsBase(s: Driver)
    requires Inv(s)
    ensures Base(s)
  {
  }

  // ----- other calls -----

  lemma AcceptEased(s: Driver, c: Cmd, stale: Scp, dmaOk: bool)
    requires Inv(s) && c !in Held(s.place)
    ensures Eased(s, Queue(c, stale, dmaOk), Accept(s, c, stale)) && Fresh(s, Accept(s, c, stale))
  {
    hide Base, Inv, Held, Active, Fewer, Fresh, Lines;
    InvIsBase(s);
    AcceptKeeps(s, c, stale);
    AcceptLines(s, c, stale, dmaOk);
    AcceptFewer(s, c, stale);
    AcceptFresh(s, c, stale);
  }

  lemma AcceptLines(s: Driver, c: Cmd, stale: Scp, dmaOk: bool)
    ensures Lines(s.place.inputQ, Active(s.place), Queue(c, stale, dmaOk), Accept(s, c, stale).place.inputQ)
  {
    hide Begin, Active;
    assert [c] + [] == [] + [c];
  }

  lemma NotHeldNotActive(p: Place, c: Cmd)
    requires c !in Held(p)
    ensures c !in Active(p)
  {
    ActiveParts(p);
    hide Active;
  }

  lemma AcceptFewer(s: Driver, c: Cmd, stale: Scp)
    requires c !in Held(s.place)
    ensures Fewer(s, Accept(s, c, stale))
  {
    hide Begin, Held, Enqueue;
    NotHeldNotActive(s.place, c);
    EnqueueStock(s.place, c);
    hide Active;
  }

  lemma AcceptFresh(s: Driver, c: Cmd, stale: Scp)
    requires Inv(s) && c !in Held(s.place)
    ensures Fresh(s, Accept(s, c, stale))
  {
    hide Begin, Inv, Held, Active;
    NotHeldNotActive(s.place, c);
    FreshQueue(s, s);
  }

  lemma AbortSplits(cfg: Config, s: Driver, c: Cmd, dmaOk: bool) returns (p: Driver)
    requires Inv(s)
    ensures Splits(cfg, s, Abort(c, dmaOk), p)
  {
    hide Inv, Base, Schedule, Withdrawal, Severed, RemoveLast, Release, Complete, Active, Fewer, RemoveAt;
    InvIsBase(s);
    AbortKeeps(cfg, s, c, dmaOk);
    if c in s.place.inputQ {
      var k := IndexOf(s.place.inputQ, c);
      WaitingAbort(cfg, s, k, dmaOk);
      p := Withdrawal(s, k);
      WithdrawalFewer(s, k);
      NothingToStart(cfg, p, dmaOk);
      InvIsBase(p);
    } else if c == s.place.connected {
      p := Severed(s, c);
      SeveredFrame(s, c);
      SeveredKeeps(s, c);
      SeveredFewer(s, c);
      FreshQueue(s, p);
      AbortSevers(cfg, s, c, dmaOk);
    } else {
      p := s;
      NothingToStart(cfg, s, dmaOk);
      assert Fewer(s, s) by { SameIsFewer(s); }
    }
  }

  lemma SameIsFewer(s: Driver)
    ensures Fewer(s, s)
  {
  }

  lemma WithdrawalFewer(s: Driver, k: nat)
    requires Inv(s) && k < |s.place.inputQ|
    ensures Fewer(s, Withdrawal(s, k)) && Withdrawal(s, k).place.inputQ == RemoveAt(s.place.inputQ, k)
  {
    hide RemoveLast, Books, Craft, WorkConserving, OnePerUnit, CodeAgrees, RemoveAt, NoRepeats;
    var c := s.place.inputQ[k];
    forall d | d in Active(s.place)
      ensures d != c
    {
      ActiveNotWaiting(s, d);
    }
  }

  lemma ActiveNotWaiting(s: Driver, d: Cmd)
    requires Inv(s) && d in Active(s.place)
    ensures d !in s.place.inputQ
  {
    hide Books, Craft, Tracked, WorkConserving, OnePerUnit, CodeAgrees;
    assert Stock(s.place)[d] == multiset(s.place.inputQ)[d] + multiset(Active(s.place))[d];
    assert multiset(Active(s.place))[d] >= 1 && d in Stock(s.place);
  }

  lemma SeveredFewer(s: Driver, c: Cmd)
    requires Inv(s) && c == s.place.connected
    ensures Fewer(s, Severed(s, c)) && Severed(s, c).place.inputQ == s.place.inputQ
  {
    hide RemoveLast, Inv, Active, Finish;
    FinishFewer(s, c);
  }

  lemma ResetEased(cfg: Config, s: Driver)
    requires Inv(s)
    ensures Splits(cfg, s, Reset, OnReset(cfg, s))
  {
    hide Inv, Base, RemoveAll;
    ResetKeeps(cfg, s);
    InvIsBase(OnReset(cfg, s));
    NothingToStart(cfg, OnReset(cfg, s), false);
  }

  lemma StepSplits(cfg: Config, s: Driver, e: Event) returns (p: Driver)
    requires Inv(s) && Plausible(s, e) && Admissible(cfg, s, e)
    ensures Splits(cfg, s, e, p)
  {
    hide Inv, Base, OnInterrupt, OnAbort, Schedule, Accept, OnReset, CauseOf, Held, Expected, NextBuffer, Eased;
    match e
    case Queue(c, stale, dmaOk) =>
      p := Accept(s, c, stale);
      AcceptEased(s, c, stale, dmaOk);
    case Interrupt(r) =>
      if Masked(r) {
        p := s;
        MaskedNothing(cfg, s, r);
        NothingToStart(cfg, s, r.dmaOk);
        SameEased(s, r);
      } else {
        p := InterruptSplits(cfg, s, r);
      }
    case Abort(c, dmaOk) => p := AbortSplits(cfg, s, c, dmaOk);
    case Reset =>
      p := OnReset(cfg, s);
      ResetEased(cfg, s);
  }

  lemma SameEased(s: Driver, r: Chip)
    requires Inv(s)
    ensures Eased(s, Interrupt(r), s)
  {
    hide Base;
    InvIsBase(s);
  }

  // ----- what the scheduler starts -----

  /** `c` was not on its way before the call and is now. */
  predicate Started(s: Driver, s': Driver, c: Cmd) {
    c in Active(s'.place) && c !in Active(s.place)
  }

  lemma WaitingIsHeld(p: Driver, k: nat)
    requires Base(p) && k < |p.place.inputQ|
    ensures p.place.inputQ[k] in p.scp && p.place.inputQ[k] !in RemoveAt(p.place.inputQ, k)
  {
    hide Books, Craft, OnePerUnit, CodeAgrees;
    var c, q := p.place.inputQ[k], p.place.inputQ;
    assert c in Stock(p.place);
    assert multiset(RemoveAt(q, k))[c] == multiset(q)[c] - 1 <= Stock(p.place)[c] - 1;
  }

  /** What the scheduler does to command `k` and the others. */
  lemma ScheduleTakes(cfg: Config, p: Driver, dmaOk: bool, k: nat)
    requires Base(p) && p.place.selecting == null && p.place.connected == null
    requires k == FirstRunnable(p.place.inputQ, p.place.busy) < |p.place.inputQ|
    ensures var s', c := Schedule(cfg, p, dmaOk), p.place.inputQ[k];
            && s'.place.inputQ == RemoveAt(p.place.inputQ, k) && s'.place.disconnectedQ == p.place.disconnectedQ
            && s'.stat == (if p.stat[c.id] == SyncUnset then p.stat[c.id := SyncFirst] else p.stat)
            && (if cfg.level2 == 1 || p.stat[c.id] == SyncUnset then
                  s'.place.selecting == c && s'.place.connected == null && !s'.dmaOn
                else
                  && s'.place.connected == c && s'.place.selecting == null && s'.place.state == RunningLevel2
                  && (s'.dmaOn <==> !ScpOf(s', c).phase && !cfg.noDma && dmaOk)
                  && (s'.dmaOn ==> s'.dmaDir == !c.toDevice && s'.log.dma == p.log.dma + [Setup(c, !c.toDevice)]))
  {
    hide Books, Tracked, Permit, RemoveAt;
    assert !p.dmaOn;
  }

  lemma ScheduleFlags(cfg: Config, p: Driver, dmaOk: bool, k: nat)
    requires Base(p) && p.place.selecting == null && p.place.connected == null
    requires k == FirstRunnable(p.place.inputQ, p.place.busy) < |p.place.inputQ|
    ensures var s', c := Schedule(cfg, p, dmaOk), p.place.inputQ[k];
            && ScpOf(s', c).phase == MayDisconnect(cfg, c, RemoveAt(p.place.inputQ, k), p.place.disconnectedQ)
            && forall d :: d in p.place.disconnectedQ ==> ScpOf(s', d).phase == ScpOf(p, d).phase
  {
    hide RemoveAt, MayDisconnect, Base, FirstRunnable, Launch, Permit, Schedule;
    WaitingIsHeld(p, k);
    var s', c, rest := Schedule(cfg, p, dmaOk), p.place.inputQ[k], RemoveAt(p.place.inputQ, k);
    ScheduleScp(cfg, p, dmaOk, k);
    PermitFlags(cfg, p, c, rest);
    forall d | d in p.place.disconnectedQ
      ensures ScpOf(s', d).phase == ScpOf(p, d).phase
    {
      ParkedNotWaiting(p, d, k);
    }
  }

  lemma ScheduleScp(cfg: Config, p: Driver, dmaOk: bool, k: nat)
    requires p.place.selecting == null && p.place.connected == null
    requires k == FirstRunnable(p.place.inputQ, p.place.busy) < |p.place.inputQ|
    ensures Schedule(cfg, p, dmaOk).scp == Permit(cfg, p, p.place.inputQ[k], RemoveAt(p.place.inputQ, k))
  {
    hide Permit, RemoveAt, Launch;
  }

  lemma PermitFlags(cfg: Config, p: Driver, c: Cmd, rest: seq<Cmd>)
    ensures var m := Permit(cfg, p, c, rest);
            && c in m && m[c].phase == MayDisconnect(cfg, c, rest, p.place.disconnectedQ)
            && forall d :: d != c && d !in rest ==> (d in m <==> d in p.scp) && (d in m ==> m[d] == p.scp[d])
  {
    hide MayDisconnect, OthersWait;
  }

  lemma ParkedNotWaiting(p: Driver, d: Cmd, k: nat)
    requires Base(p) && d in p.place.disconnectedQ && k < |p.place.inputQ|
    ensures d != p.place.inputQ[k] && d !in RemoveAt(p.place.inputQ, k)
  {
    hide Books, Craft, OnePerUnit, CodeAgrees, Tracked, RemoveAt;
    assert multiset(p.place.inputQ)[d] + multiset(p.place.disconnectedQ)[d] <= Stock(p.place)[d];
    assert d in Stock(p.place) && multiset(p.place.disconnectedQ)[d] >= 1;
    RemoveAtKeeps(p.place.inputQ, k);
  }

  /** The scheduler does not start what was on its way before the call. */
  lemma NotStartedAgain(cfg: Config, s: Driver, e: Event, p: Driver, k: nat)
    requires Splits(cfg, s, e, p) && p.place.selecting == null && p.place.connected == null
    requires k == FirstRunnable(p.place.inputQ, p.place.busy) < |p.place.inputQ|
    ensures Fresh(s, p) && p.place.inputQ[k] !in Active(s.place)
  {
    hide Step, Inv, Base, Fewer, Lines, Active;
    ScheduleTakes(cfg, p, DmaOkOf(e), k);
    if Inv(p) {
      NothingToStart(cfg, p, DmaOkOf(e));
    }
    assert p.place.inputQ[k] in p.place.inputQ;
  }

  /** If a call starts `c`, the scheduler takes it, as the first that is runnable. */
  lemma StartIsTaken(cfg: Config, s: Driver, e: Event, p: Driver, c: Cmd) returns (k: nat)
    requires Splits(cfg, s, e, p) && Started(s, Step(cfg, s, e).next, c)
    ensures p.place.selecting == null && p.place.connected == null && p.stat == s.stat
    ensures k == FirstRunnable(p.place.inputQ, p.place.busy) < |p.place.inputQ| && p.place.inputQ[k] == c
  {
    hide Step, Base, Inv, Active, Lines, Permit, RemoveAt;
    var s' := Step(cfg, s, e).next;
    k := FirstRunnable(p.place.inputQ, p.place.busy);
    ActiveParts(p.place);
    ActiveParts(s'.place);
    ScheduleIdle(cfg, p, DmaOkOf(e));
    NotStartedAgain(cfg, s, e, p, k);
    ScheduleTakes(cfg, p, DmaOkOf(e), k);
  }

  lemma ScheduleIdle(cfg: Config, p: Driver, dmaOk: bool)
    ensures p.place.selecting != null || p.place.connected != null
            || FirstRunnable(p.place.inputQ, p.place.busy) == |p.place.inputQ| ==>
              Schedule(cfg, p, dmaOk) == p
  {
  }
}
