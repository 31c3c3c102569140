/** The driver and the data path as one machine: every call into the driver sets off its steps of
    the data path, and what the driver counts is what crossed the bus. */
module Lockstep {
  import opened Basics
  import opened Commands
  import opened Placement
  import opened ScatterGather
  import opened BounceDma
  import opened Driver
  import opened Invariants
  import opened InvariantProofs
  import opened InterruptProofs
  import opened Messages
  import opened Runs
  import opened HostProofs
  import opened Endings
  import opened Connections
  import D = DataPath
  import DataProofs
  import DataRuns

  /** What memory and bus contribute to one call: whether a bounce buffer can be had, what a fresh
      one contains, and the bytes of programmed I/O. */
  datatype Supply = Supply(mallocOk: bool, blank: seq<byte>, burst: D.Burst)

  datatype Act =
    | Call(event: Event, supply: Supply)   // into the driver
    | Carry(burst: D.Burst)                // the DMA engine moves bytes
    | Poke(addr: nat, value: byte)         // the processor writes memory of its own

  datatype Sys = Sys(driver: Driver, path: D.Path)

  // ----- which steps of the data path a call sets off -----

  /** The command, if any, for which `wd33c93_execute` calls `dma_setup`. */
  function Ahead(cfg: Config, s: Driver): Cmd? {
    if s.place.selecting != null || s.place.connected != null then null else
    var k := FirstRunnable(s.place.inputQ, s.place.busy);
    if k == |s.place.inputQ| then null else
    var c := s.place.inputQ[k];
    if ViaSelect(cfg, s, c) || ScpOf(Claim(cfg, s, k), c).phase || cfg.noDma then null else c
  }

  function AheadTrace(cfg: Config, s: Driver, v: Supply): seq<D.Event> {
    var c := Ahead(cfg, s);
    if c == null then [] else [D.Ahead(c, v.mallocOk, v.blank)]
  }

  function CauseTrace(cfg: Config, s: Driver, r: Chip, v: Supply): seq<D.Event> {
    if CauseOf(r.sr) in {DataIn, DataOut} then
      if s.place.connected == null then []
      else [D.Transfer(s.place.connected, CauseOf(r.sr) == DataIn, cfg.noDma, v.mallocOk, v.blank, v.burst)]
    else if Schedules(s, r) && Answerable(s, r) then
      (if Completed(s, r) == null then [] else [D.Drop(Completed(s, r))]) + AheadTrace(cfg, Before(s, r), v)
    else []
  }

  function Trace(cfg: Config, s: Driver, e: Event, v: Supply): seq<D.Event> {
    match e
    case Queue(c, stale, _) => [D.Accept(c, stale)] + AheadTrace(cfg, Accept(s, c, stale), v)
    case Interrupt(r) =>
      if Masked(r) || (s.dmaOn && s.place.connected == null) then []
      else (if s.dmaOn then [D.Halt] else []) + CauseTrace(cfg, StopDma(s, r.count), r, v)
    case Abort(c, _) => AbortTrace(cfg, s, c, v)
    case Reset => [D.Clear]
  }

  function AbortTrace(cfg: Config, s: Driver, c: Cmd, v: Supply): seq<D.Event> {
    if c in s.place.inputQ then [D.Drop(c)]
    else if c == s.place.connected then
      [if s.dmaOn then D.Abandon else D.Drop(c)] + AheadTrace(cfg, Severed(s, c), v)
    else if c in s.place.disconnectedQ then []
    else AheadTrace(cfg, s, v)
  }

  // ----- what ties the inputs of the two together -----

  /** `dma_setup` succeeds as memory allows. */
  predicate SetupAs(x: Scp, dmaOk: bool, v: Supply) {
    |v.blank| == RoundUp(x.thisResidual) && (dmaOk <==> !SetupFails(x, v.mallocOk))
  }

  predicate AheadFits(cfg: Config, s: Driver, dmaOk: bool, v: Supply) {
    Ahead(cfg, s) != null ==> SetupAs(ScpOf(s, Ahead(cfg, s)), dmaOk, v)
  }

  predicate CauseFits(cfg: Config, s: Driver, r: Chip, v: Supply) {
    if CauseOf(r.sr) in {DataIn, DataOut} then
      s.place.connected != null ==>
        var c := s.place.connected;
        var x := NextBuffer(c.sg, ScpOf(s, c));
        && CauseOf(r.sr) == (if c.toDevice then DataOut else DataIn)
        && SetupAs(x, r.dmaOk, v) && D.Heading(c, v.burst)
        && D.Size(v.burst) <= x.thisResidual && r.pioLeft == x.thisResidual - D.Size(v.burst)
    else Schedules(s, r) && Answerable(s, r) ==> AheadFits(cfg, Before(s, r), r.dmaOk, v)
  }

  predicate AbortFits(cfg: Config, s: Driver, c: Cmd, dmaOk: bool, v: Supply) {
    AheadFits(cfg, if c == s.place.connected then Severed(s, c) else s, dmaOk, v)
  }

  /** The chip counts the bytes that the data path moves, targets enter the data phase that their
      command calls for, and new commands bring memory of their own. */
  ghost predicate Fits(cfg: Config, y: Sys, a: Act) {
    match a
    case Call(Queue(c, stale, dmaOk), v) =>
      && D.Layout(y.driver.scp.Keys + {c}, |y.path.dma.ram|)
      && AheadFits(cfg, Accept(y.driver, c, stale), dmaOk, v)
    case Call(Interrupt(r), v) =>
      !Masked(r) ==>
        && (y.driver.dmaOn && y.path.engine.Running? && y.driver.place.connected != null ==>
              r.count == ScpOf(y.driver, y.driver.place.connected).thisResidual - y.path.engine.done)
        && (y.driver.dmaOn ==> y.driver.place.connected != null)
        && CauseFits(cfg, StopDma(y.driver, r.count), r, v)
    case Call(Abort(c, dmaOk), v) => AbortFits(cfg, y.driver, c, dmaOk, v)
    case Call(Reset, _) => true
    case Carry(burst) => D.Legal(y.path, D.Move(burst))
    case Poke(addr, value) => D.Legal(y.path, D.Touch(addr, value))
  }

  // ----- the link -----

  predicate SamePosition(x: Scp, y: Scp) {
    && x.buffer == y.buffer && x.buffersResidual == y.buffersResidual
    && x.ptr == y.ptr && x.thisResidual == y.thisResidual
  }

  /** Driver and data path agree on every held command's position and on the running transfer. */
  predicate Linked(d: Driver, p: D.Path) {
    && p.scp.Keys == d.scp.Keys
    && (forall c :: c in d.scp ==> SamePosition(ScpOf(d, c), D.ScpAt(p, c)))
    && (if d.dmaOn then
          p.engine.Running? && p.engine.cmd == d.place.connected && p.dma.dirIn == d.dmaDir
        else p.engine.Idle?)
  }

  /** Nothing that the data path knows about changes. */
  predicate Quietly(d: Driver, d': Driver) {
    && d'.scp.Keys == d.scp.Keys && !d.dmaOn && !d'.dmaOn
    && forall c :: c in d.scp ==> SamePosition(ScpOf(d, c), ScpOf(d', c))
  }

  lemma QuietLink(d: Driver, d': Driver, p: D.Path)
    requires Linked(d, p) && Quietly(d, d')
    ensures Linked(d', p)
  {
    forall c | c in d'.scp
      ensures SamePosition(ScpOf(d', c), D.ScpAt(p, c))
    {
      assert SamePosition(ScpOf(d, c), ScpOf(d', c));
    }
  }

  // ----- the scheduler -----

  lemma ScheduleQuiet(cfg: Config, s: Driver, dmaOk: bool)
    requires Base(s) && !s.dmaOn
    ensures var s' := Schedule(cfg, s, dmaOk);
            && Quietly(s, s'.(dmaOn := false))
            && (s'.dmaOn <==> Ahead(cfg, s) != null && dmaOk)
            && (s'.dmaOn ==> s'.place.connected == Ahead(cfg, s) && s'.dmaDir == !Ahead(cfg, s).toDevice)
            && (Ahead(cfg, s) != null ==> Ahead(cfg, s) in s.scp)
  {
    hide Core, Books, Craft, Permit, RemoveAt, FirstRunnable, Stock;
    var k := FirstRunnable(s.place.inputQ, s.place.busy);
    if s.place.selecting == null && s.place.connected == null && k < |s.place.inputQ| {
      var c := s.place.inputQ[k];
      WaitingHeld(s, k);
      PermitMarks(cfg, s, c, RemoveAt(s.place.inputQ, k));
    }
  }

  lemma WaitingHeld(s: Driver, k: nat)
    requires Base(s) && k < |s.place.inputQ|
    ensures s.place.inputQ[k] in s.scp
  {
    assert s.place.inputQ[k] in Stock(s.place);
  }

  lemma ScheduleLinks(cfg: Config, s: Driver, dmaOk: bool, p: D.Path, v: Supply)
    requires Base(s) && !s.dmaOn && Linked(s, p) && D.Good(p) && AheadFits(cfg, s, dmaOk, v)
    ensures var o := DataRuns.RunOf(p, AheadTrace(cfg, s, v));
            o.Fine? && D.Good(o.next) && Linked(Schedule(cfg, s, dmaOk), o.next)
  {
    hide Base, Schedule, Ahead, D.Good, RoundUp;
    var s' := Schedule(cfg, s, dmaOk);
    ScheduleQuiet(cfg, s, dmaOk);
    QuietLink(s, s'.(dmaOn := false), p);
    var c := Ahead(cfg, s);
    if c != null {
      var e := D.Ahead(c, v.mallocOk, v.blank);
      assert D.Legal(p, e);
      DataProofs.StartedKeeps(p, c, v.mallocOk, v.blank);
      OneStep(p, e);
    }
  }

  lemma OneStep(p: D.Path, e: D.Event)
    requires D.Step(p, e).Fine?
    ensures DataRuns.RunOf(p, [e]) == D.Step(p, e)
  {
  }

  lemma TwoParts(p: D.Path, a: seq<D.Event>, b: seq<D.Event>)
    requires |a| <= 1 && DataRuns.RunOf(p, a).Fine?
    ensures DataRuns.RunOf(p, a + b) == DataRuns.RunOf(DataRuns.RunOf(p, a).next, b)
  {
    if a == [] {
      assert a + b == b;
    } else {
      assert (a + b)[1..] == b && a[1..] == [];
    }
  }

  // ----- calls -----

  lemma AcceptLinks(s: Driver, c: Cmd, stale: Scp, p: D.Path)
    requires Linked(s, p)
    ensures Linked(Accept(s, c, stale), D.Step(p, D.Accept(c, stale)).next)
  {
    var s', p' := Accept(s, c, stale), D.Step(p, D.Accept(c, stale)).next;
    hide Begin, Enqueue;
    forall d | d in s'.scp
      ensures SamePosition(ScpOf(s', d), D.ScpAt(p', d))
    {
      assert d != c ==> SamePosition(ScpOf(s, d), D.ScpAt(p, d));
    }
  }

  /** Both machines take the call, and stay linked. */
  ghost predicate CallLinks(cfg: Config, y: Sys, e: Event, v: Supply) {
    var d, o := Step(cfg, y.driver, e), DataRuns.RunOf(y.path, Trace(cfg, y.driver, e, v));
    d.Ok? && o.Fine? && D.Good(o.next) && Linked(d.next, o.next)
  }

  lemma QueueLinks(cfg: Config, y: Sys, c: Cmd, stale: Scp, dmaOk: bool, v: Supply)
    requires Inv(y.driver) && D.Good(y.path) && Linked(y.driver, y.path)
    requires Plausible(y.driver, Queue(c, stale, dmaOk)) && Fits(cfg, y, Call(Queue(c, stale, dmaOk), v))
    ensures CallLinks(cfg, y, Queue(c, stale, dmaOk), v)
  {
    hide Core, Books, Craft, WorkConserving, D.Good, D.Layout, Schedule, Ahead, AheadFits, Accept, Held, Tracked, Begin;
    var s, p, e := y.driver, y.path, D.Accept(c, stale);
    NotHeld(s, c);
    AcceptKeeps(s, c, stale);
    AcceptStill(s, c, stale);
    AcceptLinks(s, c, stale, p);
    DataProofs.AcceptKeeps(p, c, stale);
    OneStep(p, e);
    TwoParts(p, [e], AheadTrace(cfg, Accept(s, c, stale), v));
    if s.dmaOn {
      BusIsTaken(cfg, s, Accept(s, c, stale), dmaOk);
    } else {
      ScheduleLinks(cfg, Accept(s, c, stale), dmaOk, D.Step(p, e).next, v);
    }
  }

  lemma BusIsTaken(cfg: Config, s: Driver, s': Driver, dmaOk: bool)
    requires Inv(s) && s.dmaOn && s'.place.connected == s.place.connected
    ensures Schedule(cfg, s', dmaOk) == s' && Ahead(cfg, s') == null
  {
  }

  lemma AcceptStill(s: Driver, c: Cmd, stale: Scp)
    ensures Accept(s, c, stale).dmaOn == s.dmaOn && Accept(s, c, stale).place.connected == s.place.connected
  {
  }

  lemma HaltLinks(s: Driver, count: nat, p: D.Path)
    requires Inv(s) && s.dmaOn && s.place.connected != null && D.Good(p) && Linked(s, p)
    requires count == ScpOf(s, s.place.connected).thisResidual - p.engine.done
    ensures var o := D.Step(p, D.Halt);
            o.Fine? && D.Good(o.next) && Linked(StopDma(s, count), o.next) && !StopDma(s, count).dmaOn
  {
    hide Inv, D.Good, BounceDma.Stoppable, BounceDma.Stop;
    var c := s.place.connected;
    SlotsHeld(s);
    DataProofs.HaltedKeeps(p);
    var s', p' := StopDma(s, count), D.Halted(p).next;
    assert SamePosition(ScpOf(s, c), D.ScpAt(p, c));
    forall d | d in s'.scp
      ensures SamePosition(ScpOf(s', d), D.ScpAt(p', d))
    {
      assert SamePosition(ScpOf(s, d), D.ScpAt(p, d));
    }
    assert s'.scp.Keys == s.scp.Keys && p'.scp.Keys == p.scp.Keys;
  }

  lemma DropLinks(s: Driver, s': Driver, c: Cmd, p: D.Path)
    requires Linked(s, p) && s'.scp == s.scp - {c} && s'.dmaOn == s.dmaOn
    requires s.dmaOn ==> s'.place.connected == s.place.connected && s'.dmaDir == s.dmaDir
    ensures Linked(s', D.Step(p, D.Drop(c)).next)
  {
    var p' := D.Step(p, D.Drop(c)).next;
    forall d | d in s'.scp
      ensures SamePosition(ScpOf(s', d), D.ScpAt(p', d))
    {
      assert SamePosition(ScpOf(s, d), D.ScpAt(p, d));
    }
  }

  lemma EndingLinks(cfg: Config, s: Driver, r: Chip, p: D.Path, v: Supply)
    requires Inv(s) && !s.dmaOn && Expected(cfg, s, r) && Schedules(s, r) && D.Good(p) && Linked(s, p)
    requires CauseOf(r.sr) !in {DataIn, DataOut} && CauseFits(cfg, s, r, v)
    ensures CauseLinks(cfg, s, r, p, v)
  {
    hide Inv, Base, Schedule, Expected, Schedules, Before, Completed, Ahead, AheadFits, D.Good, Linked, OnCause;
    BeforeKeeps(cfg, s, r);
    var c, s1 := Completed(s, r), Before(s, r);
    if c == null {
      SameScpLinks(s, s1, p);
      assert [] + AheadTrace(cfg, s1, v) == AheadTrace(cfg, s1, v);
      ScheduleLinks(cfg, s1, r.dmaOk, p, v);
    } else {
      var e := D.Drop(c);
      DropIsLegal(s, p, c);
      DataProofs.DropKeeps(p, c);
      DropLinks(s, s1, c, p);
      OneStep(p, e);
      TwoParts(p, [e], AheadTrace(cfg, s1, v));
      ScheduleLinks(cfg, s1, r.dmaOk, D.Step(p, e).next, v);
    }
  }

  lemma SameScpLinks(s: Driver, s': Driver, p: D.Path)
    requires Linked(s, p) && !s.dmaOn && !s'.dmaOn && s'.scp == s.scp
    ensures Linked(s', p)
  {
    QuietLink(s, s', p);
  }

  lemma DropIsLegal(s: Driver, p: D.Path, c: Cmd)
    requires Linked(s, p) && (s.dmaOn ==> s.place.connected != c) && c in s.scp
    ensures D.Legal(p, D.Drop(c))
  {
  }

  ghost predicate CauseLinks(cfg: Config, s: Driver, r: Chip, p: D.Path, v: Supply) {
    var d, o := OnCause(cfg, s, r), DataRuns.RunOf(p, CauseTrace(cfg, s, r, v));
    d.Ok? && o.Fine? && D.Good(o.next) && Linked(d.next, o.next)
  }

  // ----- data phases -----

  lemma SameNext(c: Cmd, x: Scp, y: Scp)
    requires SamePosition(x, y)
    ensures SamePosition(NextBuffer(c.sg, x), NextBuffer(c.sg, y))
  {
  }

  lemma NextLinks(s: Driver, c: Cmd, p: D.Path)
    requires Linked(s, p) && !s.dmaOn && c in s.scp
    ensures Linked(WithScp(s, c, NextBuffer(c.sg, ScpOf(s, c))), D.NextBufferOf(p, c))
  {
    hide NextBuffer;
    var s', p' := WithScp(s, c, NextBuffer(c.sg, ScpOf(s, c))), D.NextBufferOf(p, c);
    assert SamePosition(ScpOf(s, c), D.ScpAt(p, c));
    SameNext(c, ScpOf(s, c), D.ScpAt(p, c));
    forall d | d in s'.scp
      ensures SamePosition(ScpOf(s', d), D.ScpAt(p', d))
    {
      assert SamePosition(ScpOf(s, d), D.ScpAt(p, d));
    }
    assert s'.scp.Keys == s.scp.Keys && p'.scp.Keys == p.scp.Keys;
  }

  lemma ProgrammedLinks(s: Driver, c: Cmd, dirIn: bool, left: nat, p: D.Path, b: D.Burst)
    requires Linked(s, p) && !s.dmaOn && c in s.scp && D.Programmed(p, c, b).Fine?
    requires left == ScpOf(s, c).thisResidual - D.Size(b)
    ensures Linked(PioMoved(s, c, dirIn, left), D.Programmed(p, c, b).next)
  {
    hide D.Carried, D.Landed;
    var s', p' := PioMoved(s, c, dirIn, left), D.Programmed(p, c, b).next;
    assert SamePosition(ScpOf(s, c), D.ScpAt(p, c));
    forall d | d in s'.scp
      ensures SamePosition(ScpOf(s', d), D.ScpAt(p', d))
    {
      assert SamePosition(ScpOf(s, d), D.ScpAt(p, d));
    }
    assert s'.scp.Keys == s.scp.Keys && p'.scp.Keys == p.scp.Keys;
  }

  lemma TransferLinks(cfg: Config, s: Driver, c: Cmd, r: Chip, p: D.Path, v: Supply)
    requires !s.dmaOn && c == s.place.connected && c in s.scp && D.Good(p) && Linked(s, p)
    requires CauseOf(r.sr) in {DataIn, DataOut} && CauseFits(cfg, s, r, v)
    ensures var o := D.TransferBytes(p, c, CauseOf(r.sr) == DataIn, cfg.noDma, v.mallocOk, v.blank, v.burst);
            o.Fine? && D.Good(o.next) && Linked(TransferBytes(cfg, s, c, CauseOf(r.sr) == DataIn, r), o.next)
  {
    hide D.Good, NextBuffer, RoundUp, D.Programmed, PioMoved, CauseOf, Linked;
    NextLinks(s, c, p);
    SamePlace(s, p, c);
    SameNext(c, ScpOf(s, c), D.ScpAt(p, c));
    LinkedIdle(s, p, c);
    DataProofs.NextBufferKeeps(p, c);
    var s1, p1 := WithScp(s, c, NextBuffer(c.sg, ScpOf(s, c))), D.NextBufferOf(p, c);
    if ScpOf(s1, c).thisResidual == 0 {
    } else if cfg.noDma {
      DataProofs.ProgrammedKeeps(p1, c, v.burst);
      ProgrammedLinks(s1, c, CauseOf(r.sr) == DataIn, r.pioLeft, p1, v.burst);
    } else {
      DataProofs.StartedKeeps(p1, c, v.mallocOk, v.blank);
      var p2 := D.Started(p1, c, CauseOf(r.sr) == DataIn, v.mallocOk, v.blank).next;
      if r.dmaOk {
        RunningLinks(s1, c, p1, p2, TransferBytes(cfg, s, c, CauseOf(r.sr) == DataIn, r));
      } else {
        IdleLinks(s1, p1, p2);
        DataProofs.ProgrammedKeeps(p2, c, v.burst);
        ProgrammedLinks(s1, c, CauseOf(r.sr) == DataIn, r.pioLeft, p2, v.burst);
      }
    }
  }

  lemma SamePlace(s: Driver, p: D.Path, c: Cmd)
    requires Linked(s, p) && c in s.scp
    ensures SamePosition(ScpOf(s, c), D.ScpAt(p, c))
  {
  }

  lemma LinkedIdle(s: Driver, p: D.Path, c: Cmd)
    requires Linked(s, p) && !s.dmaOn && c in s.scp
    ensures p.engine.Idle? && c in p.scp
  {
  }

  lemma RunningLinks(s: Driver, c: Cmd, p: D.Path, p': D.Path, s': Driver)
    requires Linked(s, p) && p'.scp == p.scp && s'.scp == s.scp
    requires s'.dmaOn && s'.place.connected == c && p'.engine.Running? && p'.engine.cmd == c
    requires p'.dma.dirIn == s'.dmaDir
    ensures Linked(s', p')
  {
    forall d | d in s'.scp
      ensures SamePosition(ScpOf(s', d), D.ScpAt(p', d))
    {
      assert SamePosition(ScpOf(s, d), D.ScpAt(p, d));
    }
  }

  lemma IdleLinks(s: Driver, p: D.Path, p': D.Path)
    requires Linked(s, p) && !s.dmaOn && p'.scp == p.scp && p'.engine.Idle?
    ensures Linked(s, p')
  {
    forall d | d in s.scp
      ensures SamePosition(ScpOf(s, d), D.ScpAt(p', d))
    {
      assert SamePosition(ScpOf(s, d), D.ScpAt(p, d));
    }
  }

  lemma DataLinks(cfg: Config, s: Driver, r: Chip, p: D.Path, v: Supply)
    requires Inv(s) && !s.dmaOn && s.place.connected != null && D.Good(p) && Linked(s, p)
    requires CauseOf(r.sr) in {DataIn, DataOut} && CauseFits(cfg, s, r, v)
    ensures CauseLinks(cfg, s, r, p, v)
  {
    hide Inv, D.Good, TransferBytes, D.TransferBytes, CauseFits, Linked, CauseOf;
    var c := s.place.connected;
    SlotsHeld(s);
    TransferLinks(cfg, s, c, r, p, v);
    var e := D.Transfer(c, CauseOf(r.sr) == DataIn, cfg.noDma, v.mallocOk, v.blank, v.burst);
    OneStep(p, e);
    var s1 := TransferBytes(cfg, s, c, CauseOf(r.sr) == DataIn, r);
    RecodeLinks(s1, OnData(cfg, s, CauseOf(r.sr) == DataIn, r).next, D.Step(p, e).next);
  }

  lemma RecodeLinks(s: Driver, s': Driver, p: D.Path)
    requires Linked(s, p) && s'.scp == s.scp && s'.dmaOn == s.dmaOn && s'.dmaDir == s.dmaDir
    requires s'.place.connected == s.place.connected
    ensures Linked(s', p)
  {
    forall d | d in s'.scp
      ensures SamePosition(ScpOf(s', d), D.ScpAt(p, d))
    {
      assert SamePosition(ScpOf(s, d), D.ScpAt(p, d));
    }
  }

  // ----- everything else -----

  lemma SetScpQuiet(s: Driver, c: Cmd, x: Scp, s': Driver)
    requires c in s.scp && SamePosition(ScpOf(s, c), x) && s'.scp == s.scp[c := x] && !s.dmaOn && !s'.dmaOn
    ensures Quietly(s, s')
  {
  }

  lemma SameScpQuiet(s: Driver, s': Driver)
    requires s'.scp == s.scp && !s.dmaOn && !s'.dmaOn
    ensures Quietly(s, s')
  {
  }

  lemma MessInQuiet(cfg: Config, s: Driver, r: Chip)
    requires !s.dmaOn && s.place.connected in s.scp && OnMessIn(cfg, s, r).Ok?
    ensures Quietly(s, OnMessIn(cfg, s, r).next)
  {
    hide Assemble, SdtrXfer, Quietly;
    var s', c := OnMessIn(cfg, s, r).next, s.place.connected;
    match Assemble(s.msgIn, r.data)
    case Wants(_) => SetScpQuiet(s, c, ScpOf(s, c).(message := EXTENDED_MESSAGE), s');
    case Whole(_, Extended(_)) => SetScpQuiet(s, c, ScpOf(s, c).(message := EXTENDED_MESSAGE), s');
    case Whole(_, Short(code)) => SetScpQuiet(s, c, ScpOf(s, c).(message := code), s');
  }

  lemma CauseQuiet(cfg: Config, s: Driver, r: Chip)
    requires Inv(s) && !s.dmaOn && Expected(cfg, s, r) && !Schedules(s, r)
    requires CauseOf(r.sr) !in {DataIn, DataOut} && OnCause(cfg, s, r).Ok?
    ensures Quietly(s, OnCause(cfg, s, r).next)
  {
    hide Inv, Quietly, CauseOf, OnMessIn, Reselectable, Reselect, Acceptable, Greeting;
    SlotsHeld(s);
    var s' := OnCause(cfg, s, r).next;
    match CauseOf(r.sr)
    case MessIn => MessInQuiet(cfg, s, r);
    case Status => SetScpQuiet(s, s.place.connected, ScpOf(s, s.place.connected).(status := r.data), s');
    case _ => SameScpQuiet(s, s');
  }

  lemma CauseKeepsLink(cfg: Config, s: Driver, r: Chip, p: D.Path, v: Supply)
    requires Inv(s) && !s.dmaOn && Expected(cfg, s, r) && OnCause(cfg, s, r).Ok?
    requires D.Good(p) && Linked(s, p) && CauseFits(cfg, s, r, v)
    ensures CauseLinks(cfg, s, r, p, v)
  {
    hide Inv, D.Good, Linked, OnCause, CauseFits, Schedules, CauseLinks, CauseOf, Reselectable, Acceptable;
    if CauseOf(r.sr) in {DataIn, DataOut} {
      DataLinks(cfg, s, r, p, v);
    } else if Schedules(s, r) {
      EndingLinks(cfg, s, r, p, v);
    } else {
      CauseQuiet(cfg, s, r);
      QuietLink(s, OnCause(cfg, s, r).next, p);
      QuietTrace(cfg, s, r, p, v);
    }
  }

  lemma QuietTrace(cfg: Config, s: Driver, r: Chip, p: D.Path, v: Supply)
    requires CauseOf(r.sr) !in {DataIn, DataOut} && !Schedules(s, r)
    requires OnCause(cfg, s, r).Ok? && D.Good(p) && Linked(OnCause(cfg, s, r).next, p)
    ensures CauseLinks(cfg, s, r, p, v)
  {
    hide D.Good, Linked, OnCause, CauseOf;
  }

  lemma InterruptLinks(cfg: Config, y: Sys, r: Chip, v: Supply)
    requires Inv(y.driver) && D.Good(y.path) && Linked(y.driver, y.path)
    requires Plausible(y.driver, Interrupt(r)) && Admissible(cfg, y.driver, Interrupt(r))
    requires Fits(cfg, y, Call(Interrupt(r), v))
    ensures CallLinks(cfg, y, Interrupt(r), v)
  {
    hide Inv, D.Good, OnCause, CauseFits, CauseTrace, Expected, Plausible, CauseOf, Linked;
    var s, p := y.driver, y.path;
    StepKeeps(cfg, s, Interrupt(r));
    if !Masked(r) {
      DmaNeedsConnected(s);
      var s1 := StopDma(s, r.count);
      StopFrame(cfg, s, r);
      if s.dmaOn {
        RunningEngine(s, p);
        HaltLinks(s, r.count, p);
        OneStep(p, D.Halt);
        TwoParts(p, [D.Halt], CauseTrace(cfg, s1, r, v));
        CauseKeepsLink(cfg, s1, r, D.Step(p, D.Halt).next, v);
      } else {
        assert [] + CauseTrace(cfg, s1, r, v) == CauseTrace(cfg, s1, r, v);
        CauseKeepsLink(cfg, s1, r, p, v);
      }
    }
  }

  lemma RunningEngine(s: Driver, p: D.Path)
    requires Linked(s, p) && s.dmaOn
    ensures p.engine.Running?
  {
  }

  lemma StopFrame(cfg: Config, s: Driver, r: Chip)
    requires Inv(s) && Plausible(s, Interrupt(r)) && Admissible(cfg, s, Interrupt(r)) && !Masked(r)
    requires s.dmaOn ==> s.place.connected != null
    ensures var s1 := StopDma(s, r.count); Inv(s1) && !s1.dmaOn && Expected(cfg, s1, r)
    ensures !s.dmaOn ==> StopDma(s, r.count) == s
  {
    hide Inv, CauseOf, NextBuffer, Reselectable, Acceptable;
    StopDmaKeeps(s, r.count);
    StopDmaFrame(s, r.count);
    SameExpectation(cfg, s, StopDma(s, r.count), r);
  }

  // ----- aborts and resets -----

  /** Execution goes on with an unaligned transfer, which has a bounce buffer of its own. */
  predicate Replaces(cfg: Config, s: Driver) {
    Ahead(cfg, s) != null && !Aligned(ScpOf(s, Ahead(cfg, s)))
  }

  /** The calls that leave a bounce buffer behind: a reset, or an abort of the running command, while
      one is live, unless the next command gets one as well. */
  predicate LeavesBounce(cfg: Config, y: Sys, e: Event) {
    && y.path.dma.bounce.Buffer?
    && match e
       case Abort(c, _) => c == y.driver.place.connected && !Replaces(cfg, Severed(y.driver, c))
       case Reset => true
       case _ => false
  }

  /** Both machines take the call and stay linked; the data path is in order afterwards if and only
      if no bounce buffer is left behind. */
  ghost predicate CallEnds(cfg: Config, y: Sys, e: Event, v: Supply) {
    var d, o := Step(cfg, y.driver, e), DataRuns.RunOf(y.path, Trace(cfg, y.driver, e, v));
    && d.Ok? && o.Fine? && Linked(d.next, o.next)
    && (D.Good(o.next) <==> !LeavesBounce(cfg, y, e))
  }

  lemma StartedOverLeftover(p: D.Path, c: Cmd, dirIn: bool, mallocOk: bool, blank: seq<byte>)
    requires p.dma.bounce.Buffer? && p.engine.Idle?
    requires D.Started(DataProofs.NoneLive(p), c, dirIn, mallocOk, blank).Fine?
    ensures var o, q := D.Started(p, c, dirIn, mallocOk, blank),
                        D.Started(DataProofs.NoneLive(p), c, dirIn, mallocOk, blank);
            && o.Fine? && SameEngine(q.next, o.next)
            && (if Aligned(D.ScpAt(p, c)) then !D.Good(o.next) else o == q)
  {
    hide RoundUp, Store, D.Mirrors, D.Layout;
  }

  /** The scheduler after a stop that may have left a bounce buffer behind. */
  lemma ScheduleOverLeftover(cfg: Config, s: Driver, dmaOk: bool, p: D.Path, v: Supply)
    requires Base(s) && !s.dmaOn && Linked(s, p) && AheadFits(cfg, s, dmaOk, v)
    requires p.dma.bounce.Buffer? && D.Good(DataProofs.NoneLive(p))
    ensures var o := DataRuns.RunOf(p, AheadTrace(cfg, s, v));
            o.Fine? && Linked(Schedule(cfg, s, dmaOk), o.next) && (D.Good(o.next) <==> Replaces(cfg, s))
  {
    hide Base, Schedule, Ahead, D.Good, RoundUp, D.Started, AheadFits, Linked;
    var q, c := DataProofs.NoneLive(p), Ahead(cfg, s);
    SameEngineLinks(s, p, q);
    ScheduleLinks(cfg, s, dmaOk, q, v);
    StillIdle(s, p);
    if c == null {
      DataProofs.LeftoverIsBad(p);
      SameEngineLinks(Schedule(cfg, s, dmaOk), q, p);
    } else {
      var e := D.Ahead(c, v.mallocOk, v.blank);
      AheadStarts(cfg, s, q, v);
      StartedOverLeftover(p, c, !c.toDevice, v.mallocOk, v.blank);
      OneStep(p, e);
      OneStep(q, e);
      ScheduleQuiet(cfg, s, dmaOk);
      SamePlace(s, p, c);
      SameEngineLinks(Schedule(cfg, s, dmaOk), D.Step(q, e).next, D.Step(p, e).next);
    }
  }

  lemma StillIdle(s: Driver, p: D.Path)
    requires Linked(s, p) && !s.dmaOn
    ensures p.engine.Idle?
  {
  }

  lemma AheadStarts(cfg: Config, s: Driver, q: D.Path, v: Supply)
    requires Ahead(cfg, s) != null && DataRuns.RunOf(q, AheadTrace(cfg, s, v)).Fine?
    ensures D.Step(q, D.Ahead(Ahead(cfg, s), v.mallocOk, v.blank)).Fine?
  {
    hide Ahead, D.Started;
  }

  lemma SeveredScp(s: Driver, c: Cmd)
    requires c == s.place.connected
    ensures Severed(s, c).scp == s.scp - {c} && !Severed(s, c).dmaOn && Severed(s, c).dmaDir == s.dmaDir
  {
  }

  lemma AbandonLinks(s: Driver, c: Cmd, p: D.Path)
    requires Inv(s) && c == s.place.connected && s.dmaOn && Linked(s, p) && D.Good(p)
    ensures var o := D.Step(p, D.Abandon); o.Fine? && Linked(Severed(s, c), o.next)
    ensures D.Step(p, D.Abandon).next.dma == p.dma && D.Good(DataProofs.NoneLive(D.Step(p, D.Abandon).next))
  {
    hide Inv, D.Good, Severed;
    SeveredScp(s, c);
    DataProofs.AbandonedKeeps(p);
    var s', p' := Severed(s, c), D.Step(p, D.Abandon).next;
    forall d | d in s'.scp
      ensures SamePosition(ScpOf(s', d), D.ScpAt(p', d))
    {
      assert SamePosition(ScpOf(s, d), D.ScpAt(p, d));
    }
  }

  lemma SeverLinks(cfg: Config, y: Sys, c: Cmd, dmaOk: bool, v: Supply)
    requires Inv(y.driver) && D.Good(y.path) && Linked(y.driver, y.path) && c == y.driver.place.connected
    requires AheadFits(cfg, Severed(y.driver, c), dmaOk, v)
    ensures var s1 := Severed(y.driver, c);
            var o := DataRuns.RunOf(y.path,
                                    [if y.driver.dmaOn then D.Abandon else D.Drop(c)] + AheadTrace(cfg, s1, v));
            && o.Fine? && Linked(Schedule(cfg, s1, dmaOk), o.next)
            && (D.Good(o.next) <==> y.path.dma.bounce.NoBuffer? || Replaces(cfg, s1))
  {
    hide Inv, D.Good, Base, Severed, Schedule, Ahead, AheadFits, Linked, Replaces, D.Step;
    var s, p, s1 := y.driver, y.path, Severed(y.driver, c);
    SlotsHeld(s);
    SeveredScp(s, c);
    SeveredKeeps(s, c);
    var e := if s.dmaOn then D.Abandon else D.Drop(c);
    if s.dmaOn {
      AbandonLinks(s, c, p);
      DataProofs.StoppedIffNoBounce(p, e);
    } else {
      DropIsLegal(s, p, c);
      DataProofs.DropKeeps(p, c);
      DropLinks(s, s1, c, p);
      StillIdle(s, p);
      IdleHasNone(p);
      DropKeepsDma(p, c);
    }
    var p1 := D.Step(p, e).next;
    OneStep(p, e);
    TwoParts(p, [e], AheadTrace(cfg, s1, v));
    if p.dma.bounce.NoBuffer? {
      ScheduleLinks(cfg, s1, dmaOk, p1, v);
    } else {
      ScheduleOverLeftover(cfg, s1, dmaOk, p1, v);
    }
  }

  lemma IdleHasNone(p: D.Path)
    requires D.Good(p) && p.engine.Idle?
    ensures p.dma.bounce.NoBuffer?
  {
  }

  lemma DropKeepsDma(p: D.Path, c: Cmd)
    ensures D.Step(p, D.Drop(c)).Fine? && D.Step(p, D.Drop(c)).next.dma == p.dma
  {
  }

  lemma WithdrawLinks(cfg: Config, y: Sys, c: Cmd, dmaOk: bool)
    requires Inv(y.driver) && D.Good(y.path) && Linked(y.driver, y.path) && c in y.driver.place.inputQ
    ensures var o := DataRuns.RunOf(y.path, [D.Drop(c)]);
            o.Fine? && D.Good(o.next) && Linked(OnAbort(cfg, y.driver, c, dmaOk), o.next)
    ensures c != y.driver.place.connected
  {
    hide Inv, D.Good, OnAbort, Linked, D.Step;
    var s, p, k := y.driver, y.path, IndexOf(y.driver.place.inputQ, c);
    WaitingAbort(cfg, s, k, dmaOk);
    WithdrawalScp(s, k);
    WaitsElsewhere(s, c);
    DropIsLegal(s, p, c);
    DataProofs.DropKeeps(p, c);
    DropLinks(s, Withdrawal(s, k), c, p);
    DropKeepsDma(p, c);
    OneStep(p, D.Drop(c));
  }

  lemma WithdrawalScp(s: Driver, k: nat)
    requires k < |s.place.inputQ|
    ensures var s1, c := Withdrawal(s, k), s.place.inputQ[k];
            && s1.scp == s.scp - {c} && s1.dmaOn == s.dmaOn && s1.dmaDir == s.dmaDir
            && s1.place.connected == s.place.connected
  {
    hide RemoveLast, RemoveAt;
  }

  lemma AbortLinks(cfg: Config, y: Sys, c: Cmd, dmaOk: bool, v: Supply)
    requires Inv(y.driver) && D.Good(y.path) && Linked(y.driver, y.path)
    requires AbortFits(cfg, y.driver, c, dmaOk, v)
    ensures CallEnds(cfg, y, Abort(c, dmaOk), v)
  {
    hide Inv, D.Good, Schedule, Severed, Ahead, AheadFits, Linked, Replaces, RemoveLast, Release, Complete;
    var s, p := y.driver, y.path;
    if c in s.place.inputQ {
      WithdrawLinks(cfg, y, c, dmaOk);
    } else if c == s.place.connected {
      SeverLinks(cfg, y, c, dmaOk, v);
      AbortSevers(cfg, s, c, dmaOk);
    } else if c !in s.place.disconnectedQ {
      InvIsBase(s);
      if s.dmaOn {
        BusIsTaken(cfg, s, s, dmaOk);
      } else {
        ScheduleLinks(cfg, s, dmaOk, p, v);
      }
    }
  }

  lemma InvIsBase(s: Driver)
    requires Inv(s)
    ensures Base(s)
  {
  }

  lemma ResetLinks(cfg: Config, y: Sys, v: Supply)
    requires D.Good(y.path)
    ensures CallEnds(cfg, y, Reset, v)
  {
    hide D.Good, RemoveAll, Active;
    DataProofs.StoppedIffNoBounce(y.path, D.Clear);
    OneStep(y.path, D.Clear);
  }

  // ----- runs of the whole machine -----

  datatype Result = Good(next: Sys) | Bad

  /** One act; a call that does not return or an access that strays is bad. */
  function Perform(cfg: Config, y: Sys, a: Act): Result {
    match a
    case Call(e, v) =>
      var d, o := Step(cfg, y.driver, e), DataRuns.RunOf(y.path, Trace(cfg, y.driver, e, v));
      if d.Ok? && o.Fine? then Good(Sys(d.next, o.next)) else Bad
    case Carry(burst) =>
      var o := D.Step(y.path, D.Move(burst));
      if o.Fine? then Good(y.(path := o.next)) else Bad
    case Poke(addr, value) =>
      var o := D.Step(y.path, D.Touch(addr, value));
      if o.Fine? then Good(y.(path := o.next)) else Bad
  }

  ghost predicate Proper(cfg: Config, y: Sys, a: Act) {
    && Fits(cfg, y, a)
    && (a.Call? ==> Plausible(y.driver, a.event) && Admissible(cfg, y.driver, a.event))
  }

  ghost predicate Sound(y: Sys) {
    Inv(y.driver) && D.Good(y.path) && Linked(y.driver, y.path)
  }

  predicate Harmless(cfg: Config, y: Sys, a: Act) {
    !(a.Call? && LeavesBounce(cfg, y, a.event))
  }

  /** Driver and data path stay consistent and linked if and only if no bounce buffer is left behind. */
  lemma PerformKeptIff(cfg: Config, y: Sys, a: Act)
    requires Sound(y) && Proper(cfg, y, a)
    ensures Perform(cfg, y, a).Good?
    ensures Sound(Perform(cfg, y, a).next) <==> Harmless(cfg, y, a)
  {
    hide Inv, D.Good, D.Legal, Step, D.Step, Trace, Linked, Plausible, Admissible, AbortFits, Severed, Replaces;
    match a
    case Call(e, v) =>
      StepKeeps(cfg, y.driver, e);
      match e {
        case Queue(c, stale, dmaOk) => QueueLinks(cfg, y, c, stale, dmaOk, v);
        case Interrupt(r) => InterruptLinks(cfg, y, r, v);
        case Abort(c, dmaOk) => AbortLinks(cfg, y, c, dmaOk, v);
        case Reset => ResetLinks(cfg, y, v);
      }
    case Carry(burst) =>
      DataProofs.StepKeeps(y.path, D.Move(burst));
      EngineStays(y.path, D.Move(burst));
      SameEngineLinks(y.driver, y.path, D.Step(y.path, D.Move(burst)).next);
    case Poke(addr, value) =>
      DataProofs.StepKeeps(y.path, D.Touch(addr, value));
      EngineStays(y.path, D.Touch(addr, value));
      SameEngineLinks(y.driver, y.path, D.Step(y.path, D.Touch(addr, value)).next);
  }

  predicate SameEngine(p: D.Path, p': D.Path) {
    && p'.scp == p.scp && p'.dma.dirIn == p.dma.dirIn && p'.engine.Running? == p.engine.Running?
    && (p.engine.Running? ==> p'.engine.cmd == p.engine.cmd)
  }

  lemma EngineStays(p: D.Path, e: D.Event)
    requires e.Move? || e.Touch?
    requires D.Step(p, e).Fine?
    ensures SameEngine(p, D.Step(p, e).next)
  {
    hide D.Carried, D.Landed;
  }

  lemma SameEngineLinks(d: Driver, p: D.Path, p': D.Path)
    requires Linked(d, p) && SameEngine(p, p')
    ensures Linked(d, p')
  {
    forall c | c in d.scp
      ensures SamePosition(ScpOf(d, c), D.ScpAt(p', c))
    {
      assert SamePosition(ScpOf(d, c), D.ScpAt(p, c));
    }
  }

  function RunAll(cfg: Config, y: Sys, acts: seq<Act>): Result
    decreases |acts|
  {
    if acts == [] then Good(y) else
    match Perform(cfg, y, acts[0])
    case Good(next) => RunAll(cfg, next, acts[1..])
    case Bad => Bad
  }

  /** Every act is proper in the state it meets, and leaves no bounce buffer behind. */
  ghost predicate AllProper(cfg: Config, y: Sys, acts: seq<Act>)
    decreases |acts|
  {
    acts == [] ||
    (Proper(cfg, y, acts[0]) && Harmless(cfg, y, acts[0]) &&
      (Perform(cfg, y, acts[0]).Good? ==> AllProper(cfg, Perform(cfg, y, acts[0]).next, acts[1..])))
  }

  lemma {:induction false} RunAllKeeps(cfg: Config, y: Sys, acts: seq<Act>)
    requires Sound(y) && AllProper(cfg, y, acts)
    ensures RunAll(cfg, y, acts).Good? && Sound(RunAll(cfg, y, acts).next)
    decreases |acts|
  {
    hide Sound, Proper, Perform, Harmless;
    if acts != [] {
      PerformKeptIff(cfg, y, acts[0]);
      RunAllKeeps(cfg, Perform(cfg, y, acts[0]).next, acts[1..]);
    }
  }

  function PowerOn(cfg: Config, ram: seq<byte>): Sys {
    Sys(Initial(cfg), DataRuns.Fresh(ram, false))
  }

  /** What the driver has counted for `c` is what went over the bus, and memory holds it in order. */
  ghost predicate Accounted(y: Sys, c: Cmd) {
    var n, wire := MovedOf(y.driver, c), D.WireOf(y.path, c);
    && 0 <= n <= |wire| && (!y.driver.dmaOn ==> n == |wire|)
    && (forall i :: 0 <= i < n ==> D.Holds(y.path.dma.ram, c, i, wire[i]))
    && (ScpOf(y.driver, c).thisResidual > 0 ==> ScpOf(y.driver, c).ptr == D.AddrOf(c.sg, n))
  }

  lemma MovedIsSettled(y: Sys, c: Cmd)
    requires Sound(y) && c in y.driver.scp
    ensures MovedOf(y.driver, c) == D.Settled(y.path, c)
  {
    hide Core, Books, WorkConserving, D.Layout, D.EngineOk;
    var d, p := y.driver, y.path;
    assert CmdOk(c, ScpOf(d, c), StatusesOf(d, c), MovedOf(d, c));
    assert D.Mirrors(p, c) && SamePosition(ScpOf(d, c), D.ScpAt(p, c));
    SameFlow(c.sg, ScpOf(d, c), D.ScpAt(p, c), MovedOf(d, c), D.Settled(p, c));
  }

  lemma SameFlow(sg: seq<Segment>, x: Scp, y: Scp, m: int, n: int)
    requires Flow(sg, x, m) && Flow(sg, y, n) && SamePosition(x, y)
    ensures m == n
  {
  }

  /** The driver delivers: over every run of driver, DMA engine and processor together in which no
      abort or reset leaves a bounce buffer behind, no call faults and no access strays, and for every
      held command the bytes that the driver has counted are the bytes on the bus, held in memory in
      order. */
  lemma EveryByteAccounted(cfg: Config, ram: seq<byte>, acts: seq<Act>, c: Cmd)
    requires AllProper(cfg, PowerOn(cfg, ram), acts)
    ensures RunAll(cfg, PowerOn(cfg, ram), acts).Good?
    ensures var y := RunAll(cfg, PowerOn(cfg, ram), acts).next;
            c in Held(y.driver.place) ==> c in y.driver.scp && Accounted(y, c)
  {
    hide AllProper, RunAll, Core, Books, Craft, WorkConserving, D.EngineOk, D.Layout;
    InitialInv(cfg);
    DataRuns.FreshIsGood(ram, false);
    RunAllKeeps(cfg, PowerOn(cfg, ram), acts);
    var y := RunAll(cfg, PowerOn(cfg, ram), acts).next;
    if c in Held(y.driver.place) {
      MovedIsSettled(y, c);
      DataRuns.AgreesDelivers(y.path, c);
      SamePlace(y.driver, y.path, c);
    }
  }
}
