/** Case by case: each interrupt, abort and reset against the invariant. */
module InterruptProofs {
  import opened Basics
  import opened Commands
  import opened Placement
  import opened PlacementProofs
  import opened ScatterGather
  import opened Messages
  import opened Driver
  import opened Invariants
  import opened InvariantProofs

  // ----- commands that end -----

  lemma TimeoutKeeps(cfg: Config, s: Driver, r: Chip)
    requires Inv(s) && !s.dmaOn && s.place.state in {RunningLevel2, Selecting}
    ensures OnTimeout(cfg, s, r).Ok? && Inv(OnTimeout(cfg, s, r).next)
  {
    hide Tracked, Books, Craft, Owned, Finish, Schedule;
    var c := if s.place.state == RunningLevel2 then s.place.connected else s.place.selecting;
    CompleteKeeps(s, c, BySelectionTimeout, NoConnect);
    ScheduleKeeps(cfg, Complete(s, c, BySelectionTimeout, NoConnect), r.dmaOk);
  }

  lemma StatusKnown(s: Driver, c: Cmd)
    requires CmdsOk(s) && c in s.scp
    ensures ScpOf(s, c).status == LastOr(StatusesOf(s, c), ILLEGAL_STATUS_BYTE)
  {
    assert CmdOk(c, ScpOf(s, c), StatusesOf(s, c), MovedOf(s, c));
  }

  lemma SelXferDoneKeeps(cfg: Config, s: Driver, r: Chip)
    requires Inv(s) && !s.dmaOn && (r.phs == 0x60 ==> s.place.connected != null)
    ensures OnSelXferDone(cfg, s, r).Ok? && Inv(OnSelXferDone(cfg, s, r).next)
  {
    if r.phs == 0x60 {
      hide Core, WorkConserving, Books, Finish, Schedule, CmdsOk, Paired, Tracked;
      var c := s.place.connected;
      ConnectedIsHeld(s);
      StatusKnown(s, c);
      var status := if ScpOf(s, c).status == ILLEGAL_STATUS_BYTE then r.lunReg else ScpOf(s, c).status;
      var ending := ByLevel2(StatusesOf(s, c), r.lunReg);
      CompleteKeeps(s, c, ending, ResultOf(c, COMMAND_COMPLETE, status));
      ScheduleKeeps(cfg, Complete(s, c, ending, ResultOf(c, COMMAND_COMPLETE, status)), r.dmaOk);
    }
  }

  lemma DisconnectedKeeps(s: Driver, announced: bool)
    requires Inv(s) && !s.dmaOn && s.place.connected != null
    requires announced ==> s.place.state == PreCmpDisc
    ensures Base(Disconnected(s, s.place.connected, announced))
  {
    hide Core, WorkConserving, Books, Finish, CmdsOk, Paired, Tracked;
    var c := s.place.connected;
    var x := ScpOf(s, c);
    ConnectedIsHeld(s);
    StatusKnown(s, c);
    CompleteKeeps(s, c, ByDisconnect(StatusesOf(s, c), x.message, announced), ResultOf(c, x.message, x.status));
  }

  lemma UnexpDiscKeeps(cfg: Config, s: Driver, r: Chip)
    requires Inv(s) && !s.dmaOn && (s.place.connected != null || s.place.selecting == null)
    ensures OnUnexpDisc(cfg, s, r).Ok? && Inv(OnUnexpDisc(cfg, s, r).next)
  {
    if s.place.connected == null {
      assert OnUnexpDisc(cfg, s, r).next == s;
    } else {
      hide Inv, Schedule, Disconnected;
      DisconnectedKeeps(s, false);
      ScheduleKeeps(cfg, Disconnected(s, s.place.connected, false), r.dmaOk);
    }
  }

  /** A command that disconnects for the time being. */
  lemma ParkedKeeps(s: Driver)
    requires Inv(s) && !s.dmaOn && s.place.connected != null
    ensures Base(s.(place := Park(s.place)))
  {
    hide CmdsOk, Alternate, Owned, Active, Line, InMessage;
    var s' := s.(place := Park(s.place));
    ParkKeeps(s.place);
    BooksMove(s.place, s.log, s'.place, s'.log);
    CmdsFrame(s, s');
  }

  lemma DiscKeeps(cfg: Config, s: Driver, r: Chip)
    requires Inv(s) && !s.dmaOn
    requires if s.place.connected == null then s.place.selecting == null
             else s.place.state in {PreCmpDisc, PreTmpDisc, RunningLevel2}
    ensures OnDisc(cfg, s, r).Ok? && Inv(OnDisc(cfg, s, r).next)
  {
    hide Schedule, Disconnected, Park, Books, Craft, Owned, Tracked;
    if s.place.connected == null {
      assert WithCode(s, Unconnected) == s;
      ScheduleKeeps(cfg, s, r.dmaOk);
    } else if s.place.state == PreCmpDisc {
      DisconnectedKeeps(s, true);
      ScheduleKeeps(cfg, Disconnected(s, s.place.connected, true), r.dmaOk);
    } else {
      ParkedKeeps(s);
      ScheduleKeeps(cfg, s.(place := Park(s.place)), r.dmaOk);
    }
  }

  // ----- commands that change places -----

  /** A move that keeps the stock of commands and every line, with no DMA running. */
  lemma MoveKeeps(s: Driver, s': Driver)
    requires Inv(s) && !s.dmaOn && !s'.dmaOn
    requires Settled(s'.place) && Stock(s'.place) == Stock(s.place) && s'.place.state != PreCmpDisc
    requires forall u :: Pending(s'.place, u) == Pending(s.place, u)
    requires s'.log == s.log && s'.scp == s.scp && s'.msgIn == s.msgIn
    ensures Inv(s')
  {
    hide CmdsOk, Alternate, Owned, CodeAgrees, WorkConserving, Pending, InMessage;
    BooksMove(s.place, s.log, s'.place, s'.log);
    CmdsFrame(s, s');
  }

  lemma SelectKeeps(cfg: Config, s: Driver)
    requires Inv(s) && !s.dmaOn && s.place.selecting != null
    ensures OnSelect(cfg, s).Ok? && Inv(OnSelect(cfg, s).next)
  {
    hide Tracked, Books, Craft, Owned, Active, Line, Stock, Greeting;
    SelectedKeeps(s.place);
    MoveKeeps(s, OnSelect(cfg, s).next);
  }

  lemma ReselKeeps(cfg: Config, s: Driver, r: Chip)
    requires Inv(s) && !s.dmaOn && Reselectable(s.place, cfg.level2 <= L2_NONE, r.unit)
    requires cfg.level2 > L2_NONE && s.place.connected != null ==> r.phs == 0
    ensures OnResel(cfg, s, r).Ok? && Inv(OnResel(cfg, s, r).next)
  {
    hide Reselect, Reselectable, Stock, Pending, Owned, CodeAgrees, WorkConserving, Books, Craft, Tracked;
    var l2None, code := cfg.level2 <= L2_NONE, ResumeCode(cfg);
    var p' := Reselect(s.place, l2None, r.unit, code);
    ReselectKeeps(s.place, l2None, r.unit, code);
    ReselectCode(s, l2None, r.unit, code);
    forall u
      ensures Pending(p', u) == Pending(s.place, u)
    {
      ReselectKeepsLine(s.place, l2None, r.unit, code, u);
    }
    if p' == s.place {
      assert s.(place := p') == s;
    } else {
      MoveKeeps(s, s.(place := p'));
    }
  }

  /** A reselection either changes nothing or resumes a command. */
  lemma ReselectCode(s: Driver, l2None: bool, u: Unit, code: Code)
    requires Core(s.place) && Reselectable(s.place, l2None, u)
    ensures var p' := Reselect(s.place, l2None, u, code); p' == s.place || p'.state == code
  {
  }

  // ----- data -----

  /** The next buffer is taken up before any byte moves. */
  lemma NextBufferKeeps(s: Driver, c: Cmd)
    requires Tracked(s) && CmdsOk(s) && c in s.scp
    ensures Tracked(WithScp(s, c, NextBuffer(c.sg, ScpOf(s, c))))
    ensures CmdsOk(WithScp(s, c, NextBuffer(c.sg, ScpOf(s, c))))
  {
    assert CmdOk(c, ScpOf(s, c), StatusesOf(s, c), MovedOf(s, c));
    NextBufferFlows(c.sg, ScpOf(s, c), MovedOf(s, c));
    CmdsUpdate(s, WithScp(s, c, NextBuffer(c.sg, ScpOf(s, c))), c);
  }

  predicate PioFits(s: Driver, c: Cmd, r: Chip) {
    r.pioLeft <= NextBuffer(c.sg, ScpOf(s, c)).thisResidual
  }

  lemma TrackedFrame(s: Driver, s': Driver)
    requires Tracked(s) && s'.place == s.place.(state := s'.place.state)
    requires s'.scp.Keys == s.scp.Keys
    requires s'.log.statuses.Keys == s.log.statuses.Keys && s'.log.moved.Keys == s.log.moved.Keys
    ensures Tracked(s')
  {
    assert Stock(s'.place) == Stock(s.place);
  }

  lemma TransferCmds(cfg: Config, s: Driver, c: Cmd, dirIn: bool, r: Chip)
    requires Tracked(s) && CmdsOk(s) && c in s.scp && PioFits(s, c, r)
    ensures Tracked(TransferBytes(cfg, s, c, dirIn, r)) && CmdsOk(TransferBytes(cfg, s, c, dirIn, r))
  {
    hide CmdsOk, NextBuffer, Stock, Advance;
    var s1 := WithScp(s, c, NextBuffer(c.sg, ScpOf(s, c)));
    NextBufferKeeps(s, c);
    if ScpOf(s1, c).thisResidual != 0 {
      if cfg.noDma || !r.dmaOk {
        TransferredKeeps(s1, c, r.pioLeft);
        s1 := Transferred(s1, c, r.pioLeft);
      }
      CmdsFrame(s1, TransferBytes(cfg, s, c, dirIn, r));
      TrackedFrame(s1, TransferBytes(cfg, s, c, dirIn, r));
    }
  }

  lemma TransferPairs(cfg: Config, s: Driver, c: Cmd, dirIn: bool, r: Chip)
    requires Paired(s) && !s.dmaOn && c == s.place.connected
    ensures Paired(TransferBytes(cfg, s, c, dirIn, r))
  {
    hide Alternate, NextBuffer;
    StartDmaPairs(s, c, dirIn);
  }

  lemma TransferFrame(cfg: Config, s: Driver, c: Cmd, dirIn: bool, r: Chip)
    ensures var s' := TransferBytes(cfg, s, c, dirIn, r);
            && s'.place == s.place.(state := s'.place.state)
            && s'.place.state in {s.place.state, RunningLevel2}
            && s'.log == s.log.(dma := s'.log.dma, pio := s'.log.pio, statuses := s'.log.statuses,
                                moved := s'.log.moved)
            && s'.msgIn == s.msgIn
  {
    hide NextBuffer, Advance;
  }

  lemma DataKeeps(cfg: Config, s: Driver, dirIn: bool, r: Chip)
    requires Inv(s) && !s.dmaOn && s.place.connected != null && PioFits(s, s.place.connected, r)
    ensures OnData(cfg, s, dirIn, r).Ok? && Inv(OnData(cfg, s, dirIn, r).next)
  {
    hide Core, WorkConserving, Books, CmdsOk, Tracked, Paired, TransferBytes, Announced, PioFits, InMessage;
    var c := s.place.connected;
    ConnectedIsHeld(s);
    TransferCmds(cfg, s, c, dirIn, r);
    TransferPairs(cfg, s, c, dirIn, r);
    TransferFrame(cfg, s, c, dirIn, r);
    var s1, s' := TransferBytes(cfg, s, c, dirIn, r), OnData(cfg, s, dirIn, r).next;
    CmdsFrame(s1, s');
    RecodeParts(s1, s');
    BusyKeeps(s, s', s'.place.state);
  }

  /** A change of the state code alone matters to neither of these. */
  lemma RecodeParts(s: Driver, s': Driver)
    requires Tracked(s) && Paired(s)
    requires s'.place == s.place.(state := s'.place.state)
    requires s'.dmaOn == s.dmaOn && s'.dmaDir == s.dmaDir && s'.scp.Keys == s.scp.Keys && s'.log.dma == s.log.dma
    requires s'.log.statuses.Keys == s.log.statuses.Keys && s'.log.moved.Keys == s.log.moved.Keys
    ensures Tracked(s') && Paired(s')
  {
    TrackedFrame(s, s');
  }

  // ----- other phases -----

  lemma CommandKeeps(s: Driver)
    requires Inv(s) && s.place.connected != null
    ensures OnCommand(s).Ok? && Inv(OnCommand(s).next)
  {
    PlainKeeps(s, s, Connected);
  }

  /** A new state code, perhaps with other negotiation state. */
  lemma PlainKeeps(s: Driver, s1: Driver, code: Code)
    requires Inv(s) && s.place.connected != null && code in {RunningLevel2, Connected}
    requires s1 == s.(stat := s1.stat, xfer := s1.xfer, outgoing := s1.outgoing, log := s.log.(sent := s1.log.sent))
    ensures Inv(WithCode(s1, code))
  {
    hide Core, WorkConserving, Books, CmdsOk, Tracked, Paired, Announced, InMessage;
    CmdsFrame(s, WithCode(s1, code));
    RecodeParts(s, WithCode(s1, code));
    BusyKeeps(s, WithCode(s1, code), code);
  }

  lemma StatusKeeps(cfg: Config, s: Driver, r: Chip)
    requires Inv(s) && s.place.connected != null
    ensures OnStatus(cfg, s, r).Ok? && Inv(OnStatus(cfg, s, r).next)
  {
    hide Core, WorkConserving, Books, Tracked, Paired, Announced, InMessage, CmdsOk;
    var c, s' := s.place.connected, OnStatus(cfg, s, r).next;
    ConnectedIsHeld(s);
    FlowKnown(s, c);
    KeysTracked(s);
    CmdsUpdate(s, s', c);
    RecodeParts(s, s');
    BusyKeeps(s, s', s'.place.state);
  }

  lemma FlowKnown(s: Driver, c: Cmd)
    requires CmdsOk(s) && c in s.scp
    ensures Flow(c.sg, ScpOf(s, c), MovedOf(s, c))
  {
    assert CmdOk(c, ScpOf(s, c), StatusesOf(s, c), MovedOf(s, c));
  }

  lemma KeysTracked(s: Driver)
    requires Tracked(s)
    ensures s.log.statuses.Keys == s.scp.Keys && s.log.moved.Keys == s.scp.Keys
  {
  }

  // ----- messages -----

  /** The message byte is noted and the assembler moves on. */
  function Noted(s: Driver, c: Cmd, message: byte, next: MsgIn): Driver {
    WithScp(s, c, ScpOf(s, c).(message := message)).(msgIn := next)
  }

  lemma NotedCmds(s: Driver, c: Cmd, message: byte, next: MsgIn)
    requires CmdsOk(s) && c in s.scp
    ensures Noted(s, c, message, next).scp.Keys == s.scp.Keys && CmdsOk(Noted(s, c, message, next))
  {
    assert CmdOk(c, ScpOf(s, c), StatusesOf(s, c), MovedOf(s, c));
    CmdsUpdate(s, Noted(s, c, message, next), c);
  }

  lemma NotedKeeps(s: Driver, message: byte, next: MsgIn, s': Driver, code: Code)
    requires Inv(s) && s.place.connected != null && code !in {Unconnected, Selecting}
    requires InMessage(next) && (code == PreCmpDisc ==> message == COMMAND_COMPLETE)
    requires var s1 := Noted(s, s.place.connected, message, next);
             s' == s1.(place := s1.place.(state := code), stat := s'.stat, xfer := s'.xfer, outgoing := s'.outgoing)
    ensures Inv(s')
  {
    hide Core, WorkConserving, Books, Tracked, Paired, Announced, InMessage, CmdsOk;
    var c := s.place.connected;
    ConnectedIsHeld(s);
    NotedCmds(s, c, message, next);
    CmdsFrame(Noted(s, c, message, next), s');
    RecodeParts(s, s');
    BusyKeeps(s, s', code);
  }

  lemma MessInKeeps(cfg: Config, s: Driver, r: Chip)
    requires Inv(s) && s.place.connected != null && Acceptable(s.msgIn, r.data)
    ensures OnMessIn(cfg, s, r).Ok? && Inv(OnMessIn(cfg, s, r).next)
  {
    hide Core, WorkConserving, Books, Tracked, Paired, Announced, InMessage, CmdsOk, Assemble, SdtrXfer;
    AssembleKeeps(s.msgIn, r.data);
    var s' := OnMessIn(cfg, s, r).next;
    match Assemble(s.msgIn, r.data)
    case Wants(next) => NotedKeeps(s, EXTENDED_MESSAGE, next, s', s'.place.state);
    case Whole(next, Extended(_)) => NotedKeeps(s, EXTENDED_MESSAGE, next, s', s'.place.state);
    case Whole(next, Short(code)) => NotedKeeps(s, code, next, s', s'.place.state);
  }

  // ----- abort and reset -----

  lemma LineOfOne(c: Cmd, u: Unit)
    ensures Line([c], u) == if OnLine(c, u) then [c] else []
  {
  }

  /** Taking back the last submission of `c`, with `after` submitted behind it. */
  lemma TakenBack(live: seq<Cmd>, c: Cmd, before: seq<Cmd>, after: seq<Cmd>, u: Unit)
    requires Line(live, u) == before + Line([c], u) + after && c !in after
    ensures Line(RemoveLast(live, c), u) == before + after
  {
    RemoveLastLine(live, c, u);
    LineOfOne(c, u);
    if OnLine(c, u) {
      RemoveLastMiddle(before, c, after);
    } else {
      assert before + [] == before;
    }
  }

  lemma WaitsOnce(p: Place, k: nat)
    requires NoRepeats(Stock(p)) && k < |p.inputQ|
    ensures p.inputQ[k] !in p.inputQ[k + 1..]
  {
    var c, q := p.inputQ[k], p.inputQ;
    assert q == q[..k] + [c] + q[k + 1..];
    assert multiset(q) == multiset(q[..k]) + multiset{c} + multiset(q[k + 1..]);
    assert Stock(p)[c] == 1;
    assert multiset(q[k + 1..])[c] == 0;
  }

  lemma AbortWaitingInOrder(p: Place, k: nat, log: Log, log': Log, x: Completion, u: Unit)
    requires Core(p) && k < |p.inputQ| && x.cmd == p.inputQ[k] && x.ending.ByAbort?
    requires InOrder(p, log, u) && log'.done == log.done + [x] && log'.live == RemoveLast(log.live, x.cmd)
    ensures InOrder(Withdraw(p, k), log', u)
  {
    hide Line, OnePerUnit, Stock, RemoveLast, Units, CodeAgrees, Active;
    var q, ended, active := p.inputQ, Line(Ended(log.done), u), Line(Active(p), u);
    EndedAppend(log.done, x);
    assert Ended(log.done) + [] == Ended(log.done);
    SameActive(p, k);
    LineSplit(q, k, u);
    WaitsOnce(p, k);
    LineElements(q[k + 1..], u);
    var before, after := Line(q[..k], u), Line(q[k + 1..], u);
    assert ended + (active + (before + Line([q[k]], u) + after))
        == (ended + active + before) + Line([q[k]], u) + after;
    TakenBack(log.live, q[k], ended + active + before, after, u);
  }

  lemma SameActive(p: Place, k: nat)
    requires k < |p.inputQ|
    ensures Active(Withdraw(p, k)) == Active(p)
  {
  }

  lemma NotPendingAfter(p: Place, p': Place, c: Cmd, u: Unit)
    requires Stock(p) == Stock(p') + multiset{c} && NoRepeats(Stock(p))
    ensures c !in Pending(p', u)
  {
    hide OnLine;
    BagWithout(Stock(p), Stock(p'), c);
    ActiveParts(p');
    LineElements(Active(p'), u);
    LineElements(p'.inputQ, u);
    assert Stock(p')[c] == 0;
    assert c !in multiset(Active(p')) && c !in multiset(p'.inputQ);
  }

  lemma AbortConnectedInOrder(p: Place, log: Log, log': Log, x: Completion, u: Unit)
    requires Core(p) && p.connected == x.cmd && x.ending.ByAbort?
    requires InOrder(p, log, u) && log'.done == log.done + [x] && log'.live == RemoveLast(log.live, x.cmd)
    ensures InOrder(Finish(p, x.cmd), log', u)
  {
    hide Line, OnePerUnit, Stock, RemoveLast, Units, CodeAgrees, Active, Finish, Pending;
    var c, ended := x.cmd, Line(Ended(log.done), u);
    var p' := Finish(p, c);
    EndedAppend(log.done, x);
    assert Ended(log.done) + [] == Ended(log.done);
    FinishKeeps(p, c);
    FinishKeepsLine(p, c, u);
    NotPendingAfter(p, p', c, u);
    assert ended + (Line([c], u) + Pending(p', u)) == ended + Line([c], u) + Pending(p', u);
    TakenBack(log.live, c, ended, Pending(p', u), u);
  }

  /** The books after an abort, wherever the command was. */
  lemma AbortBooks(p: Place, p': Place, log: Log, log': Log, x: Completion)
    requires Books(p, log) && WellReported(x) && Stock(p) == Stock(p') + multiset{x.cmd}
    requires forall u :: InOrder(p', log', u)
    requires log'.submitted == log.submitted && log'.dropped == log.dropped && log'.done == log.done + [x]
    ensures Books(p', log')
  {
    hide WellReported, Stock, InOrder;
    ReleaseLedger(p, p', log, x);
    ReleaseReports(log, x);
  }

  lemma AbortWaitingKeeps(cfg: Config, s: Driver, c: Cmd, dmaOk: bool)
    requires Inv(s) && c in s.place.inputQ
    ensures Inv(OnAbort(cfg, s, c, dmaOk))
  {
    hide WellReported, Ledger, OnePerUnit, Units, Stock, CodeAgrees, RemoveLast, Line, Alternate, CmdsOk, InMessage;
    var k, s' := IndexOf(s.place.inputQ, c), OnAbort(cfg, s, c, dmaOk);
    WithdrawKeeps(s.place, k);
    HeldWithout(s.place, s'.place, c);
    ConnectedNotWaiting(s.place, k);
    ReleaseCmds(s, c, ByAbort, Aborted);
    CmdsFrame(Release(s, c, ByAbort, Aborted), s');
    var x := Completion(c, ByAbort, Aborted);
    assert WellReported(x) by { AbortReported(c); }
    forall u
      ensures InOrder(s'.place, s'.log, u)
    {
      AbortWaitingInOrder(s.place, k, s.log, s'.log, x, u);
    }
    AbortBooks(s.place, s'.place, s.log, s'.log, x);
  }

  lemma AbortReported(c: Cmd)
    ensures WellReported(Completion(c, ByAbort, Aborted))
  {
  }

  lemma ConnectedNotWaiting(p: Place, k: nat)
    requires NoRepeats(Stock(p)) && k < |p.inputQ|
    ensures p.inputQ[k] != p.connected
  {
    var c := p.inputQ[k];
    assert c in p.inputQ && multiset(p.inputQ)[c] >= 1;
    assert Stock(p)[c] == 1;
  }

  /** The driver after an abort has taken the command off the bus. */
  function Severed(s: Driver, c: Cmd): Driver
    requires c == s.place.connected
  {
    var withdrawn := s.log.(live := RemoveLast(s.log.live, c));
    Complete(s.(dmaOn := false,
                log := if s.dmaOn then withdrawn.(dma := s.log.dma + [Stop(c)]) else withdrawn),
             c, ByAbort, Aborted)
  }

  lemma SeveredPairs(s: Driver, c: Cmd)
    requires Paired(s) && c == s.place.connected
    ensures Paired(Severed(s, c))
  {
    hide RemoveLast;
    if s.dmaOn {
      AlternateAppend(s.log.dma, Stop(c));
    }
  }

  lemma SeveredCmds(s: Driver, c: Cmd)
    requires CmdsOk(s) && c == s.place.connected
    ensures CmdsOk(Severed(s, c))
  {
    hide CmdsOk;
    ReleaseCmds(s, c, ByAbort, Aborted);
    CmdsFrame(Release(s, c, ByAbort, Aborted), Severed(s, c));
  }

  lemma SeveredBooks(p: Place, log: Log, log': Log, c: Cmd)
    requires Core(p) && Books(p, log) && c == p.connected
    requires log'.submitted == log.submitted && log'.dropped == log.dropped
    requires log'.done == log.done + [Completion(c, ByAbort, Aborted)]
    requires log'.live == RemoveLast(log.live, c)
    ensures Books(Finish(p, c), log')
  {
    hide Core, Finish, WellReported, Stock, InOrder, RemoveLast;
    var x := Completion(c, ByAbort, Aborted);
    FinishKeeps(p, c);
    AbortReported(c);
    forall u
      ensures InOrder(Finish(p, c), log', u)
    {
      AbortConnectedInOrder(p, log, log', x, u);
    }
    AbortBooks(p, Finish(p, c), log, log', x);
  }

  lemma SeveredKeeps(s: Driver, c: Cmd)
    requires Inv(s) && c == s.place.connected
    ensures Base(Severed(s, c))
  {
    hide Books, CmdsOk, Paired, OnePerUnit, Units, Stock, CodeAgrees, WorkConserving, RemoveLast, InMessage;
    FinishKeeps(s.place, c);
    HeldWithout(s.place, Finish(s.place, c), c);
    SeveredCmds(s, c);
    SeveredPairs(s, c);
    SeveredBooks(s.place, s.log, Severed(s, c).log, c);
  }

  lemma AbortKeeps(cfg: Config, s: Driver, c: Cmd, dmaOk: bool)
    requires Inv(s)
    ensures Inv(OnAbort(cfg, s, c, dmaOk))
  {
    hide Base, WorkConserving, Schedule, Release, Complete;
    if c in s.place.inputQ {
      AbortWaitingKeeps(cfg, s, c, dmaOk);
    } else if c == s.place.connected {
      SeveredKeeps(s, c);
      ScheduleKeeps(cfg, Severed(s, c), dmaOk);
      assert OnAbort(cfg, s, c, dmaOk) == Schedule(cfg, Severed(s, c), dmaOk);
    } else if c !in s.place.disconnectedQ {
      ScheduleKeeps(cfg, s, dmaOk);
    }
  }

  lemma ResetInOrder(p: Place, log: Log, log': Log, u: Unit)
    requires InOrder(p, log, u) && log'.done == log.done
    requires log'.live == RemoveAll(log.live, Active(p) + p.inputQ)
    ensures InOrder(EMPTY, log', u)
  {
    NothingPending(u);
    hide Line, Active, RemoveAll, Pending;
    assert Pending(p, u) == Line(Active(p), u) + Line(p.inputQ, u) by { PendingParts(p, u); }
    LineConcat(Active(p), p.inputQ, u);
    RemoveAllLine(log.live, Active(p) + p.inputQ, Line(Ended(log.done), u), u);
  }

  lemma PendingParts(p: Place, u: Unit)
    ensures Pending(p, u) == Line(Active(p), u) + Line(p.inputQ, u)
  {
  }

  lemma NothingPending(u: Unit)
    ensures Pending(EMPTY, u) == []
  {
    assert Active(EMPTY) == [];
  }

  lemma ResetBooks(p: Place, log: Log, log': Log)
    requires Books(p, log)
    requires log'.submitted == log.submitted && log'.done == log.done
    requires log'.live == RemoveAll(log.live, Active(p) + p.inputQ)
    requires log'.dropped == log.dropped + (Active(p) + p.inputQ)
    ensures Books(EMPTY, log')
  {
    hide RemoveAll, WellReported, InOrder, Line;
    ActiveParts(p);
    forall u
      ensures InOrder(EMPTY, log', u)
    {
      ResetInOrder(p, log, log', u);
    }
  }

  lemma EmptyIsSettled()
    ensures Settled(EMPTY) && Held(EMPTY) == {}
  {
    assert Active(EMPTY) == [];
  }

  lemma ResetKeeps(cfg: Config, s: Driver)
    requires Inv(s)
    ensures Inv(OnReset(cfg, s))
  {
    hide Books, RemoveAll, Line, Active;
    EmptyIsSettled();
    ResetBooks(s.place, s.log, OnReset(cfg, s).log);
  }
}
