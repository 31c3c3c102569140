/** Every admissible call keeps the invariant; every other one breaks it or never returns. */
module InvariantProofs {
  import opened Basics
  import opened Commands
  import opened Placement
  import opened PlacementProofs
  import opened ScatterGather
  import opened Messages
  import opened Driver
  import opened Invariants

  // ----- history -----

  lemma CmdsAppend(done: seq<Completion>, x: Completion)
    ensures Cmds(done + [x]) == Cmds(done) + [x.cmd]
  {
  }

  lemma EndedAppend(done: seq<Completion>, x: Completion)
    ensures Ended(done + [x]) == Ended(done) + if x.ending.ByAbort? then [] else [x.cmd]
  {
    assert (done + [x])[..|done|] == done;
  }

  lemma RemoveLastMiddle(a: seq<Cmd>, c: Cmd, b: seq<Cmd>)
    requires c !in b
    ensures RemoveLast(a + [c] + b, c) == a + b
    decreases |b|
  {
    var s := a + [c] + b;
    if b == [] {
      assert s[..|s| - 1] == a + b;
    } else {
      var b' := b[..|b| - 1];
      assert s[..|s| - 1] == a + [c] + b';
      assert b[|b| - 1] in b;
      RemoveLastMiddle(a, c, b');
      assert b == b' + [b[|b| - 1]];
    }
  }

  lemma {:induction false} RemoveLastLine(s: seq<Cmd>, c: Cmd, u: Unit)
    ensures Line(RemoveLast(s, c), u) == if OnLine(c, u) then RemoveLast(Line(s, u), c) else Line(s, u)
    decreases |s|
  {
    if s != [] {
      var front, last := s[..|s| - 1], s[|s| - 1];
      assert s == front + [last];
      LineConcat(front, [last], u);
      if last == c {
        RemoveLastOfLine(front, c, u);
      } else {
        RemoveLastLine(front, c, u);
        LineConcat(RemoveLast(front, c), [last], u);
        RemoveLastBefore(Line(front, u), c, last, u);
      }
    }
  }

  lemma RemoveLastBefore(l: seq<Cmd>, c: Cmd, last: Cmd, u: Unit)
    requires last != c
    ensures RemoveLast(l + Line([last], u), c) == RemoveLast(l, c) + Line([last], u)
  {
    if OnLine(last, u) {
      assert (l + [last])[..|l|] == l;
    } else {
      assert l + [] == l;
    }
  }

  lemma RemoveLastOfLine(front: seq<Cmd>, c: Cmd, u: Unit)
    ensures OnLine(c, u) ==> RemoveLast(Line(front, u) + [c], c) == Line(front, u)
  {
    var l := Line(front, u) + [c];
    assert l[..|l| - 1] == Line(front, u);
  }

  /** Taking back the whole tail of a line leaves its beginning. */
  lemma {:induction false} RemoveAllLine(s: seq<Cmd>, cs: seq<Cmd>, head: seq<Cmd>, u: Unit)
    requires Line(s, u) == head + Line(cs, u)
    ensures Line(RemoveAll(s, cs), u) == head
    decreases |cs|
  {
    if cs == [] {
    } else {
      var front, c := cs[..|cs| - 1], cs[|cs| - 1];
      assert cs == front + [c];
      LineConcat(front, [c], u);
      RemoveLastLine(s, c, u);
      if OnLine(c, u) {
        assert Line(s, u) == (head + Line(front, u)) + [c] + [];
        RemoveLastMiddle(head + Line(front, u), c, []);
        assert (head + Line(front, u)) + [] == head + Line(front, u);
      }
      RemoveAllLine(RemoveLast(s, c), front, head, u);
    }
  }

  // ----- the state code -----

  lemma CodeKeeps(p: Place, code: Code)
    requires Owned(p) && p.connected != null && code !in {Unconnected, Selecting}
    ensures Settled(p.(state := code))
    ensures Stock(p.(state := code)) == Stock(p) && Active(p.(state := code)) == Active(p)
  {
    assert Active(p.(state := code)) == Active(p);
  }

  // ----- starting commands -----

  /** The scratch areas may only differ in the disconnect permission. */
  predicate SameButPhase(scp: map<Cmd, Scp>, scp': map<Cmd, Scp>) {
    && scp'.Keys == scp.Keys
    && forall d :: d in scp' ==> scp'[d] == scp[d].(phase := scp'[d].phase)
  }

  lemma PermitMarks(cfg: Config, s: Driver, c: Cmd, rest: seq<Cmd>)
    requires c in s.scp
    ensures SameButPhase(s.scp, Permit(cfg, s, c, rest))
  {
  }

  lemma CmdsPermitted(s: Driver, s': Driver)
    requires CmdsOk(s) && SameButPhase(s.scp, s'.scp)
    requires s'.log.statuses == s.log.statuses && s'.log.moved == s.log.moved
    ensures CmdsOk(s')
  {
    forall d | d in s'.scp
      ensures CmdOk(d, ScpOf(s', d), StatusesOf(s', d), MovedOf(s', d))
    {
      assert CmdOk(d, ScpOf(s, d), StatusesOf(s, d), MovedOf(s, d));
    }
  }

  /** Moves that neither take in nor let go of a command leave the books alone. */
  lemma BooksMove(p: Place, log: Log, p': Place, log': Log)
    requires Books(p, log) && Stock(p') == Stock(p)
    requires forall u :: Pending(p', u) == Pending(p, u)
    requires log' == log.(dma := log'.dma, pio := log'.pio, sent := log'.sent, statuses := log'.statuses,
                                 moved := log'.moved)
    ensures Books(p', log')
  {
    forall u
      ensures InOrder(p', log', u)
    {
      assert InOrder(p, log, u);
    }
  }

  lemma AlternateAppend(dma: seq<DmaCall>, call: DmaCall)
    requires Alternate(dma)
    requires if |dma| % 2 == 0 then call.Setup? else call == Stop(dma[|dma| - 1].cmd)
    ensures Alternate(dma + [call])
  {
    var d := dma + [call];
    forall i | 0 <= i < |d|
      ensures InTurn(d, i)
    {
      assert i < |dma| ==> InTurn(dma, i);
    }
  }

  /** A successful setup for the connected command. */
  lemma StartDmaPairs(s: Driver, c: Cmd, dirIn: bool)
    requires Paired(s) && !s.dmaOn
    ensures Alternate(StartDma(s, c, dirIn).log.dma) && |StartDma(s, c, dirIn).log.dma| % 2 == 1
    ensures StartDma(s, c, dirIn).log.dma[|s.log.dma|] == Setup(c, dirIn)
  {
    AlternateAppend(s.log.dma, Setup(c, dirIn));
  }

  lemma StartPairs(cfg: Config, s: Driver, k: nat, dmaOk: bool)
    requires Paired(s) && s.place.selecting == null && s.place.connected == null
    requires k < |s.place.inputQ|
    ensures Paired(Start(cfg, s, k, dmaOk))
  {
    StartDmaPairs(s, s.place.inputQ[k], !s.place.inputQ[k].toDevice);
  }

  lemma ClaimCmds(cfg: Config, s: Driver, k: nat)
    requires Tracked(s) && CmdsOk(s) && k < |s.place.inputQ|
    ensures Claim(cfg, s, k).scp.Keys == s.scp.Keys
    ensures CmdsOk(Claim(cfg, s, k))
  {
    var c := s.place.inputQ[k];
    assert c in Stock(s.place);
    PermitMarks(cfg, s, c, RemoveAt(s.place.inputQ, k));
    CmdsPermitted(s, Claim(cfg, s, k));
  }

  lemma CmdsFrame(s: Driver, s': Driver)
    requires CmdsOk(s) && s'.scp == s.scp
    requires s'.log.statuses == s.log.statuses && s'.log.moved == s.log.moved
    ensures CmdsOk(s')
  {
    CmdsPermitted(s, s');
  }

  lemma StartCmds(cfg: Config, s: Driver, k: nat, dmaOk: bool)
    requires Tracked(s) && CmdsOk(s) && k < |s.place.inputQ|
    ensures Start(cfg, s, k, dmaOk).scp.Keys == s.scp.Keys
    ensures CmdsOk(Start(cfg, s, k, dmaOk))
  {
    hide CmdsOk, Permit, Launch;
    ClaimCmds(cfg, s, k);
    CmdsFrame(Claim(cfg, s, k), Start(cfg, s, k, dmaOk));
  }

  lemma StartCraft(cfg: Config, s: Driver, k: nat, dmaOk: bool)
    requires Tracked(s) && Craft(s) && s.place.selecting == null && s.place.connected == null
    requires k < |s.place.inputQ|
    ensures Start(cfg, s, k, dmaOk).scp.Keys == s.scp.Keys
    ensures Craft(Start(cfg, s, k, dmaOk))
  {
    hide CmdsOk, Paired, Permit, Launch;
    StartCmds(cfg, s, k, dmaOk);
    StartPairs(cfg, s, k, dmaOk);
    StartFrame(cfg, s, k, dmaOk);
  }

  lemma StartFrame(cfg: Config, s: Driver, k: nat, dmaOk: bool)
    requires k < |s.place.inputQ|
    ensures var s' := Start(cfg, s, k, dmaOk);
            s'.msgIn == s.msgIn && s'.place.state in {Selecting, RunningLevel2}
  {
    hide Permit;
  }

  lemma ExecuteBooks(p: Place, v: bool, log: Log, log': Log)
    requires Core(p) && Books(p, log)
    requires log' == log.(dma := log'.dma)
    ensures Books(Execute(p, v), log')
  {
    ExecuteSettles(p, v);
    forall u
      ensures Pending(Execute(p, v), u) == Pending(p, u)
    {
      ExecuteKeepsLine(p, v, u);
    }
    BooksMove(p, log, Execute(p, v), log');
  }

  lemma StartKeeps(cfg: Config, s: Driver, k: nat, dmaOk: bool)
    requires Base(s) && s.place.selecting == null && s.place.connected == null
    requires k < |s.place.inputQ| && k == FirstRunnable(s.place.inputQ, s.place.busy)
    ensures Inv(Start(cfg, s, k, dmaOk))
  {
    hide Craft, Books, Permit, Owned, CodeAgrees, OnePerUnit;
    var v, s' := ViaSelect(cfg, s, s.place.inputQ[k]), Start(cfg, s, k, dmaOk);
    assert s'.place == Execute(s.place, v);
    ExecuteSettles(s.place, v);
    StartCraft(cfg, s, k, dmaOk);
    ExecuteBooks(s.place, v, s.log, s'.log);
  }

  /** The scheduler turns what it finds into the full invariant. */
  lemma ScheduleKeeps(cfg: Config, s: Driver, dmaOk: bool)
    requires Base(s)
    ensures Inv(Schedule(cfg, s, dmaOk))
  {
    ExecuteSettles(s.place, true);
    var k := FirstRunnable(s.place.inputQ, s.place.busy);
    if s.place.selecting == null && s.place.connected == null && k < |s.place.inputQ| {
      StartKeeps(cfg, s, k, dmaOk);
    }
  }

  lemma AcceptInOrder(p: Place, log: Log, log': Log, c: Cmd, u: Unit)
    requires InOrder(p, log, u) && log'.live == log.live + [c] && log'.done == log.done
    ensures InOrder(Enqueue(p, c), log', u)
  {
    EnqueueKeepsLine(p, c, u);
    LineConcat(log.live, [c], u);
  }

  lemma AcceptBooks(p: Place, log: Log, log': Log, c: Cmd)
    requires Books(p, log) && Stock(Enqueue(p, c)) == Stock(p) + multiset{c}
    requires log'.submitted == log.submitted + [c] && log'.live == log.live + [c]
    requires log'.done == log.done && log'.dropped == log.dropped
    ensures Books(Enqueue(p, c), log')
  {
    forall u
      ensures InOrder(Enqueue(p, c), log', u)
    {
      AcceptInOrder(p, log, log', c, u);
    }
  }

  lemma AcceptCmds(s: Driver, c: Cmd, stale: Scp)
    requires CmdsOk(s)
    ensures CmdsOk(Accept(s, c, stale))
  {
    var s' := Accept(s, c, stale);
    BeginFlows(c.sg, stale);
    forall d | d in s'.scp
      ensures CmdOk(d, ScpOf(s', d), StatusesOf(s', d), MovedOf(s', d))
    {
      assert d != c ==> CmdOk(d, ScpOf(s, d), StatusesOf(s, d), MovedOf(s, d));
    }
  }

  lemma AcceptCraft(s: Driver, c: Cmd, stale: Scp)
    requires Craft(s) && c != s.place.connected
    ensures Craft(Accept(s, c, stale))
  {
    AcceptCmds(s, c, stale);
  }

  lemma ConnectedIsHeld(s: Driver)
    requires Tracked(s)
    ensures s.place.connected != null ==> s.place.connected in s.scp
    ensures s.place.selecting != null ==> s.place.selecting in s.scp
  {
    assert s.place.connected != null ==> s.place.connected in Stock(s.place);
    assert s.place.selecting != null ==> s.place.selecting in Stock(s.place);
  }

  lemma HeldOfStock(p: Place, p': Place, c: Cmd)
    requires Stock(p') == Stock(p) + multiset{c}
    ensures Held(p') == Held(p) + {c}
  {
    assert forall d :: d in Stock(p') <==> d in Stock(p) || d == c;
  }

  lemma AcceptKeeps(s: Driver, c: Cmd, stale: Scp)
    requires Base(s) && c !in Held(s.place)
    ensures Base(Accept(s, c, stale))
  {
    hide Owned, CodeAgrees, Books, Craft, Stock;
    EnqueueKeeps(s.place, c);
    HeldOfStock(s.place, Enqueue(s.place, c), c);
    AcceptBooks(s.place, s.log, Accept(s, c, stale).log, c);
    ConnectedIsHeld(s);
    AcceptCraft(s, c, stale);
  }

  lemma QueueKeeps(cfg: Config, s: Driver, c: Cmd, stale: Scp, dmaOk: bool)
    requires Inv(s) && c !in Held(s.place)
    ensures Inv(QueueCommand(cfg, s, c, stale, dmaOk))
  {
    AcceptKeeps(s, c, stale);
    ScheduleKeeps(cfg, Accept(s, c, stale), dmaOk);
  }

  // ----- letting go of a command -----

  lemma BagWithout(a: multiset<Cmd>, b: multiset<Cmd>, c: Cmd)
    requires a == b + multiset{c} && NoRepeats(a)
    ensures forall d :: d in b <==> d in a && d != c
  {
    assert a[c] == 1;
  }

  lemma HeldWithout(p: Place, p': Place, c: Cmd)
    requires Stock(p) == Stock(p') + multiset{c} && NoRepeats(Stock(p))
    ensures Held(p') == Held(p) - {c}
  {
    hide Stock, NoRepeats;
    BagWithout(Stock(p), Stock(p'), c);
  }

  lemma ReleaseCmds(s: Driver, c: Cmd, ending: Ending, result: Result)
    requires CmdsOk(s)
    ensures CmdsOk(Release(s, c, ending, result))
  {
    var s' := Release(s, c, ending, result);
    forall d | d in s'.scp
      ensures CmdOk(d, ScpOf(s', d), StatusesOf(s', d), MovedOf(s', d))
    {
      assert CmdOk(d, ScpOf(s, d), StatusesOf(s, d), MovedOf(s, d));
    }
  }

  lemma ReleaseLedger(p: Place, p': Place, log: Log, x: Completion)
    requires Ledger(p, log) && Stock(p) == Stock(p') + multiset{x.cmd}
    ensures Ledger(p', log.(done := log.done + [x]))
  {
    CmdsAppend(log.done, x);
  }

  lemma ReleaseReports(log: Log, x: Completion)
    requires (forall y :: y in log.done ==> WellReported(y)) && WellReported(x)
    ensures forall y :: y in log.done + [x] ==> WellReported(y)
  {
  }

  lemma FinishInOrder(p: Place, log: Log, log': Log, c: Cmd, x: Completion, u: Unit)
    requires Core(p) && (c == p.selecting || c == p.connected) && x.cmd == c && !x.ending.ByAbort?
    requires InOrder(p, log, u) && log'.done == log.done + [x] && log'.live == log.live
    ensures InOrder(Finish(p, c), log', u)
  {
    hide Line, Finish, Core, Pending;
    FinishKeepsLine(p, c, u);
    EndedAppend(log.done, x);
    LineConcat(Ended(log.done), [c], u);
  }

  lemma FinishBooks(p: Place, log: Log, log': Log, c: Cmd, x: Completion)
    requires Core(p) && (c == p.selecting || c == p.connected) && x.cmd == c && !x.ending.ByAbort?
    requires Books(p, log) && WellReported(x)
    requires log'.submitted == log.submitted && log'.live == log.live && log'.dropped == log.dropped
    requires log'.done == log.done + [x]
    ensures Books(Finish(p, c), log')
  {
    hide Core, Finish, WellReported, Stock, InOrder;
    FinishKeeps(p, c);
    ReleaseLedger(p, Finish(p, c), log, x);
    ReleaseReports(log, x);
    forall u
      ensures InOrder(Finish(p, c), log', u)
    {
      FinishInOrder(p, log, log', c, x, u);
    }
  }

  lemma CompleteKeeps(s: Driver, c: Cmd, ending: Ending, result: Result)
    requires Base(s) && !s.dmaOn && (c == s.place.selecting || c == s.place.connected)
    requires !ending.ByAbort? && WellReported(Completion(c, ending, result))
    ensures Base(Complete(s, c, ending, result))
  {
    hide WellReported, Books, CmdsOk, OnePerUnit, Units, Stock, CodeAgrees;
    var s1 := s.(place := Finish(s.place, c));
    FinishKeeps(s.place, c);
    HeldWithout(s.place, Finish(s.place, c), c);
    CmdsFrame(s, s1);
    ReleaseCmds(s1, c, ending, result);
    FinishBooks(s.place, s.log, Complete(s, c, ending, result).log, c, Completion(c, ending, result));
  }

  // ----- a command stays on the bus -----

  lemma CmdsUpdate(s: Driver, s': Driver, c: Cmd)
    requires CmdsOk(s) && s'.scp.Keys == s.scp.Keys
    requires forall d :: d in s.scp && d != c ==>
      ScpOf(s', d) == ScpOf(s, d) && StatusesOf(s', d) == StatusesOf(s, d) && MovedOf(s', d) == MovedOf(s, d)
    requires CmdOk(c, ScpOf(s', c), StatusesOf(s', c), MovedOf(s', c))
    ensures CmdsOk(s')
  {
    forall d | d in s'.scp
      ensures CmdOk(d, ScpOf(s', d), StatusesOf(s', d), MovedOf(s', d))
    {
      assert d != c ==> CmdOk(d, ScpOf(s, d), StatusesOf(s, d), MovedOf(s, d));
    }
  }

  lemma TransferredKeeps(s: Driver, c: Cmd, left: nat)
    requires Tracked(s) && CmdsOk(s) && c in s.scp && left <= ScpOf(s, c).thisResidual
    ensures Tracked(Transferred(s, c, left)) && CmdsOk(Transferred(s, c, left))
  {
    assert CmdOk(c, ScpOf(s, c), StatusesOf(s, c), MovedOf(s, c));
    AdvanceFlows(c.sg, ScpOf(s, c), MovedOf(s, c), left);
    CmdsUpdate(s, Transferred(s, c, left), c);
  }

  /** Any change of state code, message, position or negotiation of the connected command. */
  lemma BusyKeeps(s: Driver, s': Driver, code: Code)
    requires Inv(s) && s.place.connected != null && code !in {Unconnected, Selecting}
    requires s'.place == s.place.(state := code)
    requires s'.log == s.log.(dma := s'.log.dma, pio := s'.log.pio, sent := s'.log.sent,
                                   statuses := s'.log.statuses, moved := s'.log.moved)
    requires Tracked(s') && CmdsOk(s') && Paired(s') && InMessage(s'.msgIn)
    requires code == PreCmpDisc ==> ScpOf(s', s.place.connected).message == COMMAND_COMPLETE
    ensures Inv(s')
  {
    hide OnePerUnit, Units, Stock, Tracked, CmdsOk, Paired, Active, Line, InMessage, Ledger;
    CodeKeeps(s.place, code);
    BooksMove(s.place, s.log, s'.place, s'.log);
  }

  lemma StopDmaPairs(s: Driver, count: nat)
    requires Paired(s)
    ensures Paired(StopDma(s, count)) && !StopDma(s, count).dmaOn
  {
    if s.dmaOn {
      AlternateAppend(s.log.dma, Stop(s.place.connected));
    }
  }

  lemma StopDmaCmds(s: Driver, count: nat)
    requires Tracked(s) && CmdsOk(s) && (s.dmaOn ==> s.place.connected != null)
    requires s.dmaOn ==> count <= ScpOf(s, s.place.connected).thisResidual
    ensures Tracked(StopDma(s, count)) && CmdsOk(StopDma(s, count))
  {
    if s.dmaOn {
      hide CmdsOk, Stock;
      ConnectedIsHeld(s);
      TransferredKeeps(s, s.place.connected, count);
      CmdsFrame(Transferred(s, s.place.connected, count), StopDma(s, count));
    }
  }

  /** Interrupt entry. */
  lemma StopDmaKeeps(s: Driver, count: nat)
    requires Inv(s) && (s.dmaOn ==> count <= ScpOf(s, s.place.connected).thisResidual)
    ensures Inv(StopDma(s, count)) && !StopDma(s, count).dmaOn
  {
    hide Core, WorkConserving, Books, CmdsOk, Alternate, Tracked;
    StopDmaPairs(s, count);
    StopDmaCmds(s, count);
    BooksFrame(s.place, s.log, StopDma(s, count).log);
  }

  lemma BooksFrame(p: Place, log: Log, log': Log)
    requires Books(p, log)
    requires log' == log.(dma := log'.dma, pio := log'.pio, sent := log'.sent, statuses := log'.statuses,
                                 moved := log'.moved)
    ensures Books(p, log')
  {
    hide Line, Pending;
    BooksMove(p, log, p, log');
  }
}
