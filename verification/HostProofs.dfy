/** Facts about single states and single moves that the host adapter's methods rely on. */
module HostProofs {
  import opened Basics
  import opened Commands
  import opened Placement
  import opened ScatterGather
  import opened Messages
  import opened Timing
  import opened Driver
  import opened Invariants
  import opened InvariantProofs
  import opened InterruptProofs

  lemma HeldApart(p: Place, c: Cmd)
    requires NoRepeats(Stock(p)) && c in Held(p)
    ensures c in p.inputQ ==> c !in p.disconnectedQ && c != p.selecting && c != p.connected
    ensures c in p.disconnectedQ ==> c != p.selecting && c != p.connected
    ensures c == p.connected ==> c != p.selecting
  {
    assert Stock(p)[c] == 1;
  }

  lemma ParkedApart(p: Place)
    requires OnePerUnit(Active(p))
    ensures forall i, j :: 0 <= i < j < |p.disconnectedQ| ==> UnitOf(p.disconnectedQ[i]) != UnitOf(p.disconnectedQ[j])
  {
    var k, a := |Slot(p.selecting) + Slot(p.connected)|, Active(p);
    forall i, j | 0 <= i < j < |p.disconnectedQ|
      ensures UnitOf(p.disconnectedQ[i]) != UnitOf(p.disconnectedQ[j])
    {
      assert a[k + i] == p.disconnectedQ[i] && a[k + j] == p.disconnectedQ[j];
    }
  }

  lemma QueuesApart(p: Place)
    requires NoRepeats(Stock(p))
    ensures forall c :: c in p.inputQ ==> c !in p.disconnectedQ && c in Held(p)
    ensures forall c :: c in p.disconnectedQ ==> c !in p.inputQ && c in Held(p)
    ensures forall c: Cmd | c == p.selecting || c == p.connected ::
      c !in p.inputQ && c !in p.disconnectedQ && c in Held(p)
  {
    forall c | c in p.inputQ || c in p.disconnectedQ || c == p.selecting || c == p.connected
      ensures c in Held(p)
    {
      assert c in Stock(p);
    }
    forall c | c in Held(p)
      ensures c in p.inputQ ==> c !in p.disconnectedQ && c != p.selecting && c != p.connected
      ensures c in p.disconnectedQ ==> c != p.selecting && c != p.connected
    {
      HeldApart(p, c);
    }
  }

  ghost predicate ScratchIs(scp: map<Cmd, Scp>)
    reads scp.Keys`scp
  {
    forall c :: c in scp ==> c.scp == scp[c]
  }

  lemma ScratchAt(scp: map<Cmd, Scp>, c: Cmd)
    requires ScratchIs(scp) && c in scp
    ensures c.scp == scp[c]
  {
  }

  /** The driver after `c`, taken off the input queue with its permission, has got the bus. */
  function Started(cfg: Config, m: Driver, c: Cmd, dmaOk: bool): Driver {
    var p := m.place.(busy := m.place.busy + {UnitOf(c)});
    if ViaSelect(cfg, m, c) then
      var m' := m.(place := p.(selecting := c, state := Selecting));
      if m.stat[c.id] == SyncUnset then m'.(stat := m.stat[c.id := SyncFirst]) else m'
    else
      var m' := m.(place := p.(connected := c, state := RunningLevel2));
      if !ScpOf(m, c).phase && !cfg.noDma && dmaOk then StartDma(m', c, !c.toDevice) else m'
  }

  lemma StartedIsStart(cfg: Config, m: Driver, k: nat, dmaOk: bool)
    requires k < |m.place.inputQ| && m.place.inputQ[k] in m.scp
    ensures var c, m' := m.place.inputQ[k], m.(place := Withdraw(m.place, k));
            Started(cfg, m'.(scp := Permit(cfg, m', c, m'.place.inputQ)), c, dmaOk) == Start(cfg, m, k, dmaOk)
    ensures Start(cfg, m, k, dmaOk).scp.Keys == m.scp.Keys
  {
    PermitMarks(cfg, m, m.place.inputQ[k], RemoveAt(m.place.inputQ, k));
  }

  lemma ResetFrame(cfg: Config, m: Driver)
    ensures var m' := OnReset(cfg, m);
            && m'.place == EMPTY && m'.scp == map[] && !m'.dmaOn && m'.dmaDir == m.dmaDir
            && m'.msgIn == m.msgIn.(ptr := 0)
            && m'.stat == seq(8, _ => SyncUnset) && m'.xfer == seq(8, _ => AsyncXfer(DEFAULT_SX_PER, cfg))
            && m'.outgoing == []
  {
    hide RemoveAll, Active;
  }

  lemma EnqueueFrame(p: Place, c: Cmd)
    ensures Enqueue(p, c) == p.(inputQ := Enqueue(p, c).inputQ)
  {
  }

  lemma ScratchWith(scp: map<Cmd, Scp>, c: Cmd)
    requires ScratchIs(scp)
    ensures ScratchIs(scp[c := c.scp])
  {
  }

  lemma ScratchWithout(scp: map<Cmd, Scp>, c: Cmd)
    requires ScratchIs(scp)
    ensures ScratchIs(scp - {c})
  {
  }

  lemma NotHeld(m: Driver, c: Cmd)
    requires Tracked(m) && c !in Held(m.place)
    ensures c !in m.scp && c !in m.place.inputQ && c !in m.place.disconnectedQ
    ensures c != m.place.selecting && c != m.place.connected
  {
    assert c !in Stock(m.place);
  }

  lemma ScheduleReportsNothing(cfg: Config, m: Driver, dmaOk: bool)
    ensures Schedule(cfg, m, dmaOk).log.done == m.log.done
  {
  }

  lemma InvIsBase(m: Driver)
    requires Inv(m)
    ensures Base(m)
  {
  }

  /** The commands in the slots are held, and in no queue. */
  lemma SlotsHeld(m: Driver)
    requires Inv(m)
    ensures forall c: Cmd | c == m.place.selecting || c == m.place.connected ::
      c in m.scp && c !in m.place.inputQ && c !in m.place.disconnectedQ
  {
    hide Books, Craft, OnePerUnit, CodeAgrees, WorkConserving;
    QueuesApart(m.place);
  }

  lemma DisconnectedHeld(m: Driver)
    requires Apart(m)
    ensures forall c :: c in m.place.disconnectedQ ==> c in m.scp
  {
  }

  lemma IdleCode(m: Driver)
    requires Inv(m) && m.place.connected == null && m.place.selecting == null
    ensures WithCode(m, Unconnected) == m
  {
  }

  lemma InsideMessage(m: Driver)
    requires Inv(m)
    ensures m.msgIn.ptr < 8 && (m.msgIn.ptr > 0 ==> m.msgIn.buf[0] == EXTENDED_MESSAGE)
  {
  }

  lemma FlowOf(m: Driver)
    requires Inv(m) && m.place.connected != null && m.place.connected in m.scp
    ensures Flow(m.place.connected.sg, ScpOf(m, m.place.connected), MovedOf(m, m.place.connected))
  {
    FlowKnown(m, m.place.connected);
  }

  lemma SameScratch(m: Driver, c: Cmd)
    requires c in m.scp
    ensures WithScp(m, c, ScpOf(m, c)) == m
  {
    assert m.scp[c := m.scp[c]] == m.scp;
  }

  lemma GreetingOf(cfg: Config, m: Driver, m': Driver, c: Cmd)
    requires m'.scp == m.scp && m'.stat == m.stat
    ensures Greeting(cfg, m', c) == Greeting(cfg, m, c)
  {
    hide SyncMsg;
  }

  /** A level-2 completion leaves everything in order but the idle bus. */
  lemma Level2Keeps(m: Driver, r: Chip)
    requires Inv(m) && !m.dmaOn && m.place.connected != null
    ensures var c := m.place.connected;
            var status := if ScpOf(m, c).status == ILLEGAL_STATUS_BYTE then r.lunReg else ScpOf(m, c).status;
            Base(Complete(m, c, ByLevel2(StatusesOf(m, c), r.lunReg), ResultOf(c, COMMAND_COMPLETE, status)))
  {
    hide Core, WorkConserving, Books, Finish, Schedule, CmdsOk, Paired, Tracked;
    var c := m.place.connected;
    ConnectedIsHeld(m);
    StatusKnown(m, c);
    var status := if ScpOf(m, c).status == ILLEGAL_STATUS_BYTE then r.lunReg else ScpOf(m, c).status;
    CompleteKeeps(m, c, ByLevel2(StatusesOf(m, c), r.lunReg), ResultOf(c, COMMAND_COMPLETE, status));
  }

  lemma {:induction false} FoundAt(q: seq<Cmd>, u: Unit, k: nat)
    requires k <= |q| && (forall i :: 0 <= i < k ==> UnitOf(q[i]) != u)
    requires k < |q| ==> UnitOf(q[k]) == u
    ensures Find(q, u) == k
    decreases k
  {
    if k > 0 {
      assert UnitOf(q[0]) != u;
      FoundAt(q[1..], u, k - 1);
    }
  }

  /** The driver after command `k` of the input queue has been taken back. */
  function Withdrawal(m: Driver, k: nat): Driver
    requires k < |m.place.inputQ|
  {
    var c := m.place.inputQ[k];
    Release(m.(place := Withdraw(m.place, k), log := m.log.(live := RemoveLast(m.log.live, c))), c, ByAbort, Aborted)
  }

  lemma WaitingAbort(cfg: Config, m: Driver, k: nat, dmaOk: bool)
    requires Inv(m) && k < |m.place.inputQ| && k == IndexOf(m.place.inputQ, m.place.inputQ[k])
    ensures Apart(m) && m.place.inputQ[k] in m.scp
    ensures OnAbort(cfg, m, m.place.inputQ[k], dmaOk) == Withdrawal(m, k)
  {
    hide RemoveLast, Core, Craft, Books, WorkConserving;
    BaseApart(m);
    ApartWithout(m, k);
  }

  /** Only four causes can end a command. */
  lemma NothingDone(cfg: Config, m: Driver, r: Chip)
    requires CauseOf(r.sr) !in {Timeout, SelXferDone, UnexpDisc, Disc}
    ensures OnCause(cfg, m, r).Ok? ==> OnCause(cfg, m, r).next.log.done == m.log.done
  {
    hide CauseOf, OnData, OnMessIn, Reselect, Greeting;
    MessInDone(cfg, m, r);
    DataDone(cfg, m, true, r);
    DataDone(cfg, m, false, r);
  }

  lemma MessInDone(cfg: Config, m: Driver, r: Chip)
    ensures OnMessIn(cfg, m, r).Ok? ==> OnMessIn(cfg, m, r).next.log.done == m.log.done
  {
    hide Assemble, SdtrXfer, SyncMsg;
  }

  lemma DataDone(cfg: Config, m: Driver, dirIn: bool, r: Chip)
    ensures OnData(cfg, m, dirIn, r).Ok? ==> OnData(cfg, m, dirIn, r).next.log.done == m.log.done
  {
    hide NextBuffer, Advance;
  }

  /** The place after a reselection has found out who it is. */
  function Answered(p: Place, u: Unit, code: Code): Place {
    var k := Find(p.disconnectedQ, u);
    if k == |p.disconnectedQ| then p else Resume(p, k, code)
  }

  lemma ReselectSteps(cfg: Config, m: Driver, r: Chip)
    requires cfg.level2 > L2_NONE && m.place.connected != null ==> r.phs == 0
    ensures var loser := Loser(m.place, cfg.level2 <= L2_NONE);
            var p := if loser != null then PutBack(m.place, loser) else m.place;
            OnResel(cfg, m, r) == Ok(m.(place := Answered(p, r.unit, ResumeCode(cfg))))
  {
    hide Resume, PutBack;
  }

  lemma StateCodes(m: Driver)
    requires Inv(m)
    ensures m.place.state == RunningLevel2 ==> m.place.connected != null
    ensures m.place.state == Selecting ==> m.place.selecting != null
  {
  }

  lemma StopDmaHolds(m: Driver, count: nat)
    requires m.dmaOn ==> m.place.connected != null && m.place.connected in m.scp
    ensures StopDma(m, count).scp.Keys == m.scp.Keys
    ensures StopDma(m, count).log.done == m.log.done
  {
  }

  lemma {:induction false} IndexAt(q: seq<Cmd>, c: Cmd, k: nat)
    requires k <= |q| && (forall i :: 0 <= i < k ==> q[i] != c)
    requires k < |q| ==> q[k] == c
    ensures IndexOf(q, c) == k
    decreases k
  {
    if k > 0 {
      assert q[0] != c;
      IndexAt(q[1..], c, k - 1);
    }
  }

  /** The two queues share no command, and the scratch areas of both are known. */
  predicate Apart(m: Driver) {
    && (forall c :: c in m.place.inputQ ==> c !in m.place.disconnectedQ && c in m.scp)
    && (forall c :: c in m.place.disconnectedQ ==> c in m.scp)
  }

  lemma ApartWithout(m: Driver, k: nat)
    requires Apart(m) && k < |m.place.inputQ|
    ensures Apart(m.(place := Withdraw(m.place, k)))
    ensures m.place.inputQ[k] in m.scp && m.place.inputQ[k] !in m.place.disconnectedQ
  {
    RemoveAtKeeps(m.place.inputQ, k);
  }

  lemma BaseApart(m: Driver)
    requires Base(m)
    ensures Apart(m)
  {
    hide Books, Craft, OnePerUnit, CodeAgrees;
    QueuesApart(m.place);
  }

  lemma {:induction false} RunnableAt(q: seq<Cmd>, busy: set<Unit>, k: nat)
    requires k <= |q| && (forall i :: 0 <= i < k ==> UnitOf(q[i]) in busy)
    requires k < |q| ==> UnitOf(q[k]) !in busy
    ensures FirstRunnable(q, busy) == k
    decreases k
  {
    if k > 0 {
      assert UnitOf(q[0]) in busy;
      RunnableAt(q[1..], busy, k - 1);
    }
  }
}
