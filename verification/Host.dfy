/** The host adapter as the driver keeps it: linked queues through `host_scribble`, busy bytes,
    slots, message buffers and negotiation arrays, updated in place. Every entry point is
    proved to do to this state what Driver.Step does to its abstract value. */
module HostAdapter {
  import opened Basics
  import opened Commands
  import opened Placement
  import opened ScatterGather
  import opened Messages
  import opened Timing
  import opened Driver
  import opened Invariants
  import opened InvariantProofs
  import opened InterruptProofs
  import opened Runs
  import opened BusyBits
  import opened LinkedQueues
  import opened HostProofs

  /** `struct WD33C93_hostdata`. Its arrays are members of the structure, not objects of their
      own, so they are fields with a fixed length that are updated element by element. */
  class Host {
    const cfg: Config
    var busy: BusyBytes
    var inputQ: Cmd?
    var selecting: Cmd?
    var connected: Cmd?
    var disconnectedQ: Cmd?
    var state: Code
    var dmaRunning: bool
    var dmaDir: bool
    var incomingMsg: MsgBuf
    var incomingPtr: nat
    var outgoingMsg: MsgBuf
    var outgoingLen: nat
    var syncXfer: Xfers
    var syncStat: Stats
    ghost var model: Driver

    ghost predicate Queues()
      reads this`inputQ, this`disconnectedQ, this`model
      reads model.place.inputQ`hostScribble, model.place.disconnectedQ`hostScribble
    {
      Chain(inputQ, model.place.inputQ) && Chain(disconnectedQ, model.place.disconnectedQ)
    }

    ghost predicate Slots()
      reads this`selecting, this`connected, this`state, this`dmaRunning, this`dmaDir, this`model
    {
      && selecting == model.place.selecting && connected == model.place.connected
      && state == model.place.state && dmaRunning == model.dmaOn && dmaDir == model.dmaDir
    }

    ghost predicate Tables()
      reads this`syncStat, this`syncXfer, this`model
      reads this`incomingMsg, this`incomingPtr, this`outgoingMsg, this`outgoingLen
    {
      && syncStat == model.stat && syncXfer == model.xfer
      && incomingMsg == model.msgIn.buf && incomingPtr == model.msgIn.ptr
      && outgoingLen <= 8 && outgoingMsg[..outgoingLen] == model.outgoing
    }

    /** The fields hold what the abstract state says. */
    ghost predicate Couples()
      reads this, model.scp.Keys`scp, model.place.inputQ`hostScribble, model.place.disconnectedQ`hostScribble
    {
      && cfg.table[8].periodNs == 0 && cfg.defaultSxPer < U32
      && Queues() && Slots() && Tables() && Bits(busy, model.place.busy) && ScratchIs(model.scp)
    }

    ghost predicate Valid()
      reads this, model.scp.Keys`scp, model.place.inputQ`hostScribble, model.place.disconnectedQ`hostScribble
    {
      Couples() && Inv(model)
    }

    constructor (cfg: Config)
      requires cfg.table[8].periodNs == 0 && cfg.defaultSxPer < U32
      ensures Valid() && this.cfg == cfg && model == Initial(cfg)
    {
      hide Inv, Chain, Bits;
      this.cfg := cfg;
      inputQ, selecting, connected, disconnectedQ := null, null, null, null;
      state, dmaRunning, dmaDir, incomingPtr, outgoingLen := Unconnected, false, false, 0, 0;
      incomingMsg := [0, 0, 0, 0, 0, 0, 0, 0];
      model := Initial(cfg);
      new;
      Forget();
      InitialInv(cfg);
    }

    /** The lists and slots as the pointers have them: two separate lists without cycles, slots in
        neither of them, and a busy bit exactly for the unit of each started command. */
    ghost predicate OwnsSoundly(waiting: seq<Cmd>, parked: seq<Cmd>)
      reads this, waiting`hostScribble, parked`hostScribble
    {
      && Chain(inputQ, waiting) && Chain(disconnectedQ, parked)
      && (forall i, j :: 0 <= i < j < |waiting| ==> waiting[i] != waiting[j])
      && (forall i, j :: 0 <= i < j < |parked| ==> UnitOf(parked[i]) != UnitOf(parked[j]))
      && (forall c :: c in waiting ==> c !in parked)
      && (forall c :: c in Slot(selecting) + Slot(connected) ==> c !in waiting && c !in parked)
      && (selecting == null || connected == null)
      && Bits(busy, Units(Slot(selecting) + Slot(connected) + parked))
    }

    /** Between calls the pointer structure is sound, whatever stale links old commands keep. */
    lemma PointersAreSound()
      requires Valid()
      ensures OwnsSoundly(model.place.inputQ, model.place.disconnectedQ)
    {
      hide Books, Craft, Tracked, CodeAgrees, WorkConserving, Tables, ScratchIs, Chain;
      QueuesApart(model.place);
      ChainIsAcyclic(inputQ, model.place.inputQ);
      ParkedApart(model.place);
    }

    /** The loop that `init` and `host_reset` share: all targets idle and asynchronous. */
    method ResetTables()
      requires cfg.table[8].periodNs == 0
      modifies this`busy, this`syncXfer, this`syncStat
      ensures Bits(busy, {})
      ensures syncXfer == seq(8, _ => AsyncXfer(DEFAULT_SX_PER, cfg))
      ensures syncStat == seq(8, _ => SyncUnset)
    {
      for i := 0 to 8
        invariant forall j :: 0 <= j < i ==> busy[j] == 0
        invariant forall j :: 0 <= j < i ==> syncXfer[j] == AsyncXfer(DEFAULT_SX_PER, cfg)
        invariant forall j :: 0 <= j < i ==> syncStat[j] == SyncUnset
      {
        busy := busy[i := 0];
        var x := CalcSyncXfer(DEFAULT_SX_PER / 4, 0, false, cfg.table);
        syncXfer := syncXfer[i := x];
        syncStat := syncStat[i := SyncUnset];
      }
    }

    // ----- starting the next command -----

    predicate IsBusy(c: Cmd)
      reads this`busy
    {
      busy[c.id] & (1 << c.lun) != 0
    }

    lemma KnowBusy(c: Cmd)
      requires Bits(busy, model.place.busy)
      ensures IsBusy(c) <==> UnitOf(c) in model.place.busy
    {
      assert IsBusy(c) <==> On(busy[c.id], c.lun);
    }

    /** Walks the input queue to the first command of an idle unit. */
    method FindRunnable() returns (prev: Cmd?, cmd: Cmd?)
      requires Couples()
      ensures var k := FirstRunnable(model.place.inputQ, model.place.busy);
        && cmd == At(model.place.inputQ, k)
        && prev == if k == 0 then null else model.place.inputQ[k - 1]
    {
      hide Bits, IsBusy, FirstRunnable, ScratchIs, Slots, Tables;
      ghost var q := model.place.inputQ;
      cmd, prev := inputQ, null;
      ghost var k := 0;
      while cmd != null
        invariant k <= |q| && cmd == At(q, k)
        invariant prev == if k == 0 then null else q[k - 1]
        invariant forall i :: 0 <= i < k ==> UnitOf(q[i]) in model.place.busy
        decreases |q| - k
      {
        KnowBusy(cmd);
        if !IsBusy(cmd) {
          break;
        }
        prev := cmd;
        cmd := cmd.hostScribble;
        k := k + 1;
      }
      RunnableAt(q, model.place.busy, k);
    }

    /** Whether some waiting command is for another unit than `cmd`. */
    method AnyOtherUnit(cmd: Cmd, ghost rest: seq<Cmd>) returns (found: bool)
      requires Chain(inputQ, rest)
      ensures found <==> OthersWait(cmd, rest)
    {
      var d := inputQ;
      ghost var k := 0;
      while d != null
        invariant k <= |rest| && d == At(rest, k)
        invariant forall i :: 0 <= i < k ==> UnitOf(rest[i]) == UnitOf(cmd)
        decreases |rest| - k
      {
        if d.id != cmd.id || d.lun != cmd.lun {
          assert rest[k] in rest;
          return true;
        }
        d := d.hostScribble;
        k := k + 1;
      }
      return false;
    }

    /** Gives every waiting command permission to disconnect. */
    method MarkAll(ghost rest: seq<Cmd>)
      requires Chain(inputQ, rest)
      modifies rest`scp
      ensures forall d :: d in rest ==> d.scp == old(d.scp).(phase := true)
    {
      ChainIsAcyclic(inputQ, rest);
      var d := inputQ;
      ghost var k := 0;
      while d != null
        invariant k <= |rest| && d == At(rest, k)
        invariant Chain(inputQ, rest)
        invariant forall i :: 0 <= i < k ==> rest[i].scp == old(rest[i].scp).(phase := true)
        invariant forall i :: k <= i < |rest| ==> rest[i].scp == old(rest[i].scp)
        decreases |rest| - k
      {
        d.scp := d.scp.(phase := true);
        d := d.hostScribble;
        k := k + 1;
      }
    }

    /** Decides whether `cmd`, just taken off the input queue, may disconnect. */
    method SetPermission(cmd: Cmd, ghost rest: seq<Cmd>)
      requires Chain(inputQ, rest) && Chain(disconnectedQ, model.place.disconnectedQ) && ScratchIs(model.scp)
      requires cmd in model.scp && cmd !in rest && forall d :: d in rest ==> d in model.scp
      modifies model.scp.Keys`scp
      ensures ScratchIs(Permit(cfg, model, cmd, rest))
    {
      hide OthersWait;
      cmd.scp := cmd.scp.(phase := false);
      var yes := false;
      if cfg.policy == DisAlways {
        yes := true;
      } else if cfg.policy == DisAdaptive {
        if cmd.tape || disconnectedQ != null {
          yes := true;
        } else {
          yes := AnyOtherUnit(cmd, rest);
          if yes {
            MarkAll(rest);
          }
        }
      }
      if yes {
        cmd.scp := cmd.scp.(phase := true);
      }
    }

    /** From here on many methods make one small move, in the fields and in the model alike. */
    method GrantPermission(cmd: Cmd)
      requires Couples() && cmd in model.scp && cmd !in model.place.inputQ
      requires forall d :: d in model.place.inputQ ==> d in model.scp
      modifies this`model, model.scp.Keys`scp
      ensures Couples() && model == old(model).(scp := Permit(cfg, old(model), cmd, old(model.place.inputQ)))
      ensures model.scp.Keys == old(model.scp.Keys)
    {
      hide Chain, Bits, ScratchIs, Permit;
      SetPermission(cmd, model.place.inputQ);
      PermitMarks(cfg, model, cmd, model.place.inputQ);
      model := model.(scp := Permit(cfg, model, cmd, model.place.inputQ));
    }

    /** Command `k` leaves the input queue. */
    method UnlinkInput(prev: Cmd?, cmd: Cmd, ghost k: nat)
      requires Couples() && Apart(model)
      requires k < |model.place.inputQ| && cmd == model.place.inputQ[k]
      requires prev == if k == 0 then null else model.place.inputQ[k - 1]
      modifies this`inputQ, model.place.inputQ`hostScribble
      ensures Chain(inputQ, RemoveAt(model.place.inputQ, k)) && Chain(disconnectedQ, model.place.disconnectedQ)
      ensures Slots() && Tables() && Bits(busy, model.place.busy) && ScratchIs(model.scp)
    {
      hide RemoveAt, At, Slots, Tables, Bits, ScratchIs;
      inputQ := Unlink(inputQ, prev, cmd, model.place.inputQ, k);
      assert forall c :: c in model.place.disconnectedQ ==> c.hostScribble == old(c.hostScribble);
    }

    method TakeOff(prev: Cmd?, cmd: Cmd, ghost k: nat)
      requires Couples() && Apart(model) && k < |model.place.inputQ| && cmd == model.place.inputQ[k]
      requires prev == if k == 0 then null else model.place.inputQ[k - 1]
      modifies this`inputQ, this`model, model.place.inputQ`hostScribble
      ensures Couples() && model == old(model).(place := Withdraw(old(model.place), k))
    {
      hide RemoveAt, At, Chain, Bits, ScratchIs, Apart;
      UnlinkInput(prev, cmd, k);
      model := model.(place := Withdraw(model.place, k));
    }

    method MarkBusy(c: Cmd)
      requires Bits(busy, model.place.busy)
      modifies this`busy
      ensures Bits(busy, model.place.busy + {UnitOf(c)})
    {
      SetBits(busy, c, model.place.busy);
      busy := busy[c.id := busy[c.id] | (1 << c.lun)];
    }

    method TakeUnit(cmd: Cmd)
      requires Couples()
      modifies this`busy, this`model
      ensures Couples()
      ensures model == old(model).(place := old(model.place).(busy := old(model.place.busy) + {UnitOf(cmd)}))
    {
      hide Chain, Bits, ScratchIs, UnitOf;
      MarkBusy(cmd);
      model := model.(place := model.place.(busy := model.place.busy + {UnitOf(cmd)}));
    }

    /** A command gets the `selecting` slot. */
    method Pick(cmd: Cmd)
      requires Couples()
      modifies this`selecting, this`state, this`model
      ensures Couples() && model == old(model).(place := old(model.place).(selecting := cmd, state := Selecting))
    {
      hide Chain, Bits, ScratchIs;
      selecting := cmd;
      state := Selecting;
      model := model.(place := model.place.(selecting := cmd, state := Selecting));
    }

    method FirstContact(id: Target)
      requires Couples()
      modifies this`syncStat, this`model
      ensures Couples() && model == old(model).(stat := old(model.stat)[id := SyncFirst])
    {
      hide Chain, Bits, ScratchIs;
      syncStat := syncStat[id := SyncFirst];
      model := model.(stat := model.stat[id := SyncFirst]);
    }

    /** Starts `cmd`, which has its permission: Select-With-ATN, or Select-With-ATN-Xfer with DMA
        running from the start if the command may not disconnect. */
    method Launch(cmd: Cmd, dmaOk: bool)
      requires Couples() && cmd in model.scp
      modifies this`busy, this`selecting, this`connected, this`state, this`dmaRunning, this`dmaDir
      modifies this`syncStat, this`model
      ensures Couples() && model == Started(cfg, old(model), cmd, dmaOk)
    {
      hide Couples;
      TakeUnit(cmd);
      TablesOf();
      if cfg.level2 == L2_NONE || syncStat[cmd.id] == SyncUnset {
        Pick(cmd);
        TablesOf();
        if syncStat[cmd.id] == SyncUnset {
          FirstContact(cmd.id);
        }
      } else {
        Occupy(cmd, RunningLevel2);
        ScratchOf(cmd);
        if !cmd.scp.phase && !cfg.noDma && dmaOk {
          StartDmaEngine(cmd, !cmd.toDevice);
        }
      }
    }

    /** `wd33c93_execute`. */
    method StartNext(dmaOk: bool)
      requires Couples() && Base(model)
      modifies this, model.scp.Keys`scp, model.scp.Keys`hostScribble
      ensures Couples() && model == Schedule(cfg, old(model), dmaOk)
      ensures model.scp.Keys == old(model.scp.Keys)
    {
      hide Base, Couples, Start, Started, Permit, RemoveAt, FirstRunnable;
      SlotsOf();
      if selecting != null || connected != null {
        return;
      }
      BaseApart(model);
      var prev, cmd := FindRunnable();
      ghost var k := FirstRunnable(model.place.inputQ, model.place.busy);
      if cmd == null {
        return;
      }
      ghost var s := model;
      ApartWithout(model, k);
      InputIsAcyclic(k);
      TakeOff(prev, cmd, k);
      GrantPermission(cmd);
      Launch(cmd, dmaOk);
      StartedIsStart(cfg, s, k, dmaOk);
    }

    // ----- a new command -----

    /** The last command of the input queue gets a successor. */
    method AppendToInput(cmd: Cmd, ghost q: seq<Cmd>)
      requires Chain(inputQ, q) && inputQ != null && cmd !in q && cmd.hostScribble == null
      modifies q`hostScribble
      ensures Chain(inputQ, q + [cmd])
      ensures forall c :: c in q && c != q[|q| - 1] ==> c.hostScribble == old(c.hostScribble)
    {
      ChainIsAcyclic(inputQ, q);
      var tmp := inputQ;
      ghost var k := 0;
      while tmp.hostScribble != null
        invariant k < |q| && tmp == q[k]
        decreases |q| - k
      {
        tmp := tmp.hostScribble;
        k := k + 1;
      }
      tmp.hostScribble := cmd;
    }

    /** REQUEST SENSE goes to the head of the input queue, anything else to its tail. */
    method Insert(cmd: Cmd)
      requires Couples() && Apart(model) && cmd !in model.place.inputQ && cmd !in model.place.disconnectedQ
      requires cmd.hostScribble == null
      modifies this`inputQ, cmd`hostScribble, model.place.inputQ`hostScribble
      ensures Chain(inputQ, Enqueue(model.place, cmd).inputQ) && Chain(disconnectedQ, model.place.disconnectedQ)
      ensures Slots() && Tables() && Bits(busy, model.place.busy) && ScratchIs(model.scp)
    {
      hide Chain, At, Slots, Tables, Bits, ScratchIs;
      ChainIsEmpty(inputQ, model.place.inputQ);
      if inputQ == null || cmd.opcode == REQUEST_SENSE {
        cmd.hostScribble := inputQ;
        inputQ := cmd;
        Consed(cmd, model.place.inputQ);
      } else {
        AppendToInput(cmd, model.place.inputQ);
      }
      assert forall c :: c in model.place.disconnectedQ ==> c.hostScribble == old(c.hostScribble);
    }

    /** Fills the scratch area of a new command. */
    static method SetUp(cmd: Cmd)
      modifies cmd
      ensures cmd.hostScribble == null && cmd.result == Ongoing
      ensures cmd.scp == Begin(cmd.sg, old(cmd.scp))
    {
      cmd.hostScribble := null;
      cmd.result := Ongoing;
      if cmd.sg != [] {
        cmd.scp := cmd.scp.(buffer := 0, buffersResidual := |cmd.sg| - 1, ptr := cmd.sg[0].addr,
                            thisResidual := cmd.sg[0].len);
      } else {
        cmd.scp := cmd.scp.(buffer := 0, buffersResidual := 0, ptr := 0, thisResidual := 0);
      }
      cmd.scp := cmd.scp.(status := ILLEGAL_STATUS_BYTE);
    }

    /** A command that has been set up enters the input queue. */
    method Enter(cmd: Cmd, ghost stale: Scp)
      requires Couples() && Apart(model) && cmd !in model.place.inputQ && cmd !in model.place.disconnectedQ
      requires cmd.hostScribble == null && cmd.scp == Begin(cmd.sg, stale)
      modifies this`inputQ, this`model, cmd`hostScribble, model.place.inputQ`hostScribble
      ensures Couples() && model == Accept(old(model), cmd, stale)
    {
      hide Chain, Bits, Begin, Apart, ScratchIs, Enqueue;
      EnqueueFrame(model.place, cmd);
      Insert(cmd);
      ScratchWith(model.scp, cmd);
      model := Accept(model, cmd, stale);
    }

    /** `wd33c93_queuecommand`. */
    method Submit(cmd: Cmd, dmaOk: bool)
      requires Valid() && cmd !in Held(model.place)
      modifies this, cmd, model.scp.Keys`scp, model.scp.Keys`hostScribble
      ensures Valid() && model == QueueCommand(cfg, old(model), cmd, old(cmd.scp), dmaOk)
      ensures cmd.result == Ongoing
    {
      hide Couples, Core, Craft, Books, WorkConserving, Schedule, Held, Tracked;
      ghost var s, stale := model, cmd.scp;
      NotHeld(s, cmd);
      BaseApart(s);
      SetUp(cmd);
      Enter(cmd, stale);
      AcceptKeeps(s, cmd, stale);
      ScheduleKeeps(cfg, model, dmaOk);
      StartNext(dmaOk);
    }

    // ----- the interrupt handler -----

    /** The chip moved bytes for `cmd`; its counter is down to `left`. */
    method Progress(cmd: Cmd, left: nat)
      requires Couples() && cmd in model.scp
      modifies this`model, cmd`scp
      ensures Couples() && model == Transferred(old(model), cmd, left)
    {
      hide Chain, Bits;
      var length := cmd.scp.thisResidual;
      cmd.scp := cmd.scp.(thisResidual := left);
      cmd.scp := cmd.scp.(ptr := cmd.scp.ptr + length - cmd.scp.thisResidual);
      model := Transferred(model, cmd, left);
    }

    method SetScratch(cmd: Cmd, x: Scp)
      requires Couples() && cmd in model.scp
      modifies this`model, cmd`scp
      ensures Couples() && model == WithScp(old(model), cmd, x)
    {
      hide Chain, Bits;
      cmd.scp := x;
      model := WithScp(model, cmd, x);
    }

    method SetState(code: Code)
      requires Couples()
      modifies this`state, this`model
      ensures Couples() && model == WithCode(old(model), code)
    {
      hide Chain, Bits, ScratchIs;
      state := code;
      model := WithCode(model, code);
    }

    lemma ScratchOf(cmd: Cmd)
      requires Couples() && cmd in model.scp
      ensures cmd.scp == ScpOf(model, cmd)
    {
      ScratchAt(model.scp, cmd);
    }

    lemma InputIsAcyclic(k: nat)
      requires Couples() && k < |model.place.inputQ|
      ensures model.place.inputQ[k] !in RemoveAt(model.place.inputQ, k)
    {
      RestOfChain(inputQ, model.place.inputQ, k);
    }

    lemma SlotsOf()
      requires Couples()
      ensures Slots()
    {
    }

    lemma TablesOf()
      requires Couples()
      ensures Tables() && cfg.table[8].periodNs == 0 && cfg.defaultSxPer < U32
    {
    }

    /** Interrupt entry: a running DMA transfer is over, the chip's counter says how far it got. */
    method StopTransfer(count: nat)
      requires Couples() && (model.dmaOn ==> model.place.connected != null && model.place.connected in model.scp)
      modifies this`dmaRunning, this`model, model.scp.Keys`scp
      ensures Couples() && model == StopDma(old(model), count)
    {
      hide Couples, Advance;
      SlotsOf();
      if dmaRunning {
        StopDmaEngine();
        Progress(connected, count);
      }
    }

    /** `dma_stop` for the connected command. */
    method StopDmaEngine()
      requires Couples() && model.dmaOn && model.place.connected != null
      modifies this`dmaRunning, this`model
      ensures Couples()
      ensures var log := old(model.log);
        model == old(model).(dmaOn := false, log := log.(dma := log.dma + [Stop(old(model.place.connected))]))
    {
      hide Chain, Bits, ScratchIs;
      dmaRunning := false;
      model := model.(dmaOn := false, log := model.log.(dma := model.log.dma + [Stop(model.place.connected)]));
    }

    /** Every completion since `was` has been stored in its command. */
    ghost predicate Told(was: seq<Completion>)
      reads this`model, (set x | x in model.log.done :: x.cmd)`result
    {
      forall i :: |was| <= i < |model.log.done| ==> model.log.done[i].cmd.result == model.log.done[i].result
    }

    method ClearBusy(c: Cmd)
      requires Bits(busy, model.place.busy)
      modifies this`busy
      ensures Bits(busy, model.place.busy - {UnitOf(c)})
    {
      ClearBits(busy, c, model.place.busy);
      busy := busy[c.id := busy[c.id] & !(1 << c.lun)];
    }

    /** The unit of `cmd` is no longer busy. */
    method FreeUnit(cmd: Cmd)
      requires Couples()
      modifies this`busy, this`model
      ensures Couples()
      ensures model == old(model).(place := old(model.place).(busy := old(model.place.busy) - {UnitOf(cmd)}))
    {
      hide Chain, Bits, ScratchIs, UnitOf;
      ClearBusy(cmd);
      model := model.(place := model.place.(busy := model.place.busy - {UnitOf(cmd)}));
    }

    /** The slot that holds `cmd` becomes empty. */
    method Vacate(cmd: Cmd)
      requires Couples() && (cmd == selecting || cmd == connected)
      modifies this`selecting, this`connected, this`state, this`model
      ensures Couples()
      ensures model == old(model).(place := Finish(old(model.place), cmd).(busy := old(model.place.busy)))
    {
      hide Chain, Bits, ScratchIs;
      if cmd == connected {
        connected := null;
      } else {
        selecting := null;
      }
      state := Unconnected;
      model := model.(place := Finish(model.place, cmd).(busy := model.place.busy));
    }

    /** `scsi_done` for a command that is no longer in any place. */
    method Report(cmd: Cmd, ghost ending: Ending, result: Result)
      requires Couples()
      modifies this`model, cmd`result
      ensures Couples() && model == Release(old(model), cmd, ending, result)
      ensures cmd.result == result
    {
      hide Chain, Bits, ScratchIs;
      cmd.result := result;
      ScratchWithout(model.scp, cmd);
      model := Release(model, cmd, ending, result);
    }

    /** The command in one of the slots is over. */
    method Conclude(cmd: Cmd, ghost ending: Ending, result: Result)
      requires Couples() && (cmd == selecting || cmd == connected)
      modifies this`selecting, this`connected, this`busy, this`state, this`model, cmd`result
      ensures Couples() && model == Complete(old(model), cmd, ending, result)
      ensures cmd.result == result
    {
      hide Couples, Release;
      Vacate(cmd);
      FreeUnit(cmd);
      Report(cmd, ending, result);
    }

    // ----- commands that end -----

    /** The command in one of the slots is over, and the next one may start. */
    method Retire(cmd: Cmd, ghost ending: Ending, result: Result, dmaOk: bool)
      requires Couples() && (cmd == model.place.selecting || cmd == model.place.connected)
      requires cmd in model.scp && Base(Complete(model, cmd, ending, result))
      modifies this, cmd`result, model.scp.Keys`scp, model.scp.Keys`hostScribble
      ensures Couples() && model == Schedule(cfg, Complete(old(model), cmd, ending, result), dmaOk)
      ensures Told(old(model.log.done))
    {
      hide Couples, Base, Schedule, Finish;
      SlotsOf();
      ghost var s := model;
      Conclude(cmd, ending, result);
      StartNext(dmaOk);
      ScheduleReportsNothing(cfg, Complete(s, cmd, ending, result), dmaOk);
    }

    /** CSR_TIMEOUT. */
    method HandleTimeout(r: Chip)
      requires Couples() && Inv(model) && !model.dmaOn && model.place.state in {RunningLevel2, Selecting}
      modifies this, model.scp.Keys
      ensures Couples() && OnTimeout(cfg, old(model), r) == Ok(model)
      ensures Told(old(model.log.done))
    {
      hide Couples, Told, Tracked, Books, Craft, Owned, Schedule, Complete;
      SlotsOf();
      ConnectedIsHeld(model);
      var cmd := if state == RunningLevel2 then connected else selecting;
      CompleteKeeps(model, cmd, BySelectionTimeout, NoConnect);
      Retire(cmd, BySelectionTimeout, NoConnect, r.dmaOk);
    }

    /** CSR_SEL_XFER_DONE. */
    method HandleSelXferDone(r: Chip)
      requires Couples() && Inv(model) && !model.dmaOn && (r.phs == 0x60 ==> model.place.connected != null)
      modifies this, model.scp.Keys
      ensures Couples() && OnSelXferDone(cfg, old(model), r) == Ok(model)
      ensures Told(old(model.log.done))
    {
      hide Couples, Inv, Base, Schedule, Complete, ResultOf;
      SlotsOf();
      if r.phs == 0x60 {
        var cmd := connected;
        SlotsHeld(model);
        ScratchOf(cmd);
        var status := if cmd.scp.status == ILLEGAL_STATUS_BYTE then r.lunReg else cmd.scp.status;
        Level2Keeps(model, r);
        Retire(cmd, ByLevel2(StatusesOf(model, cmd), r.lunReg), ResultOf(cmd, COMMAND_COMPLETE, status), r.dmaOk);
      }
    }

    /** The connected command left the bus for good. */
    method HandleGone(ghost announced: bool, dmaOk: bool)
      requires Couples() && Inv(model) && !model.dmaOn && model.place.connected != null
      requires announced ==> model.place.state == PreCmpDisc
      modifies this, model.scp.Keys
      ensures Couples()
      ensures model == Schedule(cfg, Disconnected(old(model), old(model.place.connected), announced), dmaOk)
      ensures Told(old(model.log.done))
    {
      hide Couples, Inv, Base, Schedule, Complete, ResultOf;
      SlotsOf();
      var cmd := connected;
      SlotsHeld(model);
      ScratchOf(cmd);
      DisconnectedKeeps(model, announced);
      Retire(cmd, ByDisconnect(StatusesOf(model, cmd), cmd.scp.message, announced),
             ResultOf(cmd, cmd.scp.message, cmd.scp.status), dmaOk);
    }

    /** CSR_UNEXP_DISC. */
    method HandleUnexpDisc(r: Chip)
      requires Couples() && Inv(model) && !model.dmaOn
      modifies this, model.scp.Keys
      ensures Couples() && OnUnexpDisc(cfg, old(model), r) == Ok(model)
      ensures Told(old(model.log.done))
    {
      hide Couples, Inv, Schedule, Disconnected;
      SlotsOf();
      if connected == null {
        SetState(Unconnected);
        return;
      }
      HandleGone(false, r.dmaOk);
    }

    /** `cmd` becomes the head of the disconnected queue. */
    method PushDisconnected(cmd: Cmd)
      requires Couples() && cmd !in model.place.inputQ && cmd !in model.place.disconnectedQ
      modifies this`disconnectedQ, this`model, cmd`hostScribble
      ensures Couples()
      ensures model == old(model).(place := old(model.place).(disconnectedQ := [cmd] + old(model.place.disconnectedQ)))
    {
      hide Chain, Bits, ScratchIs;
      cmd.hostScribble := disconnectedQ;
      disconnectedQ := cmd;
      Consed(cmd, model.place.disconnectedQ);
      model := model.(place := model.place.(disconnectedQ := [cmd] + model.place.disconnectedQ));
    }

    method LeaveBus()
      requires Couples()
      modifies this`connected, this`state, this`model
      ensures Couples() && model == old(model).(place := old(model.place).(connected := null, state := Unconnected))
    {
      hide Chain, Bits, ScratchIs;
      connected := null;
      state := Unconnected;
      model := model.(place := model.place.(connected := null, state := Unconnected));
    }

    /** The connected command disconnects for the time being. */
    method ParkConnected()
      requires Couples() && model.place.connected != null
      requires model.place.connected !in model.place.inputQ && model.place.connected !in model.place.disconnectedQ
      modifies this`connected, this`disconnectedQ, this`state, this`model, model.place.connected`hostScribble
      ensures Couples() && model == old(model).(place := Park(old(model.place)))
    {
      hide Couples;
      SlotsOf();
      PushDisconnected(connected);
      LeaveBus();
    }

    /** CSR_DISC. */
    method HandleDisc(r: Chip)
      requires Couples() && Inv(model) && !model.dmaOn
      requires if model.place.connected == null then model.place.selecting == null
               else model.place.state in {PreCmpDisc, PreTmpDisc, RunningLevel2}
      modifies this, model.scp.Keys
      ensures Couples() && OnDisc(cfg, old(model), r) == Ok(model)
      ensures Told(old(model.log.done))
    {
      hide Couples, Inv, Base, Schedule, Disconnected, Park;
      SlotsOf();
      ghost var s := model;
      if connected == null {
        SetState(Unconnected);
        SlotsOf();
        IdleCode(s);
        InvIsBase(s);
      }
      if state == PreCmpDisc {
        HandleGone(true, r.dmaOk);
        return;
      } else if state in {PreTmpDisc, RunningLevel2} {
        SlotsHeld(s);
        ParkConnected();
        ParkedKeeps(s);
      } else {
        SetState(Unconnected);
      }
      StartNext(r.dmaOk);
      ScheduleReportsNothing(cfg, if s.place.connected == null then s else s.(place := Park(s.place)), r.dmaOk);
    }

    // ----- phases of the connected command -----

    /** CSR_SELECT, first half: the selecting command is connected. */
    method SlotUp()
      requires Couples()
      modifies this`connected, this`selecting, this`state, this`model
      ensures Couples() && model == old(model).(place := Selected(old(model.place)))
    {
      hide Chain, Bits, ScratchIs;
      connected := selecting;
      selecting := null;
      state := Connected;
      model := model.(place := Selected(model.place));
    }

    /** The messages after selection: IDENTIFY and, on first contact, SDTR. */
    method Compose(cmd: Cmd)
      requires Couples() && cmd in model.scp
      modifies this`outgoingMsg, this`outgoingLen
      ensures outgoingLen <= 8 && outgoingMsg[..outgoingLen] == Greeting(cfg, model, cmd)
    {
      hide Chain, Bits, SyncMsg, ScratchIs;
      ScratchAt(model.scp, cmd);
      outgoingMsg := outgoingMsg[0 := 0x80 + cmd.lun];
      if cmd.scp.phase {
        outgoingMsg := outgoingMsg[0 := outgoingMsg[0] + 0x40];
      }
      if syncStat[cmd.id] == SyncFirst {
        outgoingMsg := outgoingMsg[1 := EXTENDED_MESSAGE][2 := 3][3 := EXTENDED_SDTR];
        var sdtr := if cmd.id in cfg.noSync then SyncMsg(cfg.defaultSxPer, 0, false)
                    else SyncMsg(cfg.table[1].periodNs, OPTIMUM_SX_OFF, cfg.fast);
        outgoingMsg := outgoingMsg[4 := sdtr.0][5 := sdtr.1];
        outgoingLen := 6;
      } else {
        outgoingLen := 1;
      }
    }

    /** CSR_SELECT, second half. */
    method Greet(cmd: Cmd)
      requires Couples() && cmd in model.scp
      modifies this`outgoingMsg, this`outgoingLen, this`model
      ensures Couples() && model == old(model).(outgoing := Greeting(cfg, old(model), cmd))
    {
      hide Chain, Bits, ScratchIs, Greeting;
      Compose(cmd);
      model := model.(outgoing := Greeting(cfg, model, cmd));
    }

    /** After an SDTR of its own the driver waits for the answer. */
    method AwaitAnswer(cmd: Cmd)
      requires Couples()
      modifies this`syncStat, this`model
      ensures Couples()
      ensures model == old(model).(stat :=
        if old(model.stat)[cmd.id] == SyncFirst then old(model.stat)[cmd.id := SyncWaiting] else old(model.stat))
    {
      hide Chain, Bits, ScratchIs;
      if syncStat[cmd.id] == SyncFirst {
        syncStat := syncStat[cmd.id := SyncWaiting];
      }
      model := model.(stat := syncStat);
    }

    /** CSR_SELECT. */
    method HandleSelect()
      requires Couples() && Inv(model) && model.place.selecting != null
      modifies this
      ensures Couples() && OnSelect(cfg, old(model)) == Ok(model)
    {
      hide Couples, Inv, Greeting;
      SlotsHeld(model);
      SlotsOf();
      var cmd := selecting;
      ghost var s := model;
      SlotUp();
      Greet(cmd);
      AwaitAnswer(cmd);
      GreetingOf(cfg, s, s.(place := Selected(s.place)), cmd);
    }

    /** The phases DATA IN and DATA OUT. */
    method HandleData(dirIn: bool, r: Chip)
      requires Couples() && Inv(model) && model.place.connected != null
      modifies this, model.place.connected`scp
      ensures Couples() && OnData(cfg, old(model), dirIn, r) == Ok(model)
    {
      hide Couples, Inv, TransferBytes;
      SlotsOf();
      SlotsHeld(model);
      FlowOf(model);
      Transfer(connected, dirIn, r);
      SlotsOf();
      if state != RunningLevel2 {
        SetState(Connected);
      }
    }

    /** `transfer_bytes`. */
    method Transfer(cmd: Cmd, dirIn: bool, r: Chip)
      requires Couples() && cmd in model.scp && Flow(cmd.sg, ScpOf(model, cmd), MovedOf(model, cmd))
      modifies this`dmaRunning, this`dmaDir, this`state, this`model, cmd`scp
      ensures Couples() && model == TransferBytes(cfg, old(model), cmd, dirIn, r)
    {
      hide Couples, Total, Transferred, StartDma;
      ScratchOf(cmd);
      ghost var x := NextBuffer(cmd.sg, cmd.scp);
      ghost var s := model;
      if cmd.scp.thisResidual == 0 && cmd.scp.buffersResidual != 0 {
        var next := cmd.sg[cmd.scp.buffer + 1];
        SetScratch(cmd, cmd.scp.(buffer := cmd.scp.buffer + 1, buffersResidual := cmd.scp.buffersResidual - 1,
                                 thisResidual := next.len, ptr := next.addr));
      }
      SameScratch(s, cmd);
      assert model == WithScp(s, cmd, x);
      ScratchOf(cmd);
      if cmd.scp.thisResidual == 0 {
        return;
      }
      if cfg.noDma || !r.dmaOk {
        Progress(cmd, r.pioLeft);
        NotePio(cmd, dirIn);
      } else {
        StartDmaEngine(cmd, dirIn);
        if cfg.level2 >= L2_DATA || (cfg.level2 == L2_BASIC && !cmd.scp.phase) {
          SetState(RunningLevel2);
        }
      }
    }

    /** A successful `dma_setup`. */
    method StartDmaEngine(cmd: Cmd, dirIn: bool)
      requires Couples()
      modifies this`dmaRunning, this`dmaDir, this`model
      ensures Couples() && model == StartDma(old(model), cmd, dirIn)
    {
      hide Chain, Bits, ScratchIs;
      dmaRunning := true;
      dmaDir := dirIn;
      model := StartDma(model, cmd, dirIn);
    }

    ghost method NotePio(cmd: Cmd, dirIn: bool)
      requires Couples()
      modifies this`model
      ensures Couples()
      ensures var log := old(model.log); model == old(model).(log := log.(pio := log.pio + [PioCall(cmd, dirIn)]))
    {
      hide Chain, Bits, ScratchIs;
      model := model.(log := model.log.(pio := model.log.pio + [PioCall(cmd, dirIn)]));
    }

    /** The phase STATUS. */
    method HandleStatus(r: Chip)
      requires Couples() && Inv(model) && model.place.connected != null
      modifies this, model.place.connected`scp
      ensures Couples() && OnStatus(cfg, old(model), r) == Ok(model)
    {
      hide Couples, Inv;
      SlotsOf();
      SlotsHeld(model);
      var cmd := connected;
      ScratchOf(cmd);
      SetScratch(cmd, cmd.scp.(status := r.data));
      NoteStatus(cmd, r.data);
      if cfg.level2 >= L2_BASIC {
        SetState(RunningLevel2);
      } else {
        SetState(Connected);
      }
    }

    ghost method NoteStatus(cmd: Cmd, status: byte)
      requires Couples()
      modifies this`model
      ensures Couples()
      ensures var log := old(model.log);
        model == old(model).(log := log.(statuses := log.statuses[cmd := StatusesOf(old(model), cmd) + [status]]))
    {
      hide Chain, Bits, ScratchIs;
      model := model.(log := model.log.(statuses := model.log.statuses[cmd := StatusesOf(model, cmd) + [status]]));
    }

    /** Sends the prepared message, or NO OPERATION when there is none, as far as the target takes it. */
    method TakeMessage(left: nat) returns (sent: seq<byte>)
      requires Couples()
      modifies this`outgoingMsg, this`outgoingLen, this`model
      ensures Couples() && model == old(model).(outgoing := [])
      ensures sent == TakenOf(MessageOf(old(model)), left)
    {
      hide Chain, Bits, ScratchIs;
      if outgoingLen == 0 {
        outgoingLen := 1;
        outgoingMsg := outgoingMsg[0 := NOP];
      }
      sent := if left <= outgoingLen then outgoingMsg[..outgoingLen - left] else [];
      outgoingLen := 0;
      model := model.(outgoing := []);
    }

    ghost method NoteSent(to: Cmd?, bytes: seq<byte>)
      requires Couples()
      modifies this`model
      ensures Couples()
      ensures var log := old(model.log); model == old(model).(log := log.(sent := log.sent + [Sent(to, bytes)]))
    {
      hide Chain, Bits, ScratchIs;
      model := model.(log := model.log.(sent := model.log.sent + [Sent(to, bytes)]));
    }

    /** The phase MESSAGE OUT. */
    method HandleMessOut(r: Chip) returns (sent: seq<byte>)
      requires Couples()
      modifies this`outgoingMsg, this`outgoingLen, this`state, this`model
      ensures Couples() && OnMessOut(old(model), r) == Ok(model)
      ensures sent == TakenOf(MessageOf(old(model)), r.pioLeft)
      ensures model.log.sent == old(model.log.sent) + [Sent(old(model.place.connected), sent)]
    {
      hide Couples;
      sent := TakeMessage(r.pioLeft);
      NoteSent(model.place.connected, sent);
      SetState(Connected);
    }

    // ----- messages from the target -----

    /** One message byte is stored and noted. */
    method Collect(cmd: Cmd, b: byte) returns (msg: byte)
      requires Couples() && incomingPtr < 8 && cmd in model.scp
      modifies this`incomingMsg, this`incomingPtr, this`model, cmd`scp
      ensures Couples()
      ensures var buf := old(model.msgIn.buf)[old(model.msgIn.ptr) := b];
        var ext := buf[0] == EXTENDED_MESSAGE;
        && msg == (if ext then EXTENDED_MESSAGE else b)
        && model == Noted(old(model), cmd, msg, MsgIn(buf, if ext then old(model.msgIn.ptr) else 0))
    {
      hide Couples;
      msg := StoreByte(b);
      NoteMessage(cmd, msg);
    }

    method StoreByte(b: byte) returns (msg: byte)
      requires Couples() && incomingPtr < 8
      modifies this`incomingMsg, this`incomingPtr, this`model
      ensures Couples() && old(model.msgIn.ptr) < 8
      ensures var buf := old(model.msgIn.buf)[old(model.msgIn.ptr) := b];
        var ext := buf[0] == EXTENDED_MESSAGE;
        && msg == (if ext then EXTENDED_MESSAGE else b)
        && model == old(model).(msgIn := MsgIn(buf, if ext then old(model.msgIn.ptr) else 0))
    {
      hide Chain, Bits, ScratchIs;
      incomingMsg := incomingMsg[incomingPtr := b];
      msg := b;
      if incomingMsg[0] == EXTENDED_MESSAGE {
        msg := EXTENDED_MESSAGE;
      } else {
        incomingPtr := 0;
      }
      model := model.(msgIn := MsgIn(incomingMsg, incomingPtr));
    }

    method NoteMessage(cmd: Cmd, msg: byte)
      requires Couples() && cmd in model.scp
      modifies this`model, cmd`scp
      ensures Couples()
      ensures model == WithScp(old(model), cmd, ScpOf(old(model), cmd).(message := msg))
    {
      hide Chain, Bits;
      cmd.scp := cmd.scp.(message := msg);
      model := WithScp(model, cmd, ScpOf(model, cmd).(message := msg));
    }

    method SetIncoming(ptr: nat)
      requires Couples()
      modifies this`incomingPtr, this`model
      ensures Couples() && model == old(model).(msgIn := old(model.msgIn).(ptr := ptr))
    {
      hide Chain, Bits, ScratchIs;
      incomingPtr := ptr;
      model := model.(msgIn := model.msgIn.(ptr := ptr));
    }

    method Reject()
      requires Couples()
      modifies this`outgoingMsg, this`outgoingLen, this`model
      ensures Couples() && model == old(model).(outgoing := [MESSAGE_REJECT])
    {
      hide Chain, Bits, ScratchIs;
      outgoingMsg := outgoingMsg[0 := MESSAGE_REJECT];
      outgoingLen := 1;
      model := model.(outgoing := [MESSAGE_REJECT]);
    }

    /** The driver insists on 8-bit transfers. */
    method ReplyWdtr()
      requires Couples()
      modifies this`outgoingMsg, this`outgoingLen, this`model
      ensures Couples() && model == old(model).(outgoing := [EXTENDED_MESSAGE, 2, EXTENDED_WDTR, 0])
    {
      hide Chain, Bits, ScratchIs;
      outgoingMsg := outgoingMsg[0 := EXTENDED_MESSAGE][1 := 2][2 := EXTENDED_WDTR][3 := 0];
      outgoingLen := 4;
      model := model.(outgoing := [EXTENDED_MESSAGE, 2, EXTENDED_WDTR, 0]);
    }

    /** The driver insists on asynchronous transfers. */
    method ReplySdtr()
      requires Couples()
      modifies this`outgoingMsg, this`outgoingLen, this`model
      ensures Couples()
      ensures var sdtr := SyncMsg(cfg.defaultSxPer, 0, false);
        model == old(model).(outgoing := [EXTENDED_MESSAGE, 3, EXTENDED_SDTR, sdtr.0, sdtr.1])
    {
      hide Chain, Bits, ScratchIs, SyncMsg;
      var sdtr := SyncMsg(cfg.defaultSxPer, 0, false);
      outgoingMsg := outgoingMsg[0 := EXTENDED_MESSAGE][1 := 3][2 := EXTENDED_SDTR][3 := sdtr.0][4 := sdtr.1];
      outgoingLen := 5;
      model := model.(outgoing := [EXTENDED_MESSAGE, 3, EXTENDED_SDTR, sdtr.0, sdtr.1]);
    }

    /** The target's transfer register value and negotiation state are settled. */
    method Settle(id: Target, x: bv8)
      requires Couples()
      modifies this`syncXfer, this`syncStat, this`model
      ensures Couples()
      ensures model == old(model).(xfer := old(model.xfer)[id := x], stat := old(model.stat)[id := SyncSet])
    {
      hide Chain, Bits, ScratchIs;
      syncXfer := syncXfer[id := x];
      syncStat := syncStat[id := SyncSet];
      model := model.(xfer := model.xfer[id := x], stat := model.stat[id := SyncSet]);
    }

    /** `calc_sync_xfer` with the adapter's table. */
    method XferFor(period: nat, offset: nat, fast: bool) returns (x: bv8)
      requires Couples() && period < U32
      ensures Couples() && x == SyncXfer(period, offset, fast, cfg.table)
    {
      hide Bits, SyncXfer;
      x := CalcSyncXfer(period, offset, fast, cfg.table);
    }

    /** An extended message is complete. */
    method AnswerExtended(cmd: Cmd)
      requires Couples()
      modifies this`outgoingMsg, this`outgoingLen, this`syncXfer, this`syncStat, this`model
      ensures Couples() && model == OnExtended(cfg, old(model), cmd, old(model.msgIn.buf))
    {
      hide Couples, SyncXfer, SyncMsg;
      TablesOf();
      if incomingMsg[2] == EXTENDED_SDTR {
        var x := XferFor(cfg.defaultSxPer / 4, 0, false);
        if syncStat[cmd.id] != SyncWaiting {
          ReplySdtr();
        } else if incomingMsg[4] != 0 {
          x := XferFor(incomingMsg[3], incomingMsg[4], cfg.fast);
        } else if incomingMsg[3] != 0 {
          x := XferFor(incomingMsg[3], incomingMsg[4], false);
        }
        Settle(cmd.id, x);
      } else if incomingMsg[2] == EXTENDED_WDTR {
        ReplyWdtr();
      } else {
        Reject();
      }
    }

    /** A one-byte message. */
    method AnswerShort(cmd: Cmd, msg: byte)
      requires Couples()
      modifies this`outgoingMsg, this`outgoingLen, this`syncXfer, this`syncStat, this`state, this`model
      ensures Couples() && model == OnShort(cfg, old(model), cmd, msg)
    {
      hide Couples, SyncXfer;
      TablesOf();
      match msg
      case 0x00 =>
        SetState(PreCmpDisc);
      case 0x02 =>
        SetState(Connected);
      case 0x03 =>
        SetState(if cfg.level2 >= L2_BASIC then RunningLevel2 else Connected);
      case 0x04 =>
        SetState(PreTmpDisc);
      case 0x07 =>
        if syncStat[cmd.id] == SyncWaiting {
          var x := XferFor(cfg.defaultSxPer / 4, 0, false);
          Settle(cmd.id, x);
        }
        SetState(Connected);
      case _ =>
        Reject();
        SetState(Connected);
    }

    /** The phase MESSAGE IN. */
    method HandleMessIn(r: Chip)
      requires Couples() && Inv(model) && model.place.connected != null
      modifies this, model.place.connected`scp
      ensures Couples() && OnMessIn(cfg, old(model), r) == Ok(model)
    {
      hide Couples, Inv, OnExtended, OnShort;
      SlotsOf();
      TablesOf();
      SlotsHeld(model);
      InsideMessage(model);
      var cmd := connected;
      var msg := Collect(cmd, r.data);
      TablesOf();
      if msg != EXTENDED_MESSAGE {
        AnswerShort(cmd, msg);
      } else if incomingPtr >= 2 && incomingPtr - 1 == incomingMsg[1] {
        SetIncoming(0);
        AnswerExtended(cmd);
        SetState(Connected);
      } else {
        SetIncoming(incomingPtr + 1);
        SetState(Connected);
      }
    }

    // ----- reselection -----

    /** `cmd` becomes the head of the input queue. */
    method PushInput(cmd: Cmd)
      requires Couples() && cmd !in model.place.inputQ && cmd !in model.place.disconnectedQ
      modifies this`inputQ, this`model, cmd`hostScribble
      ensures Couples() && model == old(model).(place := old(model.place).(inputQ := [cmd] + old(model.place.inputQ)))
    {
      hide Chain, Bits, ScratchIs;
      cmd.hostScribble := inputQ;
      inputQ := cmd;
      Consed(cmd, model.place.inputQ);
      model := model.(place := model.place.(inputQ := [cmd] + model.place.inputQ));
    }

    method Deselect()
      requires Couples()
      modifies this`selecting, this`model
      ensures Couples() && model == old(model).(place := old(model.place).(selecting := null))
    {
      hide Chain, Bits, ScratchIs;
      selecting := null;
      model := model.(place := model.place.(selecting := null));
    }

    /** Walks the disconnected queue to the first command of the reselecting unit. */
    method FindDisconnected(u: Unit) returns (patch: Cmd?, cmd: Cmd?)
      requires Couples()
      ensures var k := Find(model.place.disconnectedQ, u);
        && cmd == At(model.place.disconnectedQ, k)
        && patch == if k == 0 then null else model.place.disconnectedQ[k - 1]
    {
      hide Bits, Slots, Tables, ScratchIs, Find;
      ghost var q := model.place.disconnectedQ;
      cmd, patch := disconnectedQ, null;
      ghost var k := 0;
      while cmd != null
        invariant k <= |q| && cmd == At(q, k)
        invariant patch == if k == 0 then null else q[k - 1]
        invariant forall i :: 0 <= i < k ==> UnitOf(q[i]) != u
        decreases |q| - k
      {
        if u.0 == cmd.id && u.1 == cmd.lun {
          break;
        }
        patch := cmd;
        cmd := cmd.hostScribble;
        k := k + 1;
      }
      FoundAt(q, u, k);
    }

    /** Command `k` leaves the disconnected queue. */
    method UnlinkDisconnected(patch: Cmd?, cmd: Cmd, ghost k: nat)
      requires Couples() && Apart(model)
      requires k < |model.place.disconnectedQ| && cmd == model.place.disconnectedQ[k]
      requires patch == if k == 0 then null else model.place.disconnectedQ[k - 1]
      modifies this`disconnectedQ, model.place.disconnectedQ`hostScribble
      ensures Chain(disconnectedQ, RemoveAt(model.place.disconnectedQ, k)) && Chain(inputQ, model.place.inputQ)
      ensures Slots() && Tables() && Bits(busy, model.place.busy) && ScratchIs(model.scp)
    {
      hide RemoveAt, At, Slots, Tables, Bits, ScratchIs;
      disconnectedQ := Unlink(disconnectedQ, patch, cmd, model.place.disconnectedQ, k);
      assert forall c :: c in model.place.inputQ ==> c.hostScribble == old(c.hostScribble);
    }

    method Unhook(patch: Cmd?, cmd: Cmd, ghost k: nat)
      requires Couples() && Apart(model)
      requires k < |model.place.disconnectedQ| && cmd == model.place.disconnectedQ[k]
      requires patch == if k == 0 then null else model.place.disconnectedQ[k - 1]
      modifies this`disconnectedQ, this`model, model.place.disconnectedQ`hostScribble
      ensures Couples()
      ensures var place := old(model.place);
        model == old(model).(place := place.(disconnectedQ := RemoveAt(place.disconnectedQ, k)))
    {
      hide RemoveAt, At, Chain, Bits, ScratchIs, Apart;
      UnlinkDisconnected(patch, cmd, k);
      model := model.(place := model.place.(disconnectedQ := RemoveAt(model.place.disconnectedQ, k)));
    }

    /** A command gets the `connected` slot. */
    method Occupy(cmd: Cmd, code: Code)
      requires Couples()
      modifies this`connected, this`state, this`model
      ensures Couples() && model == old(model).(place := old(model.place).(connected := cmd, state := code))
    {
      hide Chain, Bits, ScratchIs;
      connected := cmd;
      state := code;
      model := model.(place := model.place.(connected := cmd, state := code));
    }

    /** Command `k` of the disconnected queue is connected again. */
    method Reconnect(patch: Cmd?, cmd: Cmd, ghost k: nat)
      requires Couples() && Apart(model) && k < |model.place.disconnectedQ| && cmd == model.place.disconnectedQ[k]
      requires patch == if k == 0 then null else model.place.disconnectedQ[k - 1]
      modifies this`disconnectedQ, this`connected, this`state, this`model, model.place.disconnectedQ`hostScribble
      ensures Couples() && model == old(model).(place := Resume(old(model.place), k, ResumeCode(cfg)))
    {
      hide Couples, Apart, RemoveAt;
      Unhook(patch, cmd, k);
      Occupy(cmd, if cfg.level2 >= L2_RESELECT then RunningLevel2 else Connected);
    }

    /** A command that the reselection found in the way loses arbitration. */
    method Displace(r: Chip)
      requires Couples() && Inv(model)
      requires cfg.level2 > L2_NONE && model.place.connected != null ==> r.phs == 0
      modifies this`busy, this`selecting, this`inputQ, this`model, model.scp.Keys`hostScribble
      ensures Couples() && Apart(model)
      ensures var loser := Loser(old(model.place), cfg.level2 <= L2_NONE);
        model == if loser != null then old(model).(place := PutBack(old(model.place), loser)) else old(model)
    {
      hide Couples, Inv, PutBack, Apart;
      SlotsOf();
      SlotsHeld(model);
      InvIsBase(model);
      BaseApart(model);
      if cfg.level2 <= L2_NONE {
        if selecting != null {
          PutBackLoser(selecting);
        }
      } else if connected != null {
        PutBackLoser(connected);
      }
    }

    /** CSR_RESEL and CSR_RESEL_AM. */
    method HandleResel(r: Chip)
      requires Couples() && Inv(model)
      requires cfg.level2 > L2_NONE && model.place.connected != null ==> r.phs == 0
      modifies this, model.scp.Keys`hostScribble
      ensures Couples() && OnResel(cfg, old(model), r) == Ok(model)
    {
      hide Couples, Inv, Resume, ResumeCode, Find, PutBack, Loser, Apart, Answered;
      Displace(r);
      AnswerReselection(r.unit);
      ReselectSteps(cfg, old(model), r);
    }

    /** The first disconnected command of the unit, if there is one, is connected again. */
    method AnswerReselection(u: Unit)
      requires Couples() && Apart(model)
      modifies this`disconnectedQ, this`connected, this`state, this`model, model.scp.Keys`hostScribble
      ensures Couples() && model == old(model).(place := Answered(old(model.place), u, ResumeCode(cfg)))
    {
      hide Couples, Resume, ResumeCode, Find, Apart;
      DisconnectedHeld(model);
      var patch, cmd := FindDisconnected(u);
      if cmd != null {
        Reconnect(patch, cmd, Find(model.place.disconnectedQ, u));
      }
    }

    /** A command that lost arbitration goes back to the head of the input queue. */
    method PutBackLoser(cmd: Cmd)
      requires Couples() && Apart(model) && cmd in model.scp
      requires cmd !in model.place.inputQ && cmd !in model.place.disconnectedQ
      modifies this`busy, this`selecting, this`inputQ, this`model, cmd`hostScribble
      ensures Couples() && Apart(model) && model == old(model).(place := PutBack(old(model.place), cmd))
    {
      hide Couples;
      SlotsOf();
      if selecting == cmd {
        Deselect();
      }
      FreeUnit(cmd);
      PushInput(cmd);
    }

    // ----- entry points -----

    /** The `switch` on the SCSI status register. */
    method Dispatch(r: Chip)
      requires Couples() && Inv(model) && !model.dmaOn && Expected(cfg, model, r)
      modifies this, model.scp.Keys
      ensures Couples() && OnCause(cfg, old(model), r) == Ok(model)
      ensures Told(old(model.log.done))
    {
      hide Couples, Inv, Told, CauseOf, OnTimeout, OnSelect, OnData, OnStatus, OnMessIn, OnMessOut, OnSelXferDone,
        OnUnexpDisc, OnDisc, OnResel, Reselectable, Acceptable;
      SlotsHeld(model);
      ghost var s := model;
      match CauseOf(r.sr) {
        case Timeout =>
          StateCodes(s);
          HandleTimeout(r);
          return;
        case SelXferDone =>
          HandleSelXferDone(r);
          return;
        case UnexpDisc =>
          HandleUnexpDisc(r);
          return;
        case Disc =>
          HandleDisc(r);
          return;
        case Select =>
          HandleSelect();
        case DataIn =>
          HandleData(true, r);
        case DataOut =>
          HandleData(false, r);
        case Command =>
          SetState(Connected);
        case Status =>
          HandleStatus(r);
        case MessIn =>
          HandleMessIn(r);
        case MessOut =>
          var _ := HandleMessOut(r);
        case Sdp =>
          SetState(RunningLevel2);
        case Resel =>
          HandleResel(r);
        case Unknown =>
      }
      NothingDone(cfg, s, r);
      ToldNothing(s.log.done);
    }

    lemma ToldOne(was: seq<Completion>)
      requires |model.log.done| == |was| + 1
      requires model.log.done[|was|].cmd.result == model.log.done[|was|].result
      ensures Told(was)
    {
    }

    lemma ToldNothing(was: seq<Completion>)
      requires model.log.done == was
      ensures Told(was)
    {
    }

    /** `wd33c93_intr`. */
    method HandleInterrupt(r: Chip)
      requires Valid() && Plausible(model, Interrupt(r)) && Admissible(cfg, model, Interrupt(r))
      modifies this, model.scp.Keys
      ensures Valid() && Step(cfg, old(model), Interrupt(r)) == Ok(model)
      ensures Told(old(model.log.done))
    {
      hide Couples, Inv, Told, OnCause, StopDma, Expected, CauseOf, NextBuffer;
      if r.asr & 0x80 == 0 || r.asr & 0x20 != 0 {
        ToldNothing(model.log.done);
        return;
      }
      ghost var s := model;
      DmaNeedsConnected(s);
      SlotsHeld(s);
      StopTransfer(r.count);
      StopDmaKeeps(s, r.count);
      StopDmaFrame(s, r.count);
      StopDmaHolds(s, r.count);
      SameExpectation(cfg, s, model, r);
      Dispatch(r);
      InterruptKeeps(cfg, s, r);
    }

    /** Looks for a command in the input queue. */
    method FindInput(cmd: Cmd) returns (prev: Cmd?, tmp: Cmd?)
      requires Couples()
      ensures var k := IndexOf(model.place.inputQ, cmd);
        && tmp == At(model.place.inputQ, k)
        && prev == if k == 0 then null else model.place.inputQ[k - 1]
    {
      hide Bits, Slots, Tables, ScratchIs, IndexOf;
      ghost var q := model.place.inputQ;
      tmp, prev := inputQ, null;
      ghost var k := 0;
      while tmp != null
        invariant k <= |q| && tmp == At(q, k)
        invariant prev == if k == 0 then null else q[k - 1]
        invariant forall i :: 0 <= i < k ==> q[i] != cmd
        decreases |q| - k
      {
        if tmp == cmd {
          break;
        }
        prev := tmp;
        tmp := tmp.hostScribble;
        k := k + 1;
      }
      IndexAt(q, cmd, k);
    }

    /** Whether a command is in the disconnected queue. */
    method IsDisconnected(cmd: Cmd) returns (found: bool)
      requires Couples()
      ensures found <==> cmd in model.place.disconnectedQ
    {
      hide Bits, Slots, Tables, ScratchIs;
      ghost var q := model.place.disconnectedQ;
      var tmp := disconnectedQ;
      ghost var k := 0;
      while tmp != null
        invariant k <= |q| && tmp == At(q, k)
        invariant forall i :: 0 <= i < k ==> q[i] != cmd
        decreases |q| - k
      {
        if tmp == cmd {
          return true;
        }
        tmp := tmp.hostScribble;
        k := k + 1;
      }
      return false;
    }

    ghost method Withdrawn(cmd: Cmd)
      requires Couples()
      modifies this`model
      ensures Couples()
      ensures model == old(model).(log := old(model.log).(live := RemoveLast(old(model.log.live), cmd)))
    {
      hide Chain, Bits, ScratchIs, RemoveLast;
      model := model.(log := model.log.(live := RemoveLast(model.log.live, cmd)));
    }

    /** Case 1 of `wd33c93_abort`: the command is still waiting. */
    method AbortWaiting(prev: Cmd?, cmd: Cmd, ghost k: nat)
      requires Couples() && Apart(model) && k < |model.place.inputQ| && cmd == model.place.inputQ[k]
      requires prev == if k == 0 then null else model.place.inputQ[k - 1]
      modifies this`inputQ, this`model, cmd`result, model.scp.Keys`hostScribble
      ensures Couples() && model == Withdrawal(old(model), k)
      ensures Told(old(model.log.done))
    {
      hide Couples, RemoveAt, RemoveLast, Told;
      ApartWithout(model, k);
      InputIsAcyclic(k);
      TakeOff(prev, cmd, k);
      cmd.hostScribble := null;
      Withdrawn(cmd);
      Report(cmd, ByAbort, Aborted);
      ToldOne(old(model.log.done));
    }

    /** Case 2: the command is connected. */
    method AbortConnected(cmd: Cmd, dmaOk: bool)
      requires Valid() && cmd == model.place.connected && cmd !in model.place.inputQ
      modifies this, model.scp.Keys
      ensures Couples() && model == OnAbort(cfg, old(model), cmd, dmaOk)
      ensures Told(old(model.log.done))
    {
      hide Couples, Inv, Base, Complete, Schedule, IndexOf, RemoveLast, Told;
      SlotsOf();
      SlotsHeld(model);
      SeveredKeeps(model, cmd);
      if dmaRunning {
        StopDmaEngine();
      }
      Withdrawn(cmd);
      Retire(cmd, ByAbort, Aborted, dmaOk);
    }

    /** `wd33c93_abort`. */
    method AbortCommand(cmd: Cmd, dmaOk: bool) returns (success: bool)
      requires Valid()
      modifies this, model.scp.Keys
      ensures Valid() && model == OnAbort(cfg, old(model), cmd, dmaOk)
      ensures success <==> cmd in old(model.place.inputQ) || cmd == old(model.place.connected)
      ensures Told(old(model.log.done))
    {
      hide Couples, Inv, Told, IndexOf, OnAbort, RemoveAt, Apart, Withdrawal;
      AbortKeeps(cfg, model, cmd, dmaOk);
      var prev, tmp := FindInput(cmd);
      ghost var k := IndexOf(model.place.inputQ, cmd);
      SlotsOf();
      if tmp != null {
        WaitingAbort(cfg, model, k, dmaOk);
        AbortWaiting(prev, cmd, k);
        return true;
      }
      if connected == cmd {
        AbortConnected(cmd, dmaOk);
        return true;
      }
      AbortElsewhere(cmd, dmaOk);
      ToldNothing(old(model.log.done));
      return false;
    }

    /** Cases 3 and 4: the command is disconnected, or not to be found in any queue. */
    method AbortElsewhere(cmd: Cmd, dmaOk: bool)
      requires Valid() && cmd !in model.place.inputQ && cmd != model.place.connected
      modifies this, model.scp.Keys`scp, model.scp.Keys`hostScribble
      ensures Couples() && model == OnAbort(cfg, old(model), cmd, dmaOk)
      ensures model.log.done == old(model.log.done)
    {
      hide Couples, Inv, Base, IndexOf, Schedule, Complete, RemoveLast;
      var found := IsDisconnected(cmd);
      if !found {
        InvIsBase(model);
        ScheduleReportsNothing(cfg, model, dmaOk);
        StartNext(dmaOk);
      }
    }

    /** Everything the adapter knows about its commands and targets is forgotten. */
    method Forget()
      requires cfg.table[8].periodNs == 0
      modifies this`busy, this`syncXfer, this`syncStat, this`inputQ, this`selecting, this`connected, this`disconnectedQ,
        this`state, this`dmaRunning, this`incomingPtr, this`outgoingLen
      ensures Bits(busy, {}) && Chain(inputQ, []) && Chain(disconnectedQ, [])
      ensures syncXfer == seq(8, _ => AsyncXfer(DEFAULT_SX_PER, cfg)) && syncStat == seq(8, _ => SyncUnset)
      ensures selecting == null && connected == null && state == Unconnected && !dmaRunning
      ensures incomingPtr == 0 && outgoingLen == 0
    {
      ResetTables();
      inputQ, selecting, connected, disconnectedQ := null, null, null, null;
      state, dmaRunning := Unconnected, false;
      incomingPtr, outgoingLen := 0, 0;
    }

    /** `wd33c93_host_reset`. */
    method HostReset(cmd: Cmd)
      requires Valid()
      modifies this, cmd`result
      ensures Valid() && model == OnReset(cfg, old(model)) && cmd.result == WasReset
    {
      hide Inv, Bits, Chain, RemoveAll, Active, OnReset;
      ResetKeeps(cfg, model);
      ResetFrame(cfg, model);
      Forget();
      cmd.result := WasReset;
      model := OnReset(cfg, model);
    }
  }
}
