/** The permission to disconnect: who gets it, that a command keeps it until it is over, and where it
    shows: in the IDENTIFY message, and in DMA that is set up ahead of the data phase. */
module Permissions {
  import opened Basics
  import opened Commands
  import opened Placement
  import opened PlacementProofs
  import opened ScatterGather
  import opened Driver
  import opened Invariants
  import opened Runs
  import opened Starts

  /** Whoever is started gets permission to disconnect as the setting says: never, always, or exactly if
      it is for a tape, or some command is disconnected, or one that goes on waiting is for another unit. */
  lemma PermissionRule(cfg: Config, s: Driver, e: Event, c: Cmd)
    requires Inv(s) && Plausible(s, e) && Admissible(cfg, s, e)
    requires Step(cfg, s, e).Ok? && Started(s, Step(cfg, s, e).next, c)
    ensures var s' := Step(cfg, s, e).next;
            && (cfg.policy.DisNever? ==> !ScpOf(s', c).phase)
            && (cfg.policy.DisAlways? ==> ScpOf(s', c).phase)
            && (cfg.policy.DisAdaptive? ==>
                  (ScpOf(s', c).phase <==>
                     || c.tape || s'.place.disconnectedQ != []
                     || exists d :: d in s'.place.inputQ && (d.id != c.id || d.lun != c.lun)))
  {
    hide Inv, Base, Step, Schedule, Plausible, Admissible, Eased, RemoveAt, FirstRunnable, Started;
    var p := StepSplits(cfg, s, e);
    var k := StartIsTaken(cfg, s, e, p, c);
    SplitIsBase(cfg, s, e, p);
    ScheduleTakes(cfg, p, DmaOkOf(e), k);
    ScheduleFlags(cfg, p, DmaOkOf(e), k);
  }

  lemma SplitIsBase(cfg: Config, s: Driver, e: Event, p: Driver)
    requires Splits(cfg, s, e, p)
    ensures Base(p)
  {
    hide Base, Step;
  }

  /** A command is selected if every command is, or if its target has not been contacted; otherwise it is
      connected at once, and DMA is set up ahead exactly if it may not disconnect and DMA is possible. */
  lemma WayOfStart(cfg: Config, s: Driver, e: Event, c: Cmd)
    requires Inv(s) && Plausible(s, e) && Admissible(cfg, s, e)
    requires Step(cfg, s, e).Ok? && Started(s, Step(cfg, s, e).next, c)
    ensures var s' := Step(cfg, s, e).next;
            && s'.stat == (if s.stat[c.id] == SyncUnset then s.stat[c.id := SyncFirst] else s.stat)
            && (if cfg.level2 == 1 || s.stat[c.id] == SyncUnset then s'.place.selecting == c && !s'.dmaOn
                else
                  && s'.place.connected == c && s'.place.state == RunningLevel2
                  && (s'.dmaOn <==> !ScpOf(s', c).phase && !cfg.noDma && DmaOkOf(e))
                  && (s'.dmaOn ==>
                        s'.dmaDir == !c.toDevice && |s'.log.dma| > 0
                        && s'.log.dma[|s'.log.dma| - 1] == Setup(c, !c.toDevice)))
  {
    hide Inv, Base, Step, Schedule, Plausible, Admissible, Eased, RemoveAt, FirstRunnable, Started;
    var p := StepSplits(cfg, s, e);
    var k := StartIsTaken(cfg, s, e, p, c);
    SplitIsBase(cfg, s, e, p);
    ScheduleTakes(cfg, p, DmaOkOf(e), k);
  }

  /** From its start to its end a command keeps the permission that it was given. */
  lemma PermissionKept(cfg: Config, s: Driver, e: Event, c: Cmd)
    requires Inv(s) && Plausible(s, e) && Admissible(cfg, s, e) && Step(cfg, s, e).Ok?
    requires c in Active(s.place) && c in Active(Step(cfg, s, e).next.place)
    requires !(e.Queue? && e.cmd == c)
    ensures ScpOf(Step(cfg, s, e).next, c).phase == ScpOf(s, c).phase
  {
    hide Inv, Base, Step, Plausible, Admissible, RemoveAt, Permit, Lines, Active;
    var p := StepSplits(cfg, s, e);
    var s', k := Step(cfg, s, e).next, FirstRunnable(p.place.inputQ, p.place.busy);
    ActiveParts(p.place);
    ActiveParts(s'.place);
    if p.place.selecting == null && p.place.connected == null && k < |p.place.inputQ| {
      ScheduleTakes(cfg, p, DmaOkOf(e), k);
      ScheduleFlags(cfg, p, DmaOkOf(e), k);
      NotStartedAgain(cfg, s, e, p, k);
    }
  }

  // ----- where it shows -----

  /** The interrupt is pending, and the chip is not busy. */
  predicate Seen(r: Chip) {
    r.asr & 0x80 != 0 && r.asr & 0x20 == 0
  }

  /** After selection (0x11) the driver prepares IDENTIFY with the permission bit and the logical unit and,
      for a first contact, SDTR: with the default period and offset 0 for a target that must not be asked
      for synchronous transfer, otherwise with the second period of the table and offset 12. */
  lemma MessagesPrepared(cfg: Config, s: Driver, r: Chip)
    requires Inv(s) && Plausible(s, Interrupt(r)) && Admissible(cfg, s, Interrupt(r)) && Seen(r) && r.sr == 0x11
    ensures s.place.selecting != null && Step(cfg, s, Interrupt(r)).Ok?
    ensures var c, s' := s.place.selecting, Step(cfg, s, Interrupt(r)).next;
            var m, first := s'.outgoing, s.stat[c.id] == SyncFirst;
            && s'.place.connected == c && |m| == (if first then 6 else 1)
            && m[0] == 0x80 + (if ScpOf(s, c).phase then 0x40 else 0) + c.lun
            && s'.stat == (if first then s.stat[c.id := SyncWaiting] else s.stat)
            && (first ==>
                  && m[1] == 1 && m[2] == 3 && m[3] == 1
                  && (if c.id in cfg.noSync then m[4] == cfg.defaultSxPer / 4 % 256 && m[5] == 0
                      else m[4] == cfg.table[1].periodNs / 4 / (if cfg.fast then 2 else 1) % 256 && m[5] == 12))
  {
    hide Books, Craft, Tracked, WorkConserving, OnePerUnit, NoRepeats, Units;
    IdleStops(s, r.count);
  }

  lemma IdleStops(s: Driver, count: nat)
    requires Inv(s)
    ensures s.place.connected == null ==> !s.dmaOn && StopDma(s, count) == s
  {
  }

  /** `c` is the command being selected, throughout the run. */
  predicate SelectingThroughout(cfg: Config, s: Driver, es: seq<Event>, c: Cmd)
    decreases |es|
  {
    s.place.selecting == c &&
    (es == [] || (Step(cfg, s, es[0]).Ok? ==> SelectingThroughout(cfg, Step(cfg, s, es[0]).next, es[1..], c)))
  }

  lemma {:induction false} PermissionKeptRun(cfg: Config, s: Driver, es: seq<Event>, c: Cmd)
    requires Inv(s) && Obeys(cfg, s, es) && SelectingThroughout(cfg, s, es, c)
    ensures RunOf(cfg, s, es).Ok? && RunOf(cfg, s, es).next.place.selecting == c
    ensures ScpOf(RunOf(cfg, s, es).next, c).phase == ScpOf(s, c).phase && Inv(RunOf(cfg, s, es).next)
    decreases |es|
  {
    hide Inv, Step, Plausible, Admissible, Active;
    if es != [] {
      StepKeeps(cfg, s, es[0]);
      var s' := Step(cfg, s, es[0]).next;
      ActiveParts(s.place);
      ActiveParts(s'.place);
      SelectingNotQueued(cfg, s, es[0], c);
      PermissionKept(cfg, s, es[0], c);
      PermissionKeptRun(cfg, s', es[1..], c);
    }
  }

  lemma SelectingNotQueued(cfg: Config, s: Driver, e: Event, c: Cmd)
    requires s.place.selecting == c && Plausible(s, e)
    ensures !(e.Queue? && e.cmd == c)
  {
    hide CauseOf, NextBuffer;
    assert c in Stock(s.place);
  }

  /** A call starts the selection of `c`, and some calls later it succeeds: bit 0x40 of the IDENTIFY
      message is the permission that `c` was given when it was started. */
  lemma IdentifyTellsPermission(cfg: Config, s: Driver, es: seq<Event>, r: Chip, c: Cmd)
    requires Inv(s) && Obeys(cfg, s, es) && SelectingThroughout(cfg, s, es, c) && RunOf(cfg, s, es).Ok?
    requires var s1 := RunOf(cfg, s, es).next; Plausible(s1, Interrupt(r)) && Admissible(cfg, s1, Interrupt(r))
    requires Seen(r) && r.sr == 0x11
    ensures var o := Step(cfg, RunOf(cfg, s, es).next, Interrupt(r));
            && o.Ok? && o.next.outgoing != []
            && o.next.outgoing[0] == 0x80 + (if ScpOf(s, c).phase then 0x40 else 0) + c.lun
  {
    hide Inv, Step, Plausible, Admissible, Obeys, Seen;
    PermissionKeptRun(cfg, s, es, c);
    MessagesPrepared(cfg, RunOf(cfg, s, es).next, r);
  }
}
