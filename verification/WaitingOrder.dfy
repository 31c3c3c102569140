/** The order of the commands that wait: a REQUEST SENSE goes first, anything else last, those that go on
    waiting never change places, and no command overtakes another one of its unit. */
module WaitingOrder {
  import opened Basics
  import opened Commands
  import opened Placement
  import opened Driver
  import opened Invariants
  import opened Runs
  import opened Starts

  /** `c` is somewhere before `d`. */
  predicate Ahead(q: seq<Cmd>, c: Cmd, d: Cmd) {
    exists i, j :: 0 <= i < j < |q| && q[i] == c && q[j] == d
  }

  lemma RemoveKeepsOrder(q: seq<Cmd>, k: nat, c: Cmd, d: Cmd)
    requires k < |q| && Ahead(q, c, d) && c != q[k] && d != q[k]
    ensures Ahead(RemoveAt(q, k), c, d)
  {
    var i, j :| 0 <= i < j < |q| && q[i] == c && q[j] == d;
    var i', j' := if i < k then i else i - 1, if j < k then j else j - 1;
    assert RemoveAt(q, k)[i'] == c && RemoveAt(q, k)[j'] == d;
  }

  lemma ExtendKeepsOrder(a: seq<Cmd>, q: seq<Cmd>, b: seq<Cmd>, c: Cmd, d: Cmd)
    requires Ahead(q, c, d)
    ensures Ahead(a + q + b, c, d)
  {
    var i, j :| 0 <= i < j < |q| && q[i] == c && q[j] == d;
    assert (a + q + b)[|a| + i] == c && (a + q + b)[|a| + j] == d;
  }

  /** Before the scheduler looks at it, the order of the queue is as it was. */
  lemma LinesKeepOrder(q: seq<Cmd>, active: seq<Cmd>, e: Event, q': seq<Cmd>, c: Cmd, d: Cmd)
    requires Lines(q, active, e, q') && Ahead(q, c, d) && c in q' && d in q'
    requires forall k, l :: 0 <= k < l < |q| ==> q[k] != q[l]
    ensures Ahead(q', c, d)
  {
    hide Ahead;
    match e
    case Queue(x, _, _) =>
      ExtendKeepsOrder([x], q, [], c, d);
      ExtendKeepsOrder([], q, [x], c, d);
      assert [x] + q + [] == [x] + q && [] + q + [x] == q + [x];
    case Interrupt(_) =>
      if q' != q {
        ExtendKeepsOrder([q'[0]], q, [], c, d);
        assert [q'[0]] + q + [] == q';
      }
    case Abort(x, _) =>
      if q' != q {
        var k :| 0 <= k < |q| && q[k] == x && q' == RemoveAt(q, k);
        RemovedIsGone(q, k);
        RemoveKeepsOrder(q, k, c, d);
      }
    case Reset =>
  }

  lemma RemovedIsGone(q: seq<Cmd>, k: nat)
    requires k < |q| && forall i, j :: 0 <= i < j < |q| ==> q[i] != q[j]
    ensures q[k] !in RemoveAt(q, k)
  {
  }

  lemma QueueHasNoRepeats(s: Driver)
    requires Base(s)
    ensures forall i, j :: 0 <= i < j < |s.place.inputQ| ==> s.place.inputQ[i] != s.place.inputQ[j]
  {
    hide Books, Craft, Tracked, OnePerUnit, CodeAgrees;
    var q := s.place.inputQ;
    forall i, j | 0 <= i < j < |q|
      ensures q[i] != q[j]
    {
      TwiceCounts(q, i, j);
      assert q[j] in Stock(s.place) && multiset(q)[q[j]] <= Stock(s.place)[q[j]];
    }
  }

  lemma TwiceCounts(q: seq<Cmd>, i: nat, j: nat)
    requires i < j < |q|
    ensures q[i] == q[j] ==> multiset(q)[q[j]] >= 2
  {
    assert q == q[..j] + [q[j]] + q[j + 1..];
    assert q[i] in q[..j];
  }

  /** A REQUEST SENSE that is not started at once waits in front of everything else. */
  lemma SenseGoesFirst(cfg: Config, s: Driver, c: Cmd, stale: Scp, dmaOk: bool)
    requires Inv(s) && Plausible(s, Queue(c, stale, dmaOk)) && c.opcode == 0x03
    ensures var o := Step(cfg, s, Queue(c, stale, dmaOk));
            o.Ok? && (c in o.next.place.inputQ ==> o.next.place.inputQ[0] == c)
  {
    hide Inv, Base, Step, Schedule, Held, Fewer, RemoveAt, Fresh;
    var e := Queue(c, stale, dmaOk);
    var p := StepSplits(cfg, s, e);
    QueueHasNoRepeats(p);
    AfterSchedule(cfg, p, dmaOk);
  }

  /** Any other command that is not started at once waits behind everything else. */
  lemma OthersGoLast(cfg: Config, s: Driver, c: Cmd, stale: Scp, dmaOk: bool)
    requires Inv(s) && Plausible(s, Queue(c, stale, dmaOk)) && c.opcode != 0x03
    ensures var o := Step(cfg, s, Queue(c, stale, dmaOk));
            o.Ok? && (c in o.next.place.inputQ ==> o.next.place.inputQ[|o.next.place.inputQ| - 1] == c)
  {
    hide Inv, Base, Step, Schedule, Held, Fewer, RemoveAt, Fresh;
    var e := Queue(c, stale, dmaOk);
    var p := StepSplits(cfg, s, e);
    QueueHasNoRepeats(p);
    AfterSchedule(cfg, p, dmaOk);
  }

  /** The scheduler at most takes one command out of the queue, and the commands before that one are for
      busy units. */
  lemma AfterSchedule(cfg: Config, p: Driver, dmaOk: bool)
    requires Base(p)
    ensures var q, q', k := p.place.inputQ, Schedule(cfg, p, dmaOk).place.inputQ,
                            FirstRunnable(p.place.inputQ, p.place.busy);
            || q' == q
            || (k < |q| && q' == q[..k] + q[k + 1..] && q' == RemoveAt(q, k))
  {
    hide Base, Schedule;
    var k := FirstRunnable(p.place.inputQ, p.place.busy);
    ScheduleIdle(cfg, p, dmaOk);
    if p.place.selecting == null && p.place.connected == null && k < |p.place.inputQ| {
      ScheduleTakes(cfg, p, dmaOk, k);
    }
  }

  /** Two commands that go on waiting keep their order, whatever the call. */
  lemma OrderKept(cfg: Config, s: Driver, e: Event, c: Cmd, d: Cmd)
    requires Inv(s) && Plausible(s, e) && Admissible(cfg, s, e) && Step(cfg, s, e).Ok?
    requires Ahead(s.place.inputQ, c, d)
    requires c in Step(cfg, s, e).next.place.inputQ && d in Step(cfg, s, e).next.place.inputQ
    ensures Ahead(Step(cfg, s, e).next.place.inputQ, c, d)
  {
    hide Inv, Base, Step, Schedule, Plausible, Admissible, Lines, Fewer, Ahead, FirstRunnable, RemoveAt, Fresh;
    var p := StepSplits(cfg, s, e);
    InvIsBase(s);
    QueueHasNoRepeats(s);
    QueueHasNoRepeats(p);
    AfterSchedule(cfg, p, DmaOkOf(e));
    var q, q', k := p.place.inputQ, Step(cfg, s, e).next.place.inputQ, FirstRunnable(p.place.inputQ, p.place.busy);
    LinesKeepOrder(s.place.inputQ, Active(s.place), e, q, c, d);
    if q' != q {
      RemovedIsGone(q, k);
      RemoveKeepsOrder(q, k, c, d);
    }
  }

  /** No command is started while another one of its unit waits in front of it. */
  lemma NotOvertaken(cfg: Config, s: Driver, e: Event, c: Cmd, d: Cmd)
    requires Inv(s) && Plausible(s, e) && Admissible(cfg, s, e) && Step(cfg, s, e).Ok?
    requires Ahead(s.place.inputQ, c, d) && UnitOf(c) == UnitOf(d)
    requires c in Step(cfg, s, e).next.place.inputQ
    ensures d !in Active(Step(cfg, s, e).next.place)
  {
    hide Inv, Base, Step, Schedule, Plausible, Admissible, Fewer, RemoveAt, Fresh, Lines, Ahead, Active;
    var p := StepSplits(cfg, s, e);
    InvIsBase(s);
    AheadIsIn(s.place.inputQ, c, d);
    var s' := Step(cfg, s, e).next;
    if d in Active(s.place) {
      ActiveNotWaiting(s, d);
    }
    if Started(s, s', d) {
      var k := StartIsTaken(cfg, s, e, p, d);
      QueueHasNoRepeats(s);
      QueueHasNoRepeats(p);
      AfterSchedule(cfg, p, DmaOkOf(e));
      LinesKeepOrder(s.place.inputQ, Active(s.place), e, p.place.inputQ, c, d);
      AheadOfRunnable(p.place.inputQ, p.place.busy, c, d);
    }
  }

  lemma AheadIsIn(q: seq<Cmd>, c: Cmd, d: Cmd)
    requires Ahead(q, c, d)
    ensures c in q && d in q
  {
  }

  lemma AheadOfRunnable(q: seq<Cmd>, busy: set<Unit>, c: Cmd, d: Cmd)
    requires Ahead(q, c, d) && UnitOf(c) == UnitOf(d) && forall i, j :: 0 <= i < j < |q| ==> q[i] != q[j]
    requires FirstRunnable(q, busy) < |q|
    ensures q[FirstRunnable(q, busy)] != d
  {
    hide FirstRunnable;
    var i, j :| 0 <= i < j < |q| && q[i] == c && q[j] == d;
  }

  /** `c` waits throughout the run, and `d` is not submitted again. */
  predicate WaitsThroughout(cfg: Config, s: Driver, es: seq<Event>, c: Cmd, d: Cmd)
    decreases |es|
  {
    c in s.place.inputQ &&
    (es == [] ||
     (!(es[0].Queue? && es[0].cmd == d) &&
       (Step(cfg, s, es[0]).Ok? ==> WaitsThroughout(cfg, Step(cfg, s, es[0]).next, es[1..], c, d))))
  }

  /** `d` is not on its way, and if it waits, then behind `c`. */
  predicate Behind(p: Place, c: Cmd, d: Cmd) {
    d !in Active(p) && (d in p.inputQ ==> Ahead(p.inputQ, c, d))
  }

  /** A command that is not held is held after a call only if the call submits it. */
  lemma NotHeldByItself(cfg: Config, s: Driver, e: Event, d: Cmd)
    requires Inv(s) && Plausible(s, e) && Admissible(cfg, s, e) && Step(cfg, s, e).Ok?
    requires d !in Active(s.place) && d !in s.place.inputQ && !(e.Queue? && e.cmd == d)
    ensures d !in Active(Step(cfg, s, e).next.place) && d !in Step(cfg, s, e).next.place.inputQ
  {
    hide Inv, Base, Step, Schedule, Plausible, Admissible, RemoveAt, Fresh, Active;
    var p := StepSplits(cfg, s, e);
    AfterSchedule(cfg, p, DmaOkOf(e));
    LinesBringNone(s.place.inputQ, Active(s.place), e, p.place.inputQ, d);
    if Started(s, Step(cfg, s, e).next, d) {
      var k := StartIsTaken(cfg, s, e, p, d);
    }
  }

  lemma LinesBringNone(q: seq<Cmd>, active: seq<Cmd>, e: Event, q': seq<Cmd>, d: Cmd)
    requires Lines(q, active, e, q') && d !in q && d !in active && !(e.Queue? && e.cmd == d)
    ensures d !in q'
  {
    match e
    case Abort(x, _) =>
      if q' != q {
        var k :| 0 <= k < |q| && q[k] == x && q' == RemoveAt(q, k);
        RemoveAtKeeps(q, k);
      }
    case Interrupt(_) =>
      assert q' != q ==> q' == [q'[0]] + q;
    case _ =>
  }

  lemma StepBehind(cfg: Config, s: Driver, e: Event, c: Cmd, d: Cmd)
    requires Inv(s) && Plausible(s, e) && Admissible(cfg, s, e) && Step(cfg, s, e).Ok?
    requires UnitOf(c) == UnitOf(d) && c in Step(cfg, s, e).next.place.inputQ
    requires Behind(s.place, c, d) && !(e.Queue? && e.cmd == d)
    ensures Behind(Step(cfg, s, e).next.place, c, d)
  {
    hide Inv, Step, Plausible, Admissible, Ahead, Active;
    if d in s.place.inputQ {
      NotOvertaken(cfg, s, e, c, d);
      if d in Step(cfg, s, e).next.place.inputQ {
        OrderKept(cfg, s, e, c, d);
      }
    } else {
      NotHeldByItself(cfg, s, e, d);
    }
  }

  lemma {:induction false} StaysBehind(cfg: Config, s: Driver, es: seq<Event>, c: Cmd, d: Cmd)
    requires Inv(s) && Obeys(cfg, s, es) && WaitsThroughout(cfg, s, es, c, d)
    requires UnitOf(c) == UnitOf(d) && Behind(s.place, c, d)
    ensures RunOf(cfg, s, es).Ok? && Behind(RunOf(cfg, s, es).next.place, c, d)
    decreases |es|
  {
    hide Inv, Step, Plausible, Admissible, Behind;
    if es != [] {
      StepKeeps(cfg, s, es[0]);
      StepBehind(cfg, s, es[0], c, d);
      StaysBehind(cfg, Step(cfg, s, es[0]).next, es[1..], c, d);
    }
  }

  /** Sense data is not lost: when a REQUEST SENSE is submitted, no command of its unit that was waiting
      then is started as long as it waits itself, over any run. */
  lemma SenseRunsFirst(
      cfg: Config, s: Driver, c: Cmd, stale: Scp, dmaOk: bool, es: seq<Event>, d: Cmd)
    requires Inv(s) && Plausible(s, Queue(c, stale, dmaOk)) && c.opcode == 0x03
    requires d in s.place.inputQ && d.id == c.id && d.lun == c.lun
    requires var o := Step(cfg, s, Queue(c, stale, dmaOk));
             o.Ok? && Obeys(cfg, o.next, es) && WaitsThroughout(cfg, o.next, es, c, d)
    ensures var o := RunOf(cfg, Step(cfg, s, Queue(c, stale, dmaOk)).next, es);
            && o.Ok? && d !in Active(o.next.place)
            && (d in o.next.place.inputQ ==> Ahead(o.next.place.inputQ, c, d))
  {
    hide Inv, Step, Active, Ahead, Obeys, Plausible;
    var s1 := Step(cfg, s, Queue(c, stale, dmaOk)).next;
    StepKeeps(cfg, s, Queue(c, stale, dmaOk));
    SenseInFront(cfg, s, c, stale, dmaOk, d);
    StaysBehind(cfg, s1, es, c, d);
  }

  lemma SenseInFront(cfg: Config, s: Driver, c: Cmd, stale: Scp, dmaOk: bool, d: Cmd)
    requires Inv(s) && Plausible(s, Queue(c, stale, dmaOk)) && c.opcode == 0x03
    requires d in s.place.inputQ && UnitOf(d) == UnitOf(c)
    requires Step(cfg, s, Queue(c, stale, dmaOk)).Ok? && c in Step(cfg, s, Queue(c, stale, dmaOk)).next.place.inputQ
    ensures Behind(Step(cfg, s, Queue(c, stale, dmaOk)).next.place, c, d)
  {
    hide Inv, Base, Step, Active, Plausible, Schedule, Fewer, Fresh, Eased, FirstRunnable;
    var e := Queue(c, stale, dmaOk);
    var s1 := Step(cfg, s, e).next;
    var p := StepSplits(cfg, s, e);
    SenseGoesFirst(cfg, s, c, stale, dmaOk);
    QueuedIsNew(s, c, stale, dmaOk);
    InvIsBase(s);
    if d in Active(s.place) {
      ActiveNotWaiting(s, d);
    }
    if d in s1.place.inputQ {
      var j :| 0 <= j < |s1.place.inputQ| && s1.place.inputQ[j] == d;
      assert s1.place.inputQ[0] == c;
    }
    SplitLines(cfg, s, e, p);
    assert p.place.inputQ[0] == c;
    if Started(s, s1, d) {
      var k := StartIsTaken(cfg, s, e, p, d);
    }
  }

  lemma QueuedIsNew(s: Driver, c: Cmd, stale: Scp, dmaOk: bool)
    requires Plausible(s, Queue(c, stale, dmaOk))
    ensures c !in s.place.inputQ
  {
    assert forall d :: d in s.place.inputQ ==> d in Stock(s.place);
  }

  lemma SplitLines(cfg: Config, s: Driver, e: Event, p: Driver)
    requires Splits(cfg, s, e, p)
    ensures Lines(s.place.inputQ, Active(s.place), e, p.place.inputQ)
  {
    hide Step, Base, Fewer, Active, Lines;
  }
}
