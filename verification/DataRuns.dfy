/** What every run of the data path delivers. */
module DataRuns {
  import opened Basics
  import opened Commands
  import opened ScatterGather
  import opened BounceDma
  import opened DataPath
  import opened DataProofs

  function RunOf(s: Path, es: seq<Event>): Outcome
    decreases |es|
  {
    if es == [] then Fine(s) else
    match Step(s, es[0])
    case Fine(next) => RunOf(next, es[1..])
    case Stray => Stray
  }

  ghost predicate Obeys(s: Path, es: seq<Event>)
    decreases |es|
  {
    es == [] || (Legal(s, es[0]) && (Step(s, es[0]).Fine? ==> Obeys(Step(s, es[0]).next, es[1..])))
  }

  function Fresh(ram: seq<byte>, dirIn: bool): Path {
    Path(Dma(ram, NoBuffer, 0, dirIn), Idle, map[], map[])
  }

  lemma FreshIsGood(ram: seq<byte>, dirIn: bool)
    ensures Good(Fresh(ram, dirIn))
  {
  }

  lemma {:induction false} RunKeeps(s: Path, es: seq<Event>)
    requires Good(s) && Obeys(s, es)
    ensures RunOf(s, es).Fine? && Good(RunOf(s, es).next)
    decreases |es|
  {
    hide Good, Legal, Step;
    if es != [] {
      StepKeeps(s, es[0]);
      RunKeeps(Step(s, es[0]).next, es[1..]);
    }
  }

  /** No run strays from memory, and in its last state every byte of every held command that is
      accounted for is the same in memory as on the bus, in order; the command's `ptr` is where
      the next one belongs, and between transfers every byte on the bus is accounted for. */
  lemma SameStream(ram: seq<byte>, dirIn: bool, es: seq<Event>, c: Cmd)
    requires Obeys(Fresh(ram, dirIn), es)
    ensures var o := RunOf(Fresh(ram, dirIn), es);
            o.Fine? && (c in o.next.scp ==> Delivered(o.next, c))
  {
    hide Agrees, EngineOk;
    FreshIsGood(ram, dirIn);
    RunKeeps(Fresh(ram, dirIn), es);
    var s := RunOf(Fresh(ram, dirIn), es).next;
    if c in s.scp {
      AgreesDelivers(s, c);
    }
  }

  predicate Delivered(s: Path, c: Cmd) {
    var n, x := Settled(s, c), ScpAt(s, c);
    && 0 <= n <= |WireOf(s, c)| && n + x.thisResidual <= Total(c.sg)
    && (forall i :: 0 <= i < n ==> Holds(s.dma.ram, c, i, WireOf(s, c)[i]))
    && (x.thisResidual > 0 ==> x.ptr == AddrOf(c.sg, n))
    && (s.engine.Idle? ==> n == |WireOf(s, c)|)
  }

  lemma AgreesDelivers(s: Path, c: Cmd)
    requires Mirrors(s, c)
    ensures Delivered(s, c)
  {
    hide Flow, AddrOf;
    var n := Settled(s, c);
    FlowBound(c.sg, ScpAt(s, c), n);
    if ScpAt(s, c).thisResidual > 0 {
      Current(c.sg, ScpAt(s, c), n, 0);
    }
    forall i | 0 <= i < n
      ensures Holds(s.dma.ram, c, i, WireOf(s, c)[i])
    {
      assert WireOf(s, c)[i] == WireOf(s, c)[..n][i];
    }
  }

  /** On every run a bounce buffer is live exactly while a transfer is running whose address is not a
      multiple of 4, the engine works on it exactly then, and it is the least multiple of 512 bytes
      that holds the transfer. */
  lemma BounceLifetime(ram: seq<byte>, dirIn: bool, es: seq<Event>, m: nat)
    requires Obeys(Fresh(ram, dirIn), es)
    ensures RunOf(Fresh(ram, dirIn), es).Fine?
    ensures var s := RunOf(Fresh(ram, dirIn), es).next;
            && (s.dma.bounce.Buffer? <==> s.engine.Running? && ScpAt(s, s.engine.cmd).ptr % 4 != 0)
            && (s.engine.Running? ==> (s.engine.viaBounce <==> ScpAt(s, s.engine.cmd).ptr % 4 != 0))
            && (s.dma.bounce.Buffer? ==>
                  var n := ScpAt(s, s.engine.cmd).thisResidual;
                  && |s.dma.bounce.bytes| == s.dma.bounceLen >= n && s.dma.bounceLen % 512 == 0
                  && (m % 512 == 0 && m >= n ==> s.dma.bounceLen <= m))
            && (s.dma.bounce.NoBuffer? ==> s.dma.bounceLen == 0)
  {
    hide RoundUp, Mirrors, Layout, Shows;
    FreshIsGood(ram, dirIn);
    RunKeeps(Fresh(ram, dirIn), es);
    var s := RunOf(Fresh(ram, dirIn), es).next;
    if s.engine.Running? {
      LeastMultiple(ScpAt(s, s.engine.cmd).thisResidual, m);
    }
  }

  // ----- memory outside the transfers -----

  /** `addr` is a place that a held command may still receive a byte into. */
  ghost predicate Awaiting(s: Path, addr: nat) {
    exists c, i: nat ::
      c in s.scp && !c.toDevice && Settled(s, c) <= i < Total(c.sg) && AddrOf(c.sg, i) == addr
  }

  lemma BufferAwaits(s: Path, c: Cmd, x: Scp, k: nat)
    requires c in s.scp && !c.toDevice && 0 <= Settled(s, c) && Flow(c.sg, x, Settled(s, c)) && k < x.thisResidual
    ensures Awaiting(s, x.ptr + k)
  {
    hide Flow, AddrOf;
    Current(c.sg, x, Settled(s, c), k);
  }

  lemma ProgrammedWrites(s: Path, c: Cmd, b: Burst, addr: nat)
    requires Good(s) && s.engine.Idle? && c in s.scp && Heading(c, b) && addr < |s.dma.ram|
    requires Programmed(s, c, b).Fine? && Programmed(s, c, b).next.dma.ram[addr] != s.dma.ram[addr]
    ensures Awaiting(s, addr)
  {
    hide Good, Awaiting, Flow;
    Known(s, c);
    BufferAwaits(s, c, ScpAt(s, c), addr - ScpAt(s, c).ptr);
  }

  lemma MovedWrites(s: Path, b: Burst, addr: nat)
    requires Good(s) && s.engine.Running? && Legal(s, Move(b)) && addr < |s.dma.ram|
    requires Moved(s, b).Fine? && |Moved(s, b).next.dma.ram| == |s.dma.ram|
    requires Moved(s, b).next.dma.ram[addr] != s.dma.ram[addr]
    ensures Awaiting(s, addr)
  {
    hide Good, Awaiting, Flow;
    EngineHeld(s);
    Known(s, s.engine.cmd);
    BufferAwaits(s, s.engine.cmd, ScpAt(s, s.engine.cmd), addr - ScpAt(s, s.engine.cmd).ptr);
  }

  lemma HaltedWrites(s: Path, addr: nat)
    requires Good(s) && s.engine.Running? && addr < |s.dma.ram|
    requires Halted(s).Fine? && Halted(s).next.dma.ram[addr] != s.dma.ram[addr]
    ensures Awaiting(s, addr)
  {
    hide Good, Awaiting, Flow;
    EngineHeld(s);
    Known(s, s.engine.cmd);
    HaltedRam(s);
    BufferAwaits(s, s.engine.cmd, ScpAt(s, s.engine.cmd), addr - ScpAt(s, s.engine.cmd).ptr);
  }

  lemma TransferWrites(s: Path, c: Cmd, dirIn: bool, noDma: bool, mallocOk: bool, blank: seq<byte>, b: Burst, addr: nat)
    requires Good(s) && Legal(s, Transfer(c, dirIn, noDma, mallocOk, blank, b)) && addr < |s.dma.ram|
    requires TransferBytes(s, c, dirIn, noDma, mallocOk, blank, b).Fine?
    ensures var ram' := TransferBytes(s, c, dirIn, noDma, mallocOk, blank, b).next.dma.ram;
            |ram'| == |s.dma.ram| && (ram'[addr] != s.dma.ram[addr] ==> Awaiting(s, addr))
  {
    hide Good, Awaiting, Started, Programmed, NextBuffer, RoundUp;
    var s1 := NextBufferOf(s, c);
    NextBufferKeeps(s, c);
    if ScpAt(s1, c).thisResidual != 0 {
      if noDma {
        ProgrammedAwaits(s, s1, c, b, addr);
      } else {
        StartedKeeps(s1, c, mallocOk, blank);
        var s2 := Started(s1, c, dirIn, mallocOk, blank).next;
        if s2.engine.Idle? {
          ProgrammedAwaits(s, s2, c, b, addr);
        }
      }
    }
  }

  /** The same after the next buffer has been taken up. */
  lemma ProgrammedAwaits(s: Path, s1: Path, c: Cmd, b: Burst, addr: nat)
    requires Good(s1) && s1.engine.Idle? && s.engine.Idle? && c in s1.scp && Heading(c, b) && addr < |s1.dma.ram|
    requires Programmed(s1, c, b).Fine? && s1.scp.Keys == s.scp.Keys && s1.wire == s.wire
    ensures |Programmed(s1, c, b).next.dma.ram| == |s1.dma.ram|
    ensures Programmed(s1, c, b).next.dma.ram[addr] != s1.dma.ram[addr] ==> Awaiting(s, addr)
  {
    hide Good, AddrOf;
    if Programmed(s1, c, b).next.dma.ram[addr] != s1.dma.ram[addr] {
      ProgrammedWrites(s1, c, b, addr);
    }
  }

  /** A step changes no memory but what the processor touches and places where a held command
      still awaits bytes: never a byte that was delivered, never a buffer that is being sent,
      never memory outside the scatter-gather lists. */
  lemma OnlyAwaitedBytesChange(s: Path, e: Event, addr: nat)
    requires Good(s) && Legal(s, e) && addr < |s.dma.ram|
    ensures Step(s, e).Fine? && |Step(s, e).next.dma.ram| == |s.dma.ram|
    ensures Step(s, e).next.dma.ram[addr] != s.dma.ram[addr] ==>
      Awaiting(s, addr) || (e.Touch? && e.addr == addr)
  {
    hide Good, Awaiting, Started, Programmed, Moved, Halted, TransferBytes, NextBuffer, RoundUp, Layout, Elsewhere;
    StepKeeps(s, e);
    match e
    case Transfer(c, dirIn, noDma, mallocOk, blank, b) => TransferWrites(s, c, dirIn, noDma, mallocOk, blank, b, addr);
    case Ahead(c, mallocOk, blank) => StartedKeeps(s, c, mallocOk, blank);
    case Move(b) =>
      if s.engine.Running? {
        MovedFrame(s, b);
        if Moved(s, b).next.dma.ram[addr] != s.dma.ram[addr] {
          MovedWrites(s, b, addr);
        }
      }
    case Halt =>
      if s.engine.Running? {
        HaltedSize(s);
        if Halted(s).next.dma.ram[addr] != s.dma.ram[addr] {
          HaltedWrites(s, addr);
        }
      }
    case _ =>
  }

  lemma HaltedSize(s: Path)
    requires s.engine.Running? && Halted(s).Fine?
    ensures |Halted(s).next.dma.ram| == |s.dma.ram|
  {
  }

  /** The buffer of a command that sends is left alone while the command is held. */
  lemma SenderUntouched(s: Path, e: Event, c: Cmd, i: nat)
    requires Good(s) && Legal(s, e) && c in s.scp && c.toDevice && i < Total(c.sg)
    requires AddrOf(c.sg, i) < |s.dma.ram|
    ensures Step(s, e).Fine? && |Step(s, e).next.dma.ram| == |s.dma.ram|
    ensures Step(s, e).next.dma.ram[AddrOf(c.sg, i)] == s.dma.ram[AddrOf(c.sg, i)]
  {
    hide Good, AddrOf, Step, Flow, Mirrors;
    var addr := AddrOf(c.sg, i);
    OnlyAwaitedBytesChange(s, e, addr);
    Known(s, c);
    forall d, j: nat | d in s.scp && !d.toDevice && j < Total(d.sg)
      ensures AddrOf(d.sg, j) != addr
    {
      assert Exclusive(d, c) && d != c;
    }
  }

  /** `c` is held throughout the run. */
  predicate HeldThroughout(s: Path, es: seq<Event>, c: Cmd)
    decreases |es|
  {
    c in s.scp && (es == [] || (Step(s, es[0]).Fine? ==> HeldThroughout(Step(s, es[0]).next, es[1..], c)))
  }

  /** Over any run on which a sending command stays held, the bytes it puts on the bus are those
      that its buffers held at the start, in order. */
  lemma {:induction false} SentFromBuffer(s: Path, es: seq<Event>, c: Cmd, i: nat)
    requires Good(s) && Obeys(s, es) && c.toDevice && HeldThroughout(s, es, c)
    requires i < Total(c.sg) && AddrOf(c.sg, i) < |s.dma.ram|
    ensures var o := RunOf(s, es);
            && o.Fine? && c in o.next.scp && |o.next.dma.ram| == |s.dma.ram|
            && o.next.dma.ram[AddrOf(c.sg, i)] == s.dma.ram[AddrOf(c.sg, i)]
            && (i < Settled(o.next, c) ==> WireOf(o.next, c)[i] == s.dma.ram[AddrOf(c.sg, i)])
    decreases |es|
  {
    hide Good, AddrOf, Step, Legal, Mirrors;
    if es == [] {
      Known(s, c);
      AgreesDelivers(s, c);
      assert i < Settled(s, c) ==> Holds(s.dma.ram, c, i, WireOf(s, c)[i]);
    } else {
      StepKeeps(s, es[0]);
      SenderUntouched(s, es[0], c, i);
      SentFromBuffer(Step(s, es[0]).next, es[1..], c, i);
    }
  }

  // ----- a data phase in the wrong direction -----

  /** One whole data phase: `transfer_bytes`, the bytes that the target moves, and the stop. */
  function Phase(s: Path, c: Cmd, dirIn: bool, noDma: bool, mallocOk: bool, blank: seq<byte>, b: Burst): Outcome {
    match TransferBytes(s, c, dirIn, noDma, mallocOk, blank, b)
    case Stray => Stray
    case Fine(s1) =>
      if s1.engine.Idle? then Fine(s1) else
      match Moved(s1, b)
      case Stray => Stray
      case Fine(s2) => if s2.engine.Running? then Halted(s2) else Fine(s2)
  }

  /** An inward phase through a bounce buffer replaces the whole rest of the current buffer, behind
      the bytes received by whatever the fresh bounce buffer contained. It does so for a command
      that sends as well: the direction is the interrupt's. */
  lemma InwardOverwrites(s: Path, c: Cmd, blank: seq<byte>, b: Burst)
    requires Good(s) && s.engine.Idle? && c in s.scp && b.In?
    requires var x := NextBuffer(c.sg, ScpAt(s, c));
             x.thisResidual > 0 && !Aligned(x) && |blank| == RoundUp(x.thisResidual) && Size(b) <= x.thisResidual
    ensures var x, o := NextBuffer(c.sg, ScpAt(s, c)), Phase(s, c, true, false, true, blank, b);
            && InRam(s.dma.ram, x) && x.thisResidual <= |blank| && o.Fine?
            && o.next.dma.ram == Store(s.dma.ram, x.ptr, b.bytes + blank[|b.bytes|..x.thisResidual])
  {
    hide Good, NextBuffer, RoundUp, Mirrors;
    var x, s1 := NextBuffer(c.sg, ScpAt(s, c)), NextBufferOf(s, c);
    NextBufferKeeps(s, c);
    Known(s1, c);
    LeastMultiple(x.thisResidual, 0);
    assert Store(blank, 0, b.bytes)[..x.thisResidual] == b.bytes + blank[|b.bytes|..x.thisResidual];
  }

  /** Whichever path it takes, a data phase leaves memory alone, whatever the target sends and
      whatever a fresh bounce buffer contains, if and only if it goes outward. */
  lemma MemoryKeptIffOutward(s: Path, c: Cmd, dirIn: bool, noDma: bool, mallocOk: bool)
    requires Good(s) && s.engine.Idle? && c in s.scp && NextBuffer(c.sg, ScpAt(s, c)).thisResidual > 0
    ensures (forall blank: seq<byte>, b: Burst |
               && |blank| == RoundUp(NextBuffer(c.sg, ScpAt(s, c)).thisResidual)
               && Size(b) <= NextBuffer(c.sg, ScpAt(s, c)).thisResidual && b.In? == dirIn ::
               Keeps(s, Phase(s, c, dirIn, noDma, mallocOk, blank, b)))
            <==> !dirIn
  {
    hide Good, NextBuffer, RoundUp, Phase, Keeps;
    var x := NextBuffer(c.sg, ScpAt(s, c));
    if dirIn {
      var b := In(seq(x.thisResidual, _ => Other(s, x)));
      var blank: seq<byte> := seq(RoundUp(x.thisResidual), _ => 0);
      InwardChanges(s, c, noDma, mallocOk, blank, b);
    } else {
      forall blank: seq<byte>, b: Burst | |blank| == RoundUp(x.thisResidual) && Size(b) <= x.thisResidual && b.Out?
        ensures Keeps(s, Phase(s, c, false, noDma, mallocOk, blank, b))
      {
        OutwardKeeps(s, c, noDma, mallocOk, blank, b);
      }
    }
  }

  predicate Keeps(s: Path, o: Outcome) {
    o.Fine? && o.next.dma.ram == s.dma.ram
  }

  /** Some byte that is not the one at `ptr`. */
  function Other(s: Path, x: Scp): byte {
    if 0 <= x.ptr < |s.dma.ram| && s.dma.ram[x.ptr] == 0 then 1 else 0
  }

  lemma OutwardKeeps(s: Path, c: Cmd, noDma: bool, mallocOk: bool, blank: seq<byte>, b: Burst)
    requires Good(s) && s.engine.Idle? && c in s.scp && b.Out?
    requires var x := NextBuffer(c.sg, ScpAt(s, c));
             x.thisResidual > 0 && |blank| == RoundUp(x.thisResidual) && Size(b) <= x.thisResidual
    ensures Keeps(s, Phase(s, c, false, noDma, mallocOk, blank, b))
  {
    hide Good, NextBuffer, RoundUp, Mirrors;
    var x, s1 := NextBuffer(c.sg, ScpAt(s, c)), NextBufferOf(s, c);
    NextBufferKeeps(s, c);
    Known(s1, c);
    LeastMultiple(x.thisResidual, 0);
  }

  lemma InwardChanges(s: Path, c: Cmd, noDma: bool, mallocOk: bool, blank: seq<byte>, b: Burst)
    requires Good(s) && s.engine.Idle? && c in s.scp && b.In?
    requires var x := NextBuffer(c.sg, ScpAt(s, c));
             && x.thisResidual > 0 && |blank| == RoundUp(x.thisResidual) && |b.bytes| == x.thisResidual
             && b.bytes[0] == Other(s, x)
    ensures !Keeps(s, Phase(s, c, true, noDma, mallocOk, blank, b))
  {
    hide Good, NextBuffer, RoundUp, Mirrors;
    var x, s1 := NextBuffer(c.sg, ScpAt(s, c)), NextBufferOf(s, c);
    NextBufferKeeps(s, c);
    NoLeftover(s);
    Known(s1, c);
    LeastMultiple(x.thisResidual, 0);
    if !noDma && mallocOk && !Aligned(x) {
      InwardOverwrites(s, c, blank, b);
    }
    var o := Phase(s, c, true, noDma, mallocOk, blank, b);
    assert o.Fine? ==> o.next.dma.ram[x.ptr] == b.bytes[0];
  }

  lemma NoLeftover(s: Path)
    requires Good(s) && s.engine.Idle?
    ensures s.dma.bounce == NoBuffer
  {
  }

  // ----- a buffer left behind -----

  /** Memory after a read, unless `dma_stop` copied past the end of the bounce buffer. */
  datatype Delivery = Memory(ram: seq<byte>) | Overrun

  /** An aligned read of `received` that meets the adapter in state `d`. */
  function AlignedRead(d: Dma, x: Scp, received: seq<byte>): Delivery
    requires Aligned(x) && InRam(d.ram, x) && |received| == x.thisResidual
  {
    LeastMultiple(x.thisResidual, 0);
    var d1 := Setup(d, x, true, true, seq(RoundUp(x.thisResidual), _ => 0));
    var d2 := d1.(ram := Store(d1.ram, x.ptr, received));
    if Stoppable(d2, Owner(x), true) then Memory(Stop(d2, Owner(x), true).ram) else Overrun
  }

  /** An aligned read, of any length, delivers whatever the target sends if and only if no bounce
      buffer is left behind, or nothing is read at all. A leftover shorter than the read is copied
      past its end. */
  lemma DeliversIffNoLeftover(d: Dma, x: Scp)
    requires Aligned(x) && InRam(d.ram, x)
    ensures (forall received: seq<byte> | |received| == x.thisResidual ::
               AlignedRead(d, x, received) == Memory(Store(d.ram, x.ptr, received)))
            <==> d.bounce.NoBuffer? || x.thisResidual == 0
    ensures forall received: seq<byte> | |received| == x.thisResidual ::
              AlignedRead(d, x, received).Overrun? <==> d.bounce.Buffer? && |d.bounce.bytes| < x.thisResidual
  {
    hide RoundUp;
    if d.bounce.Buffer? && x.thisResidual > 0 {
      var b: byte := if |d.bounce.bytes| > 0 && d.bounce.bytes[0] == 0 then 1 else 0;
      var received: seq<byte> := seq(x.thisResidual, _ => b);
      var r := AlignedRead(d, x, received);
      assert r.Memory? ==> r.ram[x.ptr] == d.bounce.bytes[0];
      assert Store(d.ram, x.ptr, received)[x.ptr] == b;
    } else {
      forall received: seq<byte> | |received| == x.thisResidual
        ensures AlignedRead(d, x, received) == Memory(Store(d.ram, x.ptr, received))
      {
        if d.bounce.Buffer? {
          assert Store(Store(d.ram, x.ptr, received), x.ptr, d.bounce.bytes[..0]) == Store(d.ram, x.ptr, received);
        }
      }
    }
  }

  /** After an abort or a reset has stopped an unaligned transfer of `x`, in either direction, no
      aligned read of `y` is sure to deliver any more, and one that is longer than the bounce buffer
      of `x` overruns it. */
  lemma AbortSpoilsNextRead(d: Dma, x: Scp, dirIn: bool, blank: seq<byte>, o: Owner, y: Scp)
    requires InRam(d.ram, x) && !Aligned(x) && |blank| == RoundUp(x.thisResidual)
    requires InRam(d.ram, y) && Aligned(y) && y.thisResidual > 0
    ensures x.thisResidual <= |blank|
    ensures var d' := Stop(Setup(d, x, dirIn, true, blank), o, false);
            && d'.ram == d.ram
            && !(forall received: seq<byte> | |received| == y.thisResidual ::
                   AlignedRead(d', y, received) == Memory(Store(d.ram, y.ptr, received)))
            && (RoundUp(x.thisResidual) < y.thisResidual ==>
                  forall received: seq<byte> | |received| == y.thisResidual :: AlignedRead(d', y, received).Overrun?)
  {
    hide RoundUp, AlignedRead;
    LeastMultiple(x.thisResidual, 0);
    DeliversIffNoLeftover(Stop(Setup(d, x, dirIn, true, blank), o, false), y);
  }

  /** Any other transfer that comes next clears the leftover without harm: an unaligned one replaces it
      or, if there is no memory for that, drops it; an aligned one outward releases it at its end. */
  lemma OtherTransfersClear(d: Dma, x: Scp, dirIn: bool, mallocOk: bool, blank: seq<byte>, o: Owner)
    requires d.bounce.Buffer? && InRam(d.ram, x) && |blank| == RoundUp(x.thisResidual) >= x.thisResidual
    requires !(Aligned(x) && dirIn)
    ensures !Aligned(x) ==> Setup(d, x, dirIn, mallocOk, blank) == Setup(Emptied(d), x, dirIn, mallocOk, blank)
    ensures Aligned(x) ==>
      var d' := Setup(d, x, dirIn, mallocOk, blank);
      Stoppable(d', o, true) && Stop(d', o, true) == Setup(Emptied(d), x, dirIn, mallocOk, blank)
  {
    hide RoundUp, Store;
  }

  /** An aborted unaligned read of one byte, then an aligned one: the second delivers a byte of
      the buffer that the first left behind instead of the 9 that the target sent. */
  lemma LeftoverOverwrites(x: Scp, y: Scp)
    requires x.ptr == 1 && x.thisResidual == 1 && y.ptr == 4 && y.thisResidual == 1
    ensures var d := Dma([0, 0, 0, 0, 0, 0, 0, 0], NoBuffer, 0, false);
            var aborted := Stop(Setup(d, x, true, true, seq(512, _ => 7)), Owner(x), false);
            AlignedRead(aborted, y, [9]) == Memory([0, 0, 0, 0, 7, 0, 0, 0])
  {
    var d := Dma([0, 0, 0, 0, 0, 0, 0, 0], NoBuffer, 0, false);
    assert |seq<byte>(512, _ => 7)| == RoundUp(1);
    var aborted := Stop(Setup(d, x, true, true, seq(512, _ => 7)), Owner(x), false);
    assert aborted.bounce.bytes[0] == 7;
  }
}
