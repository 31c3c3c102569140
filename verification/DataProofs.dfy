/** Memory and bus carry the same bytes: every legal step of the data path keeps it so. */
module DataProofs {
  import opened Basics
  import opened Commands
  import opened ScatterGather
  import opened BounceDma
  import opened DataPath

  // ----- positions in a scatter-gather list -----

  lemma {:induction false} TotalSplit(sg: seq<Segment>, b: nat)
    requires b < |sg|
    ensures Total(sg) == Total(sg[..b]) + sg[b].len + Total(sg[b + 1..])
  {
    if b > 0 {
      TotalSplit(sg[1..], b - 1);
      assert sg[1..][..b - 1] == sg[..b][1..];
      assert sg[1..][b..] == sg[b + 1..];
    }
  }

  lemma {:induction false} AddrSplit(sg: seq<Segment>, b: nat, k: nat)
    requires b < |sg| && k < sg[b].len
    ensures AddrOf(sg, Total(sg[..b]) + k) == sg[b].addr + k
  {
    if b > 0 {
      AddrSplit(sg[1..], b - 1, k);
      assert sg[1..][..b - 1] == sg[..b][1..];
    }
  }

  /** `ptr` is where the next byte of the list lives. */
  lemma Current(sg: seq<Segment>, x: Scp, n: nat, k: nat)
    requires Flow(sg, x, n) && k < x.thisResidual
    ensures n + k < Total(sg) && AddrOf(sg, n + k) == x.ptr + k
  {
    TotalSplit(sg, x.buffer);
    AddrSplit(sg, x.buffer, sg[x.buffer].len - x.thisResidual + k);
  }

  lemma CurrentInRam(c: Cmd, x: Scp, n: int, ram: seq<byte>)
    requires Flow(c.sg, x, n) && Fits(c, |ram|) && (c.sg == [] ==> x.ptr == 0)
    ensures InRam(ram, x)
  {
    if c.sg != [] {
      assert c.sg[x.buffer] in c.sg;
    }
  }

  lemma FlowBound(sg: seq<Segment>, x: Scp, n: int)
    requires Flow(sg, x, n)
    ensures n + x.thisResidual <= Total(sg)
  {
  }

  // ----- one command against memory -----

  /** The position moves on over bytes that memory shows. */
  lemma AgreesFurther(ram: seq<byte>, c: Cmd, x: Scp, bytes: seq<byte>, more: seq<byte>)
    requires Agrees(ram, c, x, bytes) && |more| <= x.thisResidual && Shows(ram, x.ptr, more)
    ensures Agrees(ram, c, Advance(x, x.thisResidual - |more|), bytes + more)
  {
    hide Flow, AddrOf;
    AdvanceFlows(c.sg, x, |bytes|, x.thisResidual - |more|);
    forall i | 0 <= i < |bytes + more|
      ensures Holds(ram, c, i, (bytes + more)[i])
    {
      if i < |bytes| {
        assert Holds(ram, c, i, bytes[i]);
      } else {
        Current(c.sg, x, |bytes|, i - |bytes|);
        assert more[i - |bytes|] == ram[x.ptr..x.ptr + |more|][i - |bytes|];
      }
    }
    if c.sg == [] {
      EmptyList(c, x, |bytes|);
    }
  }

  lemma EmptyList(c: Cmd, x: Scp, n: int)
    requires Flow(c.sg, x, n) && c.sg == []
    ensures x.thisResidual == 0
  {
  }

  lemma AgreesNext(ram: seq<byte>, c: Cmd, x: Scp, bytes: seq<byte>)
    requires Agrees(ram, c, x, bytes)
    ensures Agrees(ram, c, NextBuffer(c.sg, x), bytes)
  {
    hide AddrOf;
    NextBufferFlows(c.sg, x, |bytes|);
  }

  /** Bytes received for `c` land on none of the settled bytes of `d`. */
  lemma LandsElsewhere(c: Cmd, x: Scp, n: nat, k: nat, d: Cmd, i: nat)
    requires Flow(c.sg, x, n) && !c.toDevice && Exclusive(c, d) && k < x.thisResidual
    requires i < Total(d.sg) && (d == c ==> i < n + k)
    ensures AddrOf(d.sg, i) != x.ptr + k
  {
    hide Flow, AddrOf;
    Current(c.sg, x, n, k);
    assert c != d || n + k != i;
  }

  lemma StoreKeeps(ram: seq<byte>, c: Cmd, x: Scp, n: nat, off: nat, more: seq<byte>, d: Cmd, y: Scp, bytes: seq<byte>)
    requires InRam(ram, x) && Flow(c.sg, x, n) && !c.toDevice && off + |more| <= x.thisResidual
    requires Exclusive(c, d) && Agrees(ram, d, y, bytes) && (d == c ==> |bytes| <= n + off)
    ensures Agrees(Store(ram, x.ptr + off, more), d, y, bytes)
  {
    hide Flow, AddrOf, Exclusive;
    var ram' := Store(ram, x.ptr + off, more);
    FlowBound(d.sg, y, |bytes|);
    forall i | 0 <= i < |bytes|
      ensures Holds(ram', d, i, bytes[i])
    {
      assert Holds(ram, d, i, bytes[i]);
      var a := AddrOf(d.sg, i);
      if x.ptr + off <= a < x.ptr + off + |more| {
        LandsElsewhere(c, x, n, a - x.ptr, d, i);
      }
    }
  }

  lemma TouchKeeps(ram: seq<byte>, addr: nat, value: byte, d: Cmd, y: Scp, bytes: seq<byte>)
    requires addr < |ram| && Elsewhere(d, addr) && Agrees(ram, d, y, bytes)
    ensures Agrees(ram[addr := value], d, y, bytes)
  {
    hide Flow, AddrOf;
    FlowBound(d.sg, y, |bytes|);
    forall i | 0 <= i < |bytes|
      ensures Holds(ram[addr := value], d, i, bytes[i])
    {
      assert Holds(ram, d, i, bytes[i]);
    }
  }

  lemma ShowsMore(m: seq<byte>, at: nat, sofar: seq<byte>, b: Burst)
    requires Shows(m, at, sofar) && at + |sofar| + Size(b) <= |m|
    ensures Shows(Landed(m, at + |sofar|, b), at, sofar + Carried(m, at + |sofar|, b))
  {
    var m', all := Landed(m, at + |sofar|, b), sofar + Carried(m, at + |sofar|, b);
    forall k | 0 <= k < |all|
      ensures m'[at..at + |all|][k] == all[k]
    {
      assert k < |sofar| ==> m[at..at + |sofar|][k] == sofar[k];
    }
    assert m'[at..at + |all|] == all;
  }

  lemma BurstKeeps(ram: seq<byte>, c: Cmd, x: Scp, n: nat, off: nat, b: Burst, d: Cmd, y: Scp, bytes: seq<byte>)
    requires InRam(ram, x) && Flow(c.sg, x, n) && Heading(c, b) && off + Size(b) <= x.thisResidual
    requires Exclusive(c, d) && Agrees(ram, d, y, bytes) && (d == c ==> |bytes| <= n + off)
    ensures Agrees(Landed(ram, x.ptr + off, b), d, y, bytes)
  {
    hide Flow, Exclusive, Agrees;
    if b.In? {
      StoreKeeps(ram, c, x, n, off, b.bytes, d, y, bytes);
    }
  }

  lemma ShowsElsewhere(ram: seq<byte>, c: Cmd, x: Scp, n: nat, more: seq<byte>, addr: nat, value: byte)
    requires addr < |ram| && Elsewhere(c, addr) && Flow(c.sg, x, n) && |more| <= x.thisResidual
    requires Shows(ram, x.ptr, more)
    ensures Shows(ram[addr := value], x.ptr, more)
  {
    hide Flow, AddrOf;
    if x.ptr <= addr < x.ptr + |more| {
      Current(c.sg, x, n, addr - x.ptr);
    }
    assert ram[addr := value][x.ptr..x.ptr + |more|] == ram[x.ptr..x.ptr + |more|];
  }

  // ----- steps -----

  /** The facts about one held command that the steps use. */
  lemma Known(s: Path, c: Cmd)
    requires Good(s) && c in s.scp
    ensures Mirrors(s, c) && Fits(c, |s.dma.ram|) && InRam(s.dma.ram, ScpAt(s, c))
    ensures 0 <= Settled(s, c) && Flow(c.sg, ScpAt(s, c), Settled(s, c))
    ensures forall d :: d in s.scp ==> Exclusive(c, d) && Exclusive(d, c)
  {
    hide AddrOf, Exclusive, Flow;
    CurrentInRam(c, ScpAt(s, c), Settled(s, c), s.dma.ram);
  }

  lemma ProgrammedMirrors(s: Path, c: Cmd, b: Burst, d: Cmd)
    requires Good(s) && s.engine.Idle? && c in s.scp && Heading(c, b) && d in s.scp
    requires Size(b) <= ScpAt(s, c).thisResidual
    ensures var o := Programmed(s, c, b); o.Fine? && Mirrors(o.next, d)
  {
    hide Flow, Exclusive, Agrees, EngineOk, Layout, Good;
    Known(s, c);
    Known(s, d);
    var x, ram' := ScpAt(s, c), Landed(s.dma.ram, ScpAt(s, c).ptr, b);
    var s' := Programmed(s, c, b).next;
    assert WireOf(s, d)[..Settled(s, d)] == WireOf(s, d);
    BurstKeeps(s.dma.ram, c, x, |WireOf(s, c)|, 0, b, d, ScpAt(s, d), WireOf(s, d));
    if d == c {
      CarriedAgrees(s.dma.ram, c, x, WireOf(s, c), b);
    }
    assert WireOf(s', d)[..Settled(s', d)] == WireOf(s', d);
  }

  lemma CarriedAgrees(ram: seq<byte>, c: Cmd, x: Scp, bytes: seq<byte>, b: Burst)
    requires InRam(ram, x) && Size(b) <= x.thisResidual && Agrees(Landed(ram, x.ptr, b), c, x, bytes)
    ensures Agrees(Landed(ram, x.ptr, b), c, Advance(x, x.thisResidual - Size(b)), bytes + Carried(ram, x.ptr, b))
  {
    hide Agrees;
    ShowsMore(ram, x.ptr, [], b);
    assert [] + Carried(ram, x.ptr, b) == Carried(ram, x.ptr, b);
    AgreesFurther(Landed(ram, x.ptr, b), c, x, bytes, Carried(ram, x.ptr, b));
  }

  lemma ProgrammedKeeps(s: Path, c: Cmd, b: Burst)
    requires Good(s) && s.engine.Idle? && c in s.scp && Heading(c, b)
    requires Size(b) <= ScpAt(s, c).thisResidual
    ensures Programmed(s, c, b).Fine? && Good(Programmed(s, c, b).next)
  {
    hide Mirrors, Layout;
    ProgrammedMirrors(s, c, b, c);
    var s' := Programmed(s, c, b).next;
    assert s'.scp.Keys == s.scp.Keys && s'.wire.Keys == s.wire.Keys;
    forall d | d in s'.scp
      ensures Mirrors(s', d)
    {
      ProgrammedMirrors(s, c, b, d);
    }
  }

  /** Mirroring only depends on these. */
  lemma MirrorsFrame(s: Path, s': Path, d: Cmd)
    requires Mirrors(s, d) && s'.dma.ram == s.dma.ram && ScpAt(s', d) == ScpAt(s, d)
    requires Settled(s', d) == Settled(s, d) <= |WireOf(s', d)| && Settled(s, d) <= |WireOf(s, d)|
    requires 0 <= Settled(s, d) ==> WireOf(s', d)[..Settled(s, d)] == WireOf(s, d)[..Settled(s, d)]
    ensures Mirrors(s', d)
  {
  }

  lemma StartedEngine(s: Path, c: Cmd, mallocOk: bool, blank: seq<byte>)
    requires Good(s) && s.engine.Idle? && c in s.scp && |blank| == RoundUp(ScpAt(s, c).thisResidual)
    ensures var o := Started(s, c, !c.toDevice, mallocOk, blank); o.Fine? && EngineOk(o.next)
  {
    hide Mirrors, Layout, RoundUp;
    Known(s, c);
    LeastMultiple(ScpAt(s, c).thisResidual, 0);
    var x, s' := ScpAt(s, c), Started(s, c, !c.toDevice, mallocOk, blank).next;
    if !SetupFails(x, mallocOk) {
      assert Flying(s') == [];
      if !Aligned(x) && c.toDevice {
        assert s'.dma.bounce.bytes[..x.thisResidual] == s.dma.ram[x.ptr..x.ptr + x.thisResidual];
      }
    }
  }

  lemma StartedKeeps(s: Path, c: Cmd, mallocOk: bool, blank: seq<byte>)
    requires Good(s) && s.engine.Idle? && c in s.scp && |blank| == RoundUp(ScpAt(s, c).thisResidual)
    ensures var o := Started(s, c, !c.toDevice, mallocOk, blank);
            o.Fine? && Good(o.next) && o.next.scp == s.scp && o.next.wire == s.wire && o.next.dma.ram == s.dma.ram
  {
    hide Mirrors, Layout, RoundUp, EngineOk;
    StartedEngine(s, c, mallocOk, blank);
    var s' := Started(s, c, !c.toDevice, mallocOk, blank).next;
    forall d | d in s'.scp
      ensures Mirrors(s', d)
    {
      MirrorsFrame(s, s', d);
    }
  }

  lemma NextBufferKeeps(s: Path, c: Cmd)
    requires Good(s) && s.engine.Idle? && c in s.scp
    ensures Good(NextBufferOf(s, c))
  {
    hide Layout, Agrees, NextBuffer;
    var s' := NextBufferOf(s, c);
    assert s'.scp.Keys == s.scp.Keys;
    forall d | d in s'.scp
      ensures Mirrors(s', d)
    {
      assert Mirrors(s, d);
      if d == c {
        AgreesNext(s.dma.ram, c, ScpAt(s, c), WireOf(s, c)[..Settled(s, c)]);
      }
    }
  }

  lemma TransferKeeps(s: Path, c: Cmd, dirIn: bool, noDma: bool, mallocOk: bool, blank: seq<byte>, b: Burst)
    requires Good(s) && Legal(s, Transfer(c, dirIn, noDma, mallocOk, blank, b))
    ensures var o := TransferBytes(s, c, dirIn, noDma, mallocOk, blank, b); o.Fine? && Good(o.next)
  {
    hide Good, NextBuffer, Started, Programmed, RoundUp;
    NextBufferKeeps(s, c);
    var s1 := NextBufferOf(s, c);
    if ScpAt(s1, c).thisResidual != 0 {
      if noDma {
        ProgrammedKeeps(s1, c, b);
      } else {
        StartedKeeps(s1, c, mallocOk, blank);
        var s2 := Started(s1, c, dirIn, mallocOk, blank).next;
        if s2.engine.Idle? {
          ProgrammedKeeps(s2, c, b);
        }
      }
    }
  }

  /** What is in flight after one more burst. */
  lemma FlyingMore(s: Path, b: Burst)
    requires s.engine.Running? && s.engine.done <= |WireOf(s, s.engine.cmd)| && Moved(s, b).Fine?
    ensures var s', e := Moved(s, b).next, s.engine;
            && s'.engine == e.(done := e.done + Size(b)) && e.done + Size(b) <= |WireOf(s', e.cmd)|
            && Settled(s', e.cmd) == Settled(s, e.cmd)
            && WireOf(s', e.cmd)[..Settled(s, e.cmd)] == WireOf(s, e.cmd)[..Settled(s, e.cmd)]
            && Flying(s') == Flying(s) +
               if e.viaBounce then Carried(s.dma.bounce.bytes, e.done, b)
               else Carried(s.dma.ram, ScpAt(s, e.cmd).ptr + e.done, b)
  {
    hide Landed, Carried, Moved, OnWire;
    MovedWire(s, b);
    TailMore(WireOf(s, s.engine.cmd), OnBus(s, b), s.engine.done);
  }

  /** The bytes that a burst of the running engine puts on the wire. */
  function OnBus(s: Path, b: Burst): seq<byte>
    requires s.engine.Running? && Moved(s, b).Fine?
  {
    if s.engine.viaBounce then Carried(s.dma.bounce.bytes, s.engine.done, b)
    else Carried(s.dma.ram, ScpAt(s, s.engine.cmd).ptr + s.engine.done, b)
  }

  lemma MovedWire(s: Path, b: Burst)
    requires s.engine.Running? && Moved(s, b).Fine?
    ensures var s', e := Moved(s, b).next, s.engine;
            && s'.engine == e.(done := e.done + Size(b)) && |OnBus(s, b)| == Size(b)
            && WireOf(s', e.cmd) == WireOf(s, e.cmd) + OnBus(s, b)
  {
    hide Landed, Carried;
    var e := s.engine;
    CarriedSize(if e.viaBounce then s.dma.bounce.bytes else s.dma.ram,
                if e.viaBounce then e.done else ScpAt(s, e.cmd).ptr + e.done, b);
  }

  lemma CarriedSize(m: seq<byte>, at: nat, b: Burst)
    requires at + Size(b) <= |m|
    ensures |Carried(m, at, b)| == Size(b)
  {
  }

  lemma TailMore(w: seq<byte>, more: seq<byte>, done: nat)
    requires done <= |w|
    ensures (w + more)[|w| - done..] == w[|w| - done..] + more
    ensures (w + more)[..|w| - done] == w[..|w| - done]
  {
  }

  lemma BounceMoves(s: Path, b: Burst)
    requires Good(s) && s.engine.Running? && s.engine.viaBounce && Legal(s, Move(b))
    ensures Moved(s, b).Fine? && EngineOk(Moved(s, b).next) && Moved(s, b).next.dma.ram == s.dma.ram
  {
    hide Mirrors, Layout, RoundUp, Flying, Shows, Carried, Landed;
    LeastMultiple(ScpAt(s, s.engine.cmd).thisResidual, 0);
    FlyingMore(s, b);
    FlyingSize(s);
    ShowsMore(s.dma.bounce.bytes, 0, Flying(s), b);
    assert 0 + |Flying(s)| == s.engine.done;
    OutLandsNothing(s.dma.bounce.bytes, s.engine.done, b);
  }

  lemma FlyingSize(s: Path)
    requires s.engine.Running? && s.engine.done <= |WireOf(s, s.engine.cmd)|
    ensures |Flying(s)| == s.engine.done
  {
  }

  lemma OutLandsNothing(m: seq<byte>, at: nat, b: Burst)
    requires at + Size(b) <= |m|
    ensures |Landed(m, at, b)| == |m| && (b.Out? ==> Landed(m, at, b) == m)
  {
  }

  lemma DirectMoves(s: Path, b: Burst)
    requires Good(s) && s.engine.Running? && !s.engine.viaBounce && Legal(s, Move(b))
    ensures Moved(s, b).Fine? && EngineOk(Moved(s, b).next)
    ensures Moved(s, b).next.dma.ram == Landed(s.dma.ram, ScpAt(s, s.engine.cmd).ptr + s.engine.done, b)
  {
    hide Mirrors, Layout, RoundUp, Flying, Shows, Carried, Landed;
    Known(s, s.engine.cmd);
    FlyingMore(s, b);
    FlyingSize(s);
    ShowsMore(s.dma.ram, ScpAt(s, s.engine.cmd).ptr, Flying(s), b);
    OutLandsNothing(s.dma.ram, ScpAt(s, s.engine.cmd).ptr + s.engine.done, b);
  }

  lemma MovedMirrors(s: Path, b: Burst, d: Cmd)
    requires Good(s) && s.engine.Running? && Legal(s, Move(b)) && d in s.scp
    requires Moved(s, b).Fine?
    requires Moved(s, b).next.dma.ram == if s.engine.viaBounce then s.dma.ram
             else Landed(s.dma.ram, ScpAt(s, s.engine.cmd).ptr + s.engine.done, b)
    ensures Mirrors(Moved(s, b).next, d)
  {
    hide Flow, Exclusive, Agrees, Layout, Landed, Carried, Flying, RoundUp, Shows;
    var c, x := s.engine.cmd, ScpAt(s, s.engine.cmd);
    Known(s, c);
    Known(s, d);
    FlyingMore(s, b);
    var bytes := WireOf(s, d)[..Settled(s, d)];
    if !s.engine.viaBounce {
      BurstKeeps(s.dma.ram, c, x, Settled(s, c), s.engine.done, b, d, ScpAt(s, d), bytes);
    }
  }

  lemma MovedKeeps(s: Path, b: Burst)
    requires Good(s) && s.engine.Running? && Legal(s, Move(b))
    ensures Moved(s, b).Fine? && Good(Moved(s, b).next)
  {
    hide Mirrors, EngineOk, Landed, Carried;
    if s.engine.viaBounce {
      BounceMoves(s, b);
    } else {
      DirectMoves(s, b);
    }
    var s' := Moved(s, b).next;
    EngineHeld(s);
    MovedFrame(s, b);
    forall d | d in s'.scp
      ensures Mirrors(s', d)
    {
      MovedMirrors(s, b, d);
    }
  }

  lemma EngineHeld(s: Path)
    requires Good(s) && s.engine.Running?
    ensures s.engine.cmd in s.scp && s.engine.cmd in s.wire
    ensures s.engine.done <= ScpAt(s, s.engine.cmd).thisResidual && s.engine.done <= |WireOf(s, s.engine.cmd)|
  {
    hide Mirrors, Layout, Shows;
  }

  lemma MovedFrame(s: Path, b: Burst)
    requires s.engine.Running? && Moved(s, b).Fine?
    ensures Moved(s, b).next.scp == s.scp && |Moved(s, b).next.dma.ram| == |s.dma.ram|
    ensures s.engine.cmd in s.wire ==> Moved(s, b).next.wire.Keys == s.wire.Keys
  {
  }

  /** At the end of a transfer memory shows what crossed the bus, whichever way it went. */
  lemma HaltedShows(s: Path)
    requires Good(s) && s.engine.Running?
    ensures Halted(s).Fine?
    ensures Shows(Halted(s).next.dma.ram, ScpAt(s, s.engine.cmd).ptr, Flying(s))
  {
    hide Mirrors, Layout, RoundUp, Flying;
    Known(s, s.engine.cmd);
    LeastMultiple(ScpAt(s, s.engine.cmd).thisResidual, 0);
    FlyingSize(s);
    var x, ram' := ScpAt(s, s.engine.cmd), Halted(s).next.dma.ram;
    if s.engine.viaBounce {
      var bounce := s.dma.bounce.bytes;
      assert ram'[x.ptr..x.ptr + x.thisResidual] == bounce[..x.thisResidual];
      assert ram'[x.ptr..x.ptr + s.engine.done]
          == ram'[x.ptr..x.ptr + x.thisResidual][..s.engine.done] == bounce[..s.engine.done];
    }
  }

  lemma HaltedMirrors(s: Path, d: Cmd)
    requires Good(s) && s.engine.Running? && d in s.scp && Halted(s).Fine?
    requires Shows(Halted(s).next.dma.ram, ScpAt(s, s.engine.cmd).ptr, Flying(s))
    ensures Mirrors(Halted(s).next, d)
  {
    hide Flow, Exclusive, Agrees, Layout, RoundUp, Shows, EngineOk;
    var c, x, s' := s.engine.cmd, ScpAt(s, s.engine.cmd), Halted(s).next;
    EngineHeld(s);
    Known(s, c);
    Known(s, d);
    var bytes := WireOf(s, d)[..Settled(s, d)];
    HaltedRam(s);
    if s.dma.bounce.Buffer? && s.dma.dirIn {
      StoreKeeps(s.dma.ram, c, x, Settled(s, c), 0, s.dma.bounce.bytes[..x.thisResidual], d, ScpAt(s, d), bytes);
    }
    if d == c {
      AgreesFurther(s'.dma.ram, c, x, bytes, Flying(s));
      assert bytes + Flying(s) == WireOf(s, c);
    }
    assert WireOf(s', d)[..Settled(s', d)] == WireOf(s', d);
  }

  lemma HaltedRam(s: Path)
    requires Good(s) && s.engine.Running? && Halted(s).Fine?
    ensures s.dma.bounce.Buffer? && s.dma.dirIn ==>
      !s.engine.cmd.toDevice && ScpAt(s, s.engine.cmd).thisResidual <= |s.dma.bounce.bytes|
    ensures !(s.dma.bounce.Buffer? && s.dma.dirIn) ==> Halted(s).next.dma.ram == s.dma.ram
  {
    hide Mirrors, Layout, RoundUp, Shows;
    LeastMultiple(ScpAt(s, s.engine.cmd).thisResidual, 0);
  }

  lemma HaltedKeeps(s: Path)
    requires Good(s) && s.engine.Running?
    ensures Halted(s).Fine? && Good(Halted(s).next)
  {
    hide Mirrors, Layout, RoundUp, Shows, Flying;
    HaltedShows(s);
    EngineHeld(s);
    var s' := Halted(s).next;
    assert s'.scp.Keys == s.scp.Keys;
    forall d | d in s'.scp
      ensures Mirrors(s', d)
    {
      HaltedMirrors(s, d);
    }
  }

  lemma TouchedEngine(s: Path, addr: nat, value: byte)
    requires Good(s) && Legal(s, Touch(addr, value))
    ensures EngineOk(Step(s, Touch(addr, value)).next)
  {
    hide Mirrors, Layout, RoundUp, Shows;
    if s.engine.Running? {
      var c, x := s.engine.cmd, ScpAt(s, s.engine.cmd);
      Known(s, c);
      FlyingSize(s);
      LeastMultiple(x.thisResidual, 0);
      if s.engine.viaBounce {
        if c.toDevice {
          ShowsElsewhere(s.dma.ram, c, x, Settled(s, c), s.dma.bounce.bytes[..x.thisResidual], addr, value);
        }
      } else {
        ShowsElsewhere(s.dma.ram, c, x, Settled(s, c), Flying(s), addr, value);
      }
    }
  }

  lemma TouchedKeeps(s: Path, addr: nat, value: byte)
    requires Good(s) && Legal(s, Touch(addr, value))
    ensures Step(s, Touch(addr, value)).Fine? && Good(Step(s, Touch(addr, value)).next)
  {
    hide EngineOk, Layout, Agrees, Elsewhere;
    TouchedEngine(s, addr, value);
    var s' := Step(s, Touch(addr, value)).next;
    forall d | d in s'.scp
      ensures Mirrors(s', d)
    {
      assert Mirrors(s, d);
      TouchKeeps(s.dma.ram, addr, value, d, ScpAt(s, d), WireOf(s, d)[..Settled(s, d)]);
    }
  }

  lemma AcceptedFrame(s: Path, c: Cmd, stale: Scp, d: Cmd)
    requires c !in s.scp && d in s.scp && s.wire.Keys == s.scp.Keys && d != c
    ensures var s' := Step(s, Accept(c, stale)).next;
            ScpAt(s', d) == ScpAt(s, d) && WireOf(s', d) == WireOf(s, d) && Settled(s', d) == Settled(s, d)
  {
  }

  lemma AcceptedEngine(s: Path, c: Cmd, stale: Scp)
    requires Good(s) && c !in s.scp
    ensures EngineOk(Step(s, Accept(c, stale)).next)
  {
    hide Mirrors, Layout, RoundUp, Shows, Begin;
    if s.engine.Running? {
      EngineHeld(s);
      AcceptedFrame(s, c, stale, s.engine.cmd);
      assert Flying(Step(s, Accept(c, stale)).next) == Flying(s);
    }
  }

  /** A new command has no byte on the wire yet. */
  lemma AcceptedMirrors(s: Path, c: Cmd, stale: Scp)
    requires Good(s) && c !in s.scp && Fits(c, |s.dma.ram|)
    ensures Mirrors(Step(s, Accept(c, stale)).next, c)
  {
    hide Layout, RoundUp, Shows, Fits, Flow, Begin;
    BeginFlows(c.sg, stale);
    NullWhenEmpty(c, stale);
    assert WireOf(Step(s, Accept(c, stale)).next, c) == [];
  }

  lemma AcceptKeeps(s: Path, c: Cmd, stale: Scp)
    requires Good(s) && Legal(s, Accept(c, stale))
    ensures Good(Step(s, Accept(c, stale)).next)
  {
    hide EngineOk, Mirrors, Begin, Exclusive;
    var s' := Step(s, Accept(c, stale)).next;
    assert s'.scp.Keys == s.scp.Keys + {c};
    AcceptedEngine(s, c, stale);
    AcceptedMirrors(s, c, stale);
    forall d | d in s'.scp && d != c
      ensures Mirrors(s', d)
    {
      AcceptedFrame(s, c, stale, d);
      SettledInWire(s, d);
      MirrorsFrame(s, s', d);
    }
  }

  lemma NullWhenEmpty(c: Cmd, stale: Scp)
    ensures c.sg == [] ==> Begin(c.sg, stale).ptr == 0
  {
  }

  lemma SettledInWire(s: Path, d: Cmd)
    ensures Settled(s, d) <= |WireOf(s, d)|
  {
  }

  lemma DropKeeps(s: Path, c: Cmd)
    requires Good(s) && Legal(s, Drop(c))
    ensures Good(Step(s, Drop(c)).next)
  {
    hide RoundUp, Shows, Exclusive, Agrees, Fits;
    var s' := Step(s, Drop(c)).next;
    forall d | d in s'.scp
      ensures Mirrors(s', d)
    {
      assert Mirrors(s, d);
    }
  }

  function NoneLive(s: Path): Path {
    s.(dma := Emptied(s.dma))
  }

  lemma EmptyAlready(s: Path)
    requires Good(s) && s.dma.bounce.NoBuffer?
    ensures s.dma.bounceLen == 0
  {
    hide Mirrors, Layout, Shows, RoundUp;
  }

  /** But for the bounce buffer, a stop with status 0 leaves everything in order. */
  lemma AbandonedKeeps(s: Path)
    requires Good(s) && s.engine.Running?
    ensures Good(NoneLive(Abandoned(s)))
  {
    hide RoundUp, Shows, Exclusive, Agrees, Fits;
    var s' := NoneLive(Abandoned(s));
    forall d | d in s'.scp
      ensures Mirrors(s', d)
    {
      assert Mirrors(s, d);
    }
  }

  lemma ForsakenKeeps(s: Path)
    ensures Good(NoneLive(Forsaken(s)))
  {
  }

  lemma LeftoverIsBad(s: Path)
    requires s.engine.Idle? && s.dma.bounce.Buffer?
    ensures !Good(s)
  {
  }

  /** A stop with status 0 keeps the data path in order if and only if no bounce buffer is live. */
  lemma StoppedIffNoBounce(s: Path, e: Event)
    requires Good(s) && (e.Abandon? || e.Clear?)
    ensures Step(s, e).Fine?
    ensures Good(Step(s, e).next) <==> Legal(s, e)
  {
    hide Good, Mirrors, Layout, Shows, RoundUp;
    var s' := Step(s, e).next;
    if s.dma.bounce.NoBuffer? {
      EmptyAlready(s);
      if e.Clear? {
        ForsakenKeeps(s);
        assert s' == NoneLive(Forsaken(s));
      } else if s.engine.Running? {
        AbandonedKeeps(s);
        assert s' == NoneLive(Abandoned(s));
      }
    } else {
      if s.engine.Idle? {
        LeftoverIsBad(s);
      }
      LeftoverIsBad(s');
    }
  }

  /** A legal step stays inside memory and keeps memory and bus in agreement. */
  lemma StepKeeps(s: Path, e: Event)
    requires Good(s) && Legal(s, e)
    ensures Step(s, e).Fine? && Good(Step(s, e).next)
  {
    hide Good, Layout, Elsewhere, RoundUp, Started, Moved, Halted, Abandoned, Forsaken, TransferBytes, NextBuffer;
    match e
    case Accept(c, stale) => AcceptKeeps(s, c, stale);
    case Drop(c) => DropKeeps(s, c);
    case Touch(addr, value) => TouchedKeeps(s, addr, value);
    case Ahead(c, mallocOk, blank) => StartedKeeps(s, c, mallocOk, blank);
    case Transfer(c, dirIn, noDma, mallocOk, blank, b) => TransferKeeps(s, c, dirIn, noDma, mallocOk, blank, b);
    case Move(b) => if s.engine.Running? { MovedKeeps(s, b); }
    case Halt => if s.engine.Running? { HaltedKeeps(s); }
    case Abandon => StoppedIffNoBounce(s, e);
    case Clear => StoppedIffNoBounce(s, e);
  }
}
