/** Whole runs of data transfers: direct DMA, DMA through a bounce buffer and programmed I/O,
    in any mixture and cut short at any byte, for any number of commands. */
module DataPath {
  import opened Basics
  import opened Commands
  import opened ScatterGather
  import opened BounceDma

  /** One burst: the bytes a target sends, or how many bytes it takes. */
  datatype Burst = In(bytes: seq<byte>) | Out(count: nat)

  function Size(b: Burst): nat {
    if b.In? then |b.bytes| else b.count
  }

  /** A running engine works for one command, on its memory or on the bounce buffer, and has
      moved `done` bytes so far. */
  datatype Engine = Idle | Running(cmd: Cmd, viaBounce: bool, done: nat)

  /** `wire` holds the bytes that crossed the bus in the data phases of each command. */
  datatype Path = Path(dma: Dma, engine: Engine, scp: map<Cmd, Scp>, wire: map<Cmd, seq<byte>>)

  /** `Stray` is an access outside main memory or outside the bounce buffer. */
  datatype Outcome = Fine(next: Path) | Stray

  datatype Event =
    | Accept(cmd: Cmd, stale: Scp)       // the command is queued
    | Drop(cmd: Cmd)                     // the command is over, its memory is free again
    | Touch(addr: nat, value: byte)      // the processor writes somewhere else
    | Ahead(cmd: Cmd, mallocOk: bool, blank: seq<byte>)  // dma_setup in wd33c93_execute
    | Transfer(cmd: Cmd, dirIn: bool, noDma: bool, mallocOk: bool, blank: seq<byte>, burst: Burst)  // transfer_bytes
    | Move(burst: Burst)                 // the DMA engine moves bytes
    | Halt                               // interrupt entry stops the engine
    | Abandon                            // an abort stops the engine, and its command is over
    | Clear                              // a reset stops the engine, and all commands are over

  function WireOf(s: Path, c: Cmd): seq<byte> {
    if c in s.wire then s.wire[c] else []
  }

  function ScpAt(s: Path, c: Cmd): Scp {
    if c in s.scp then s.scp[c] else Scp(0, 0, 0, 0, 0, 0, false)
  }

  /** How many bytes of `c` are on the wire but not yet counted in its scratch area. */
  function InFlight(s: Path, c: Cmd): nat {
    if s.engine.Running? && s.engine.cmd == c then s.engine.done else 0
  }

  function Settled(s: Path, c: Cmd): int {
    |WireOf(s, c)| - InFlight(s, c)
  }

  // ----- steps -----

  /** What `b` puts on the wire when it meets the memory `m` at `at`. */
  function Carried(m: seq<byte>, at: nat, b: Burst): seq<byte>
    requires at + Size(b) <= |m|
  {
    if b.In? then b.bytes else m[at..at + b.count]
  }

  function Landed(m: seq<byte>, at: nat, b: Burst): seq<byte>
    requires at + Size(b) <= |m|
  {
    if b.In? then Store(m, at, b.bytes) else m
  }

  function OnWire(s: Path, c: Cmd, bytes: seq<byte>): Path {
    s.(wire := s.wire[c := WireOf(s, c) + bytes])
  }

  /** Programmed I/O on the current buffer. */
  function Programmed(s: Path, c: Cmd, b: Burst): Outcome {
    var x := ScpAt(s, c);
    if !InRam(s.dma.ram, x) || Size(b) > x.thisResidual then Stray else
    Fine(OnWire(s, c, Carried(s.dma.ram, x.ptr, b)).(
           dma := s.dma.(ram := Landed(s.dma.ram, x.ptr, b)),
           scp := s.scp[c := Advance(x, x.thisResidual - Size(b))]))
  }

  /** `dma_setup` for the current buffer; the engine runs unless it fails. */
  function Started(s: Path, c: Cmd, dirIn: bool, mallocOk: bool, blank: seq<byte>): Outcome {
    var x := ScpAt(s, c);
    if !InRam(s.dma.ram, x) || !(|blank| == RoundUp(x.thisResidual) >= x.thisResidual) then Stray else
    Fine(s.(dma := Setup(s.dma, x, dirIn, mallocOk, blank),
            engine := if SetupFails(x, mallocOk) then Idle else Running(c, !Aligned(x), 0)))
  }

  /** The running engine moves bytes between the bus and the memory it was pointed at. */
  function Moved(s: Path, b: Burst): Outcome
    requires s.engine.Running?
  {
    var c, e := s.engine.cmd, s.engine;
    if e.viaBounce then
      if s.dma.bounce.NoBuffer? || e.done + Size(b) > |s.dma.bounce.bytes| then Stray else
      Fine(OnWire(s, c, Carried(s.dma.bounce.bytes, e.done, b)).(
             dma := s.dma.(bounce := Buffer(Landed(s.dma.bounce.bytes, e.done, b))),
             engine := e.(done := e.done + Size(b))))
    else
      var at := ScpAt(s, c).ptr + e.done;
      if at < 0 || at + Size(b) > |s.dma.ram| then Stray else
      Fine(OnWire(s, c, Carried(s.dma.ram, at, b)).(
             dma := s.dma.(ram := Landed(s.dma.ram, at, b)), engine := e.(done := e.done + Size(b))))
  }

  /** `dma_stop` with status 1, after which the counters follow the chip. */
  function Halted(s: Path): Outcome
    requires s.engine.Running?
  {
    var c, x := s.engine.cmd, ScpAt(s, s.engine.cmd);
    if !Stoppable(s.dma, Owner(x), true) || s.engine.done > x.thisResidual then Stray else
    Fine(s.(dma := Stop(s.dma, Owner(x), true), engine := Idle,
            scp := s.scp[c := Advance(x, x.thisResidual - s.engine.done)]))
  }

  /** `dma_stop` with status 0, as abort calls it. */
  function Abandoned(s: Path): Path
    requires s.engine.Running?
  {
    var c := s.engine.cmd;
    s.(dma := Stop(s.dma, Owner(ScpAt(s, c)), false), engine := Idle, scp := s.scp - {c}, wire := s.wire - {c})
  }

  /** The same, as reset calls it. */
  function Forsaken(s: Path): Path {
    s.(dma := Stop(s.dma, NoCommand, false), engine := Idle, scp := map[], wire := map[])
  }

  function NextBufferOf(s: Path, c: Cmd): Path {
    s.(scp := s.scp[c := NextBuffer(c.sg, ScpAt(s, c))])
  }

  /** `transfer_bytes`, in the direction of the interrupt. */
  function TransferBytes(
      s: Path, c: Cmd, dirIn: bool, noDma: bool, mallocOk: bool, blank: seq<byte>, b: Burst): Outcome
  {
    var s1 := NextBufferOf(s, c);
    if ScpAt(s1, c).thisResidual == 0 then Fine(s1)
    else if noDma then Programmed(s1, c, b)
    else
      match Started(s1, c, dirIn, mallocOk, blank)
      case Stray => Stray
      case Fine(s2) => if s2.engine.Running? then Fine(s2) else Programmed(s2, c, b)
  }

  function Step(s: Path, e: Event): Outcome {
    match e
    case Accept(c, stale) => Fine(s.(scp := s.scp[c := Begin(c.sg, stale)], wire := s.wire[c := []]))
    case Drop(c) => Fine(s.(scp := s.scp - {c}, wire := s.wire - {c}))
    case Touch(addr, value) =>
      if addr >= |s.dma.ram| then Stray else Fine(s.(dma := s.dma.(ram := s.dma.ram[addr := value])))
    case Ahead(c, mallocOk, blank) => Started(s, c, !c.toDevice, mallocOk, blank)
    case Transfer(c, dirIn, noDma, mallocOk, blank, burst) =>
      TransferBytes(s, c, dirIn, noDma, mallocOk, blank, burst)
    case Move(burst) => if s.engine.Running? then Moved(s, burst) else Fine(s)
    case Halt => if s.engine.Running? then Halted(s) else Fine(s)
    case Abandon => Fine(if s.engine.Running? then Abandoned(s) else s)
    case Clear => Fine(Forsaken(s))
  }

  // ----- memory layout -----

  /** Where the `i`-th byte of a scatter-gather list lives. */
  function AddrOf(sg: seq<Segment>, i: nat): nat {
    if sg == [] then 0
    else if i < sg[0].len then sg[0].addr + i
    else AddrOf(sg[1..], i - sg[0].len)
  }

  predicate Fits(c: Cmd, size: nat) {
    forall seg :: seg in c.sg ==> seg.addr + seg.len <= size
  }

  /** What `c` receives is stored where neither another byte of `c` nor any byte of `d` is. */
  ghost predicate Exclusive(c: Cmd, d: Cmd) {
    !c.toDevice ==>
      forall i: nat, j: nat :: i < Total(c.sg) && j < Total(d.sg) && (c != d || i != j) ==>
        AddrOf(c.sg, i) != AddrOf(d.sg, j)
  }

  ghost predicate Layout(cs: set<Cmd>, size: nat) {
    && (forall c :: c in cs ==> Fits(c, size))
    && (forall c, d :: c in cs && d in cs ==> Exclusive(c, d))
  }

  /** No byte of `c` lives at `addr`. */
  ghost predicate Elsewhere(c: Cmd, addr: nat) {
    forall i: nat :: i < Total(c.sg) ==> AddrOf(c.sg, i) != addr
  }

  // ----- what the surroundings promise -----

  /** Data goes the way the command says. */
  predicate Heading(c: Cmd, b: Burst) {
    c.toDevice <==> b.Out?
  }

  /** Buffers of held commands are left alone, the engine runs for one transfer at a time, data
      phases have the direction of the command, no transfer is longer than the count written to the
      chip, and no abort or reset comes while a bounce buffer is live. */
  ghost predicate Legal(s: Path, e: Event) {
    match e
    case Accept(c, _) => c !in s.scp && Layout(s.scp.Keys + {c}, |s.dma.ram|)
    case Drop(c) => c in s.scp && (s.engine.Running? ==> s.engine.cmd != c)
    case Touch(addr, _) => addr < |s.dma.ram| && forall c :: c in s.scp ==> Elsewhere(c, addr)
    case Ahead(c, _, blank) => s.engine.Idle? && c in s.scp && |blank| == RoundUp(ScpAt(s, c).thisResidual)
    case Transfer(c, dirIn, _, _, blank, burst) =>
      var x := NextBuffer(c.sg, ScpAt(s, c));
      && s.engine.Idle? && c in s.scp && Heading(c, burst) && dirIn == !c.toDevice
      && |blank| == RoundUp(x.thisResidual) && Size(burst) <= x.thisResidual
    case Move(burst) =>
      s.engine.Running? ==>
        Heading(s.engine.cmd, burst) && s.engine.done + Size(burst) <= ScpAt(s, s.engine.cmd).thisResidual
    case Halt => true
    case Abandon => s.dma.bounce.NoBuffer?
    case Clear => s.dma.bounce.NoBuffer?
  }

  // ----- the invariant -----

  /** `bytes` went over the bus for `c`: memory holds them, in order, at the places its
      scatter-gather list names, and the scratch area is at the position behind them. */
  ghost predicate Agrees(ram: seq<byte>, c: Cmd, x: Scp, bytes: seq<byte>) {
    && Flow(c.sg, x, |bytes|) && Fits(c, |ram|) && (c.sg == [] ==> x.ptr == 0)
    && forall i :: 0 <= i < |bytes| ==> Holds(ram, c, i, bytes[i])
  }

  ghost predicate Mirrors(s: Path, c: Cmd) {
    0 <= Settled(s, c) && Agrees(s.dma.ram, c, ScpAt(s, c), WireOf(s, c)[..Settled(s, c)])
  }

  predicate Holds(ram: seq<byte>, c: Cmd, i: nat, b: byte) {
    AddrOf(c.sg, i) < |ram| && ram[AddrOf(c.sg, i)] == b
  }

  /** The bytes of `m` from `at` on are `bytes`. */
  predicate Shows(m: seq<byte>, at: int, bytes: seq<byte>) {
    0 <= at && at + |bytes| <= |m| && m[at..at + |bytes|] == bytes
  }

  /** The bytes of the running transfer that crossed the bus so far. */
  function Flying(s: Path): seq<byte>
    requires s.engine.Running? && s.engine.done <= |WireOf(s, s.engine.cmd)|
  {
    var w := WireOf(s, s.engine.cmd);
    w[|w| - s.engine.done..]
  }

  /** A bounce buffer is live exactly while an unaligned transfer runs. It is the least multiple
      of 512 bytes that holds the transfer, and what it exchanges with memory is intact. */
  ghost predicate EngineOk(s: Path) {
    if s.engine.Idle? then s.dma.bounce == NoBuffer && s.dma.bounceLen == 0
    else
      var c, x := s.engine.cmd, ScpAt(s, s.engine.cmd);
      && c in s.scp && s.engine.done <= x.thisResidual && s.engine.done <= |WireOf(s, c)|
      && s.dma.dirIn == !c.toDevice && s.engine.viaBounce == !Aligned(x)
      && (if s.engine.viaBounce then
            && s.dma.bounce.Buffer? && |s.dma.bounce.bytes| == s.dma.bounceLen == RoundUp(x.thisResidual)
            && Shows(s.dma.bounce.bytes, 0, Flying(s))
            && (c.toDevice ==> Shows(s.dma.ram, x.ptr, s.dma.bounce.bytes[..x.thisResidual]))
          else
            && s.dma.bounce == NoBuffer && s.dma.bounceLen == 0
            && Shows(s.dma.ram, x.ptr, Flying(s)))
  }

  ghost predicate Good(s: Path) {
    && s.wire.Keys == s.scp.Keys && Layout(s.scp.Keys, |s.dma.ram|) && EngineOk(s)
    && forall c :: c in s.scp ==> Mirrors(s, c)
  }
}
