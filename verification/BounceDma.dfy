/** The A3000's DMA back end: alignment test, bounce buffer, direction, and programmed I/O,
    on bytes of main memory. */
module BounceDma {
  import opened Basics
  import opened Commands

  datatype Buffer = NoBuffer | Buffer(bytes: seq<byte>)

  /** Main memory, `dma_bounce_buffer`, `dma_bounce_len` and `dma_dir`. */
  datatype Dma = Dma(ram: seq<byte>, bounce: Buffer, bounceLen: nat, dirIn: bool)

  /** `bytes` replace what was in memory from `at` on. */
  function Store(ram: seq<byte>, at: nat, bytes: seq<byte>): (r: seq<byte>)
    requires at + |bytes| <= |ram|
    ensures |r| == |ram|
    ensures forall k :: 0 <= k < |ram| ==> r[k] == if at <= k < at + |bytes| then bytes[k - at] else ram[k]
  {
    ram[..at] + bytes + ram[at + |bytes|..]
  }

  /** `(n + 511) & ~0x1ff` */
  function RoundUp(n: nat): (r: nat) {
    (n + 511) / 512 * 512
  }

  /** The bounce buffer is the least multiple of 512 bytes that holds the transfer. */
  lemma LeastMultiple(n: nat, m: nat)
    ensures RoundUp(n) % 512 == 0 && RoundUp(n) >= n
    ensures m % 512 == 0 && m >= n ==> RoundUp(n) <= m
  {
    if m % 512 == 0 && m >= n {
      assert m == m / 512 * 512;
      assert (n + 511) / 512 <= m / 512;
    }
  }

  predicate Aligned(x: Scp) {
    x.ptr % 4 == 0
  }

  predicate InRam(ram: seq<byte>, x: Scp) {
    0 <= x.ptr && x.ptr + x.thisResidual <= |ram|
  }

  /** `dma_setup` fails only when it needs a bounce buffer and gets none. */
  predicate SetupFails(x: Scp, mallocOk: bool) {
    !Aligned(x) && !mallocOk
  }

  /** `dma_setup`; `blank` is what a fresh buffer happens to contain. */
  function Setup(d: Dma, x: Scp, dirIn: bool, mallocOk: bool, blank: seq<byte>): Dma
    requires InRam(d.ram, x) && |blank| == RoundUp(x.thisResidual) >= x.thisResidual
  {
    if Aligned(x) then d.(dirIn := dirIn)
    else if !mallocOk then d.(bounce := NoBuffer, bounceLen := 0)
    else
      var bytes := if dirIn then blank else Store(blank, 0, d.ram[x.ptr..x.ptr + x.thisResidual]);
      d.(bounce := Buffer(bytes), bounceLen := |blank|, dirIn := dirIn)
  }

  datatype Owner = NoCommand | Owner(scp: Scp)

  /** A stop reads no further than the bounce buffer reaches. */
  predicate Stoppable(d: Dma, o: Owner, status: bool) {
    status && d.bounce.Buffer? && o.Owner? && d.dirIn ==>
      InRam(d.ram, o.scp) && o.scp.thisResidual <= |d.bounce.bytes|
  }

  /** `dma_stop` */
  function Stop(d: Dma, o: Owner, status: bool): Dma
    requires Stoppable(d, o, status)
  {
    if !status || d.bounce.NoBuffer? then d else
    var ram := if o.Owner? && d.dirIn then Store(d.ram, o.scp.ptr, d.bounce.bytes[..o.scp.thisResidual]) else d.ram;
    d.(ram := ram, bounce := NoBuffer, bounceLen := 0)
  }

  /** The same without a bounce buffer. */
  function Emptied(d: Dma): Dma {
    d.(bounce := NoBuffer, bounceLen := 0)
  }

  /** The state that the driver keeps for its DMA engine, with main memory. */
  class Adapter {
    const ram: array<byte>
    var bounce: array?<byte>
    var bounceLen: nat
    var dmaDir: bool

    ghost predicate Valid()
      reads this
    {
      bounce != ram
    }

    ghost function View(): Dma
      reads this, ram, bounce
    {
      Dma(ram[..], if bounce == null then NoBuffer else Buffer(bounce[..]), bounceLen, dmaDir)
    }

    constructor (ram: array<byte>)
      ensures Valid() && this.ram == ram && bounce == null && bounceLen == 0
    {
      this.ram := ram;
      bounce, bounceLen, dmaDir := null, 0, false;
    }

    static method MemCpy(dst: array<byte>, at: nat, src: array<byte>, from: nat, n: nat)
      requires dst != src && at + n <= dst.Length && from + n <= src.Length
      modifies dst
      ensures dst[..] == Store(old(dst[..]), at, src[from..from + n])
    {
      for i := 0 to n
        invariant dst[..] == Store(old(dst[..]), at, src[from..from + i])
      {
        dst[at + i] := src[from + i];
      }
    }

    method DmaSetup(x: Scp, dirIn: bool, mallocOk: bool) returns (failed: bool, ghost blank: seq<byte>)
      requires Valid() && InRam(ram[..], x)
      modifies this`bounce, this`bounceLen, this`dmaDir
      ensures Valid() && |blank| == RoundUp(x.thisResidual) >= x.thisResidual
      ensures (failed <==> SetupFails(x, mallocOk)) && (failed <==> x.ptr % 4 != 0 && !mallocOk)
      ensures View() == Setup(old(View()), x, dirIn, mallocOk, blank)
      ensures bounce != old(bounce) && bounce != null ==> fresh(bounce)
    {
      LeastMultiple(x.thisResidual, 0);
      blank := seq(RoundUp(x.thisResidual), _ => 0);
      if x.ptr % 4 != 0 {
        bounceLen := RoundUp(x.thisResidual);
        if !mallocOk {
          bounce := null;
          bounceLen := 0;
          return true, blank;
        }
        var buffer := new byte[bounceLen];
        blank := buffer[..];
        if !dirIn {
          MemCpy(buffer, 0, ram, x.ptr, x.thisResidual);
        }
        bounce := buffer;
      }
      dmaDir := dirIn;
      return false, blank;
    }

    /** `overrun` stands for a copy past the end of memory or of the bounce buffer, which the source
        does not check for: what happens then is undefined. */
    method DmaStop(o: Owner, status: bool) returns (overrun: bool)
      requires Valid()
      modifies this`bounce, this`bounceLen, ram
      ensures Valid() && (overrun <==> !Stoppable(old(View()), o, status))
      ensures !overrun ==> View() == Stop(old(View()), o, status)
      ensures overrun ==> View() == old(View())
    {
      if status && bounce != null {
        if o.Owner? {
          if dmaDir {
            var x := o.scp;
            if x.ptr < 0 || x.ptr + x.thisResidual > ram.Length || x.thisResidual > bounce.Length {
              return true;
            }
            MemCpy(ram, x.ptr, bounce, 0, x.thisResidual);
          }
          bounce := null;
          bounceLen := 0;
        } else {
          bounce := null;
          bounceLen := 0;
        }
      }
      return false;
    }

    /** `transfer_pio`, from the target: the chip hands over one byte at a time. */
    method PioIn(buf: nat, bytes: seq<byte>)
      requires buf + |bytes| <= ram.Length
      modifies ram
      ensures ram[..] == Store(old(ram[..]), buf, bytes)
    {
      for i := 0 to |bytes|
        invariant ram[..] == Store(old(ram[..]), buf, bytes[..i])
      {
        ram[buf + i] := bytes[i];
      }
      assert bytes[..|bytes|] == bytes;
    }

    /** `transfer_pio`, to the target, until the chip stops asking. */
    method PioOut(buf: nat, n: nat) returns (sent: seq<byte>)
      requires buf + n <= ram.Length
      ensures sent == ram[buf..buf + n]
    {
      sent := [];
      for i := 0 to n
        invariant sent == ram[buf..buf + i]
      {
        sent := sent + [ram[buf + i]];
      }
    }
  }
}
