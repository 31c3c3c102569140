/** The WD33C93's register file behind its address register, and the multi-byte accessors that
    rely on its automatic increment. */
module WdRegisters {
  import opened Basics

  type Reg = r: int | 0 <= r < 32

  const WD_OWN_ID: Reg := 0x00
  const WD_CDB_1: Reg := 0x03
  const WD_TARGET_LUN: Reg := 0x0f
  const WD_COMMAND_PHASE: Reg := 0x10
  const WD_SYNCHRONOUS_TRANSFER: Reg := 0x11
  const WD_TRANSFER_COUNT_MSB: Reg := 0x12
  const WD_COMMAND: Reg := 0x18
  const WD_DATA: Reg := 0x19
  const WD_AUXILIARY_STATUS: Reg := 0x1f

  type Bank = s: seq<byte> | |s| == 32
    witness seq(32, _ => 0)

  /** Register contents and address register. */
  datatype File = File(regs: Bank, at: Reg)

  /** Every access to the data port moves on to the next register, except at these three. */
  function After(at: Reg): Reg {
    if at in {WD_COMMAND, WD_DATA, WD_AUXILIARY_STATUS} then at else at + 1
  }

  function Put(f: File, b: byte): File {
    File(f.regs[f.at := b], After(f.at))
  }

  function PutAll(f: File, bytes: seq<byte>): File
    decreases |bytes|
  {
    if bytes == [] then f else PutAll(Put(f, bytes[0]), bytes[1..])
  }

  /** The three bytes of a transfer count, most significant first. */
  function CountBytes(value: nat): seq<byte> {
    [value / 0x10000 % 0x100, value / 0x100 % 0x100, value % 0x100]
  }

  function CountAt(regs: Bank): nat {
    regs[0x12] as int * 0x10000 + regs[0x13] as int * 0x100 + regs[0x14] as int
  }

  /** `bytes` replace the registers from `at` on. */
  function Overlay(regs: Bank, at: Reg, bytes: seq<byte>): (r: Bank)
    requires at + |bytes| <= 32
    ensures forall k :: 0 <= k < 32 ==> r[k] == if at <= k < at + |bytes| then bytes[k - at] else regs[k]
  {
    regs[..at] + bytes + regs[at + |bytes|..]
  }

  class Chip {
    const regs: array<byte>
    var sasr: Reg

    ghost predicate Valid() {
      regs.Length == 32
    }

    ghost function View(): File
      requires Valid()
      reads this, regs
    {
      File(regs[..], sasr)
    }

    constructor (reg: Reg)
      ensures Valid() && fresh(regs) && sasr == reg
    {
      regs := new byte[32];
      sasr := reg;
    }

    method StoreData(b: byte)
      requires Valid()
      modifies this`sasr, regs
      ensures View() == Put(old(View()), b)
    {
      regs[sasr] := b;
      Step();
    }

    method LoadData() returns (b: byte)
      requires Valid()
      modifies this`sasr
      ensures b == regs[old(sasr)] && sasr == After(old(sasr))
    {
      b := regs[sasr];
      Step();
    }

    method Step()
      modifies this`sasr
      ensures sasr == After(old(sasr))
    {
      if sasr != WD_COMMAND && sasr != WD_DATA && sasr != WD_AUXILIARY_STATUS {
        sasr := sasr + 1;
      }
    }

    /** `write_wd33c93` */
    method WriteRegister(reg: Reg, value: byte)
      requires Valid()
      modifies this`sasr, regs
      ensures regs[..] == old(regs[..])[reg := value]
    {
      sasr := reg;
      StoreData(value);
    }

    /** `read_wd33c93` */
    method ReadRegister(reg: Reg) returns (value: byte)
      requires Valid()
      modifies this`sasr
      ensures value == regs[reg]
    {
      sasr := reg;
      value := LoadData();
    }

    /** `write_wd33c93_count` */
    method WriteCount(value: nat)
      requires Valid()
      modifies this`sasr, regs
      ensures regs[..] == Overlay(old(regs[..]), 0x12, CountBytes(value))
      ensures CountAt(regs[..]) == value % 0x1000000
    {
      sasr := WD_TRANSFER_COUNT_MSB;
      StoreData(value / 0x10000 % 0x100);
      StoreData(value / 0x100 % 0x100);
      StoreData(value % 0x100);
      CountSplit(value);
    }

    /** `read_wd33c93_count` */
    method ReadCount() returns (value: nat)
      requires Valid()
      modifies this`sasr
      ensures value == CountAt(regs[..])
    {
      sasr := WD_TRANSFER_COUNT_MSB;
      var b := LoadData();
      value := b as int * 0x10000;
      b := LoadData();
      value := value + b as int * 0x100;
      b := LoadData();
      value := value + b as int;
    }

    /** `write_wd33c93_cdb` */
    method WriteCdb(cmnd: seq<byte>)
      requires Valid()
      modifies this`sasr, regs
      ensures View() == PutAll(File(old(regs[..]), WD_CDB_1), cmnd)
    {
      sasr := WD_CDB_1;
      ghost var start := View();
      for i := 0 to |cmnd|
        invariant PutAll(start, cmnd) == PutAll(View(), cmnd[i..])
      {
        assert cmnd[i..][0] == cmnd[i] && cmnd[i..][1..] == cmnd[i + 1..];
        StoreData(cmnd[i]);
      }
    }

    /** What `wd33c93_execute` writes from the LUN on: LUN, synchronous transfer register, command
        phase, command block and its size. */
    method Prepare(lun: byte, syncXfer: byte, cmnd: seq<byte>)
      requires Valid()
      modifies this`sasr, regs
      ensures |cmnd| <= 12 ==>
        var before := old(regs[..])[0x0f := lun][0x11 := syncXfer][0x10 := 0];
        regs[..] == Overlay(before, 0x03, cmnd)[0x00 := |cmnd|]
    {
      WriteRegister(WD_TARGET_LUN, lun);
      WriteRegister(WD_SYNCHRONOUS_TRANSFER, syncXfer);
      WriteRegister(WD_COMMAND_PHASE, 0);
      ghost var f := File(regs[..], WD_CDB_1);
      WriteCdb(cmnd);
      if |cmnd| <= 12 {
        PutAllOverlays(f, cmnd);
      }
      WriteRegister(WD_OWN_ID, |cmnd| % 0x100);
    }
  }

  // ----- theorems -----

  /** Short of the registers that do not increment, consecutive writes fill consecutive registers. */
  lemma {:induction false} PutAllOverlays(f: File, bytes: seq<byte>)
    requires f.at + |bytes| <= WD_COMMAND
    ensures PutAll(f, bytes) == File(Overlay(f.regs, f.at, bytes), f.at + |bytes|)
    decreases |bytes|
  {
    if bytes == [] {
      assert Overlay(f.regs, f.at, bytes) == f.regs;
    } else {
      PutAllOverlays(Put(f, bytes[0]), bytes[1..]);
      assert Overlay(f.regs, f.at, bytes) == Overlay(Put(f, bytes[0]).regs, f.at + 1, bytes[1..]);
    }
  }

  /** The address register never goes back. */
  lemma {:induction false} PutAllKeepsBelow(f: File, bytes: seq<byte>, r: Reg)
    requires r < f.at
    ensures PutAll(f, bytes).regs[r] == f.regs[r]
    decreases |bytes|
  {
    if bytes != [] {
      PutAllKeepsBelow(Put(f, bytes[0]), bytes[1..], r);
    }
  }

  /** At the command, data and status ports the address register stays, so that any number of bytes goes
      through one of them and no other register changes. */
  lemma {:induction false} PortStays(f: File, bytes: seq<byte>, r: Reg)
    requires f.at in {0x18, 0x19, 0x1f}
    ensures PutAll(f, bytes).at == f.at
    ensures PutAll(f, bytes).regs[r] == if r == f.at && bytes != [] then bytes[|bytes| - 1] else f.regs[r]
    decreases |bytes|
  {
    if bytes != [] {
      PortStays(Put(f, bytes[0]), bytes[1..], r);
    }
  }

  lemma {:induction false} PutAllConcat(f: File, a: seq<byte>, b: seq<byte>)
    ensures PutAll(f, a + b) == PutAll(PutAll(f, a), b)
    decreases |a|
  {
    if a == [] {
      assert a + b == b;
    } else {
      assert (a + b)[1..] == a[1..] + b;
      PutAllConcat(Put(f, a[0]), a[1..], b);
    }
  }

  lemma CountSplit(value: nat)
    ensures value % 0x1000000
            == value / 0x10000 % 0x100 * 0x10000 + value / 0x100 % 0x100 * 0x100 + value % 0x100
  {
    assert value / 0x100 / 0x100 == value / 0x10000;
    var q := value / 0x10000 / 0x100;
    assert value == 0x1000000 * q
                    + (value / 0x10000 % 0x100 * 0x10000 + value / 0x100 % 0x100 * 0x100 + value % 0x100);
  }

  /** A transfer count survives the register file modulo 2^24. */
  lemma CountRoundTrip(f: File, value: nat)
    requires f.at == WD_TRANSFER_COUNT_MSB
    ensures CountAt(PutAll(f, CountBytes(value)).regs) == value % 0x1000000
    ensures value < 0x1000000 ==> CountAt(PutAll(f, CountBytes(value)).regs) == value
    ensures forall r: Reg :: !(0x12 <= r <= 0x14) ==> PutAll(f, CountBytes(value)).regs[r] == f.regs[r]
  {
    PutAllOverlays(f, CountBytes(value));
    CountSplit(value);
  }

  /** The LUN register after a LUN and then a command block have been written. */
  function LunAfter(f: File, lun: byte, cmnd: seq<byte>): byte {
    PutAll(f.(regs := f.regs[WD_TARGET_LUN := lun]), cmnd).regs[WD_TARGET_LUN]
  }

  /** A command block leaves the LUN that was written before it alone, whatever that was, if and
      only if it has at most 12 bytes; then it leaves every register but its own alone. */
  lemma CdbKeepsLun(f: File, cmnd: seq<byte>)
    requires f.at == WD_CDB_1
    ensures (forall lun: byte :: LunAfter(f, lun, cmnd) == lun) <==> |cmnd| <= 12
    ensures |cmnd| <= 12 ==>
      forall r: Reg :: PutAll(f, cmnd).regs[r] == if 3 <= r < 3 + |cmnd| then cmnd[r - 3] else f.regs[r]
  {
    if |cmnd| <= 12 {
      PutAllOverlays(f, cmnd);
      forall lun: byte
        ensures LunAfter(f, lun, cmnd) == lun
      {
        PutAllOverlays(f.(regs := f.regs[WD_TARGET_LUN := lun]), cmnd);
      }
    } else {
      var lun: byte := if cmnd[12] == 0 then 1 else 0;
      CdbOverrun(f.(regs := f.regs[WD_TARGET_LUN := lun]), cmnd);
      assert LunAfter(f, lun, cmnd) != lun;
    }
  }

  /** The 13th byte of a longer command block ends up in the LUN register. */
  lemma CdbOverrun(f: File, cmnd: seq<byte>)
    requires f.at == WD_CDB_1 && |cmnd| > 12
    ensures PutAll(f, cmnd).regs[WD_TARGET_LUN] == cmnd[12]
  {
    var a, b := cmnd[..13], cmnd[13..];
    assert cmnd == a + b;
    PutAllConcat(f, a, b);
    PutAllOverlays(f, a);
    PutAllKeepsBelow(PutAll(f, a), b, WD_TARGET_LUN);
  }
}
