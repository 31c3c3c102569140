/** From the input clock to the synchronous transfer register: the period table, its
    rounding rule, SDTR codes and register values. */
module Timing {
  import opened Basics

  const U32 := 0x1_0000_0000
  const OPTIMUM_SX_OFF := 12
  const DEFAULT_SX_PER := 376
  const STR_FSS: bv8 := 0x80

  datatype SxPeriod = SxPeriod(periodNs: nat, reg: bv8)

  type SxTable = t: seq<SxPeriod> | |t| == 9
    witness seq(9, _ => SxPeriod(0, 0))

  // ----- clock and table -----

  /** The input clocks (MHz) the chip works with. */
  predicate Accepted(mhz: int) {
    8 <= mhz <= 20 && mhz != 11
  }

  function Divisor(mhz: nat): nat {
    if mhz < 11 then 2 else if mhz < 16 then 3 else 4
  }

  /** The clock-select bits of the OWN_ID register that go with a divisor. */
  function ClockCode(mhz: nat): int {
    if Divisor(mhz) == 2 then 0x00 else if Divisor(mhz) == 3 then 0x40 else 0x80
  }

  /** Maps an `init` or `clock:` argument to the register code and the clock rate. */
  method SetClkFreq(freq: int) returns (x: int, mhz: int)
    ensures Accepted(mhz) && x == ClockCode(mhz)
    ensures x == if 8 <= mhz <= 10 then 0x00 else if 12 <= mhz <= 15 then 0x40 else 0x80
    ensures Accepted(freq) ==> mhz == freq
    ensures !Accepted(freq) ==> mhz == if freq == 0x40 then 12 else if freq == 0x80 then 16 else 8
  {
    var f := freq;
    x := freq;
    if 0x00 == f {
      f := 8;
    } else if 0x40 == f {
      f := 12;
    } else if 0x80 == f {
      f := 16;
    } else if f > 7 && f < 11 {
      x := 0x00;
    } else if f > 11 && f < 16 {
      x := 0x40;
    } else if f > 15 && f < 21 {
      x := 0x80;
    } else {
      x := 0x00;
      f := 8;
    }
    mhz := f;
  }

  /** The multiple of 4 nearest to `x`, the larger one on a tie. */
  function Round4(x: nat): (r: nat)
    ensures r % 4 == 0 && r - 2 <= x <= r + 1
  {
    (x + 2) / 4 * 4
  }

  method RoundToFour(x: nat) returns (r: nat)
    ensures r == Round4(x)
  {
    r := x;
    match x % 4
    case 1 => r := r - 1;
    case 2 => r := r + 2;
    case 3 => r := r + 1;
    case _ =>
  }

  /** 100 times the data transfer clock cycle, in nanoseconds. */
  function Dtcc(mhz: nat): nat
    requires mhz > 0
  {
    100000 * Divisor(mhz) / 2 / mhz
  }

  function Period(mhz: nat, i: nat): nat
    requires mhz > 0
  {
    if i == 0 then 1 else if i < 8 then Round4((i + 1) * Dtcc(mhz) / 100) else 0
  }

  const PERIOD_BITS: seq<bv8> := [0x20, 0x20, 0x30, 0x40, 0x50, 0x60, 0x70, 0x00, 0x00]

  function Table(mhz: nat): SxTable
    requires mhz > 0
  {
    seq(9, i requires 0 <= i < 9 => SxPeriod(Period(mhz, i), PERIOD_BITS[i]))
  }

  method CalcSxTable(mhz: nat, sxTable: array<SxPeriod>)
    requires mhz > 0 && sxTable.Length == 9
    modifies sxTable
    ensures sxTable[..] == Table(mhz)
  {
    var d: nat;
    if mhz < 11 {
      d := 2;
    } else if mhz < 16 {
      d := 3;
    } else {
      d := 4;
    }
    d := 100000 * d / 2 / mhz;
    sxTable[0] := SxPeriod(1, 0x20);
    for i := 1 to 8
      invariant forall j :: 0 <= j < i && j != 7 ==> sxTable[j] == Table(mhz)[j]
      invariant i == 8 ==> sxTable[7].periodNs == Table(mhz)[7].periodNs
    {
      var r := RoundToFour((i + 1) * d / 100);
      sxTable[i] := SxPeriod(r, (i + 1) as bv8 * 0x10);
    }
    sxTable[7] := sxTable[7].(reg := 0);
    sxTable[8] := SxPeriod(0, 0);
  }

  // ----- rounding a period -----

  function LeastFrom(period: nat, t: SxTable, x: nat): (r: nat)
    requires 1 <= x <= 8
    ensures 1 <= r <= 7
    decreases 8 - x
  {
    if x == 8 || t[x].periodNs == 0 then 7
    else if t[x - 1].periodNs < period <= t[x].periodNs then x
    else LeastFrom(period, t, x + 1)
  }

  method RoundPeriod(period: nat, t: SxTable) returns (x: nat)
    requires t[8].periodNs == 0
    ensures x == LeastFrom(period, t, 1)
  {
    x := 1;
    while t[x].periodNs != 0
      invariant 1 <= x <= 8
      invariant LeastFrom(period, t, x) == LeastFrom(period, t, 1)
      decreases 8 - x
    {
      if period <= t[x].periodNs && period > t[x - 1].periodNs {
        return;
      }
      x := x + 1;
    }
    return 7;
  }

  // ----- codes and registers -----

  function Offset(offset: nat): bv8 {
    if offset < OPTIMUM_SX_OFF then offset as bv8 else OPTIMUM_SX_OFF as bv8
  }

  /** The nanoseconds that an SDTR period code stands for, in normal-mode terms. */
  function CodeToNs(code: nat, offset: nat, fast: bool): nat {
    (if offset != 0 && fast then code * 2 % U32 else code) * 4 % U32
  }

  /** Transfer register value for an SDTR period code and an offset. */
  function SyncXfer(code: nat, offset: nat, fast: bool, t: SxTable): bv8 {
    t[LeastFrom(CodeToNs(code, offset, fast), t, 1)].reg
    | Offset(offset)
    | (if offset != 0 && fast then STR_FSS else 0)
  }

  method CalcSyncXfer(period: nat, offset: nat, fast: bool, t: SxTable) returns (result: bv8)
    requires period < U32 && t[8].periodNs == 0
    ensures result == SyncXfer(period, offset, fast, t)
  {
    var p, fss: bv8 := period, 0;
    if offset != 0 && fast {
      fss := STR_FSS;
      p := p * 2 % U32;
    }
    p := p * 4 % U32;
    var x := RoundPeriod(p, t);
    result := t[x].reg;
    result := result | if offset < OPTIMUM_SX_OFF then offset as bv8 else OPTIMUM_SX_OFF as bv8;
    result := result | fss;
  }

  /** The two SDTR bytes, period code and offset, both truncated to a `uchar`. */
  function SyncMsg(period: nat, offset: nat, fast: bool): (byte, byte) {
    ((if offset != 0 && fast then period / 4 / 2 else period / 4) % 256, offset % 256)
  }

  // ----- theorems -----

  lemma DtccRange(mhz: nat)
    requires Accepted(mhz)
    ensures 10000 <= Dtcc(mhz) <= 12500
  {
    assert Dtcc(mhz) == if mhz < 11 then 100000 / mhz else if mhz < 16 then 150000 / mhz else 200000 / mhz;
  }

  lemma PeriodStep(mhz: nat, i: nat)
    requires Accepted(mhz) && 1 <= i < 8
    ensures Period(mhz, i - 1) + 90 <= Period(mhz, i)
  {
    DtccRange(mhz);
    var d := Dtcc(mhz);
    assert (i + 1) * d == i * d + d;
    assert (i * d + d) / 100 >= i * d / 100 + 100;
  }

  lemma {:induction false} PeriodsIncrease(mhz: nat, i: nat, j: nat)
    requires Accepted(mhz) && i < j < 8
    ensures Period(mhz, i) < Period(mhz, j)
  {
    PeriodStep(mhz, j);
    if i < j - 1 {
      PeriodsIncrease(mhz, i, j - 1);
    }
  }

  /** Entries 1 to 7 of every table the driver can compute are multiples of 4, from 1 ns below to
      2 ns above the multiple of the transfer clock as the driver truncates it. */
  lemma TableAccuracy(mhz: nat)
    requires Accepted(mhz)
    ensures forall i :: 1 <= i < 8 ==> Table(mhz)[i].periodNs % 4 == 0
    ensures forall i :: 1 <= i < 8 ==>
      (i + 1) * Dtcc(mhz) / 100 - 1 <= Table(mhz)[i].periodNs <= (i + 1) * Dtcc(mhz) / 100 + 2
  {
    forall i: nat | 1 <= i < 8
      ensures Table(mhz)[i].periodNs % 4 == 0
      ensures (i + 1) * Dtcc(mhz) / 100 - 1 <= Table(mhz)[i].periodNs <= (i + 1) * Dtcc(mhz) / 100 + 2
    {
      var exact := (i + 1) * Dtcc(mhz) / 100;
      assert Table(mhz)[i].periodNs == Round4(exact);
    }
  }

  /** Against the period that the clock and the divisor really give, `(i + 1) * 500 * divisor / mhz`
      nanoseconds, all truncations together cost less than 2.1 ns, and rounding adds at most 2. */
  lemma TrueAccuracy(mhz: nat, i: nat)
    requires Accepted(mhz) && 1 <= i < 8
    ensures (i + 1) * (50000 * Divisor(mhz)) - 208 * mhz
            <= 100 * (mhz * Table(mhz)[i].periodNs)
            <= (i + 1) * (50000 * Divisor(mhz)) + 200 * mhz
  {
    hide Round4, Dtcc, Divisor;
    var d := Dtcc(mhz);
    TableAccuracy(mhz);
    DtccTruncates(mhz);
    Truncations(mhz, 50000 * Divisor(mhz), d, i + 1, (i + 1) * d / 100, Table(mhz)[i].periodNs);
  }

  lemma Truncations(m: nat, n: nat, d: nat, k: nat, e: nat, p: nat)
    requires m * d <= n <= m * d + m && 100 * e <= k * d <= 100 * e + 100
    requires e - 1 <= p <= e + 2 && k <= 8
    ensures k * n - 208 * m <= 100 * (m * p) <= k * n + 200 * m
  {
    OuterTruncation(m, n, d, k);
    InnerTruncation(m, d, k, e);
    Rounding(m, e, p);
  }

  lemma OuterTruncation(m: nat, n: nat, d: nat, k: nat)
    requires m * d <= n <= m * d + m && k <= 8
    ensures k * (m * d) <= k * n <= k * (m * d) + 8 * m
  {
    Scale(k, m * d, n);
    Scale(k, n, m * d + m);
    Scale(m, k, 8);
  }

  lemma InnerTruncation(m: nat, d: nat, k: nat, e: nat)
    requires 100 * e <= k * d <= 100 * e + 100
    ensures 100 * (m * e) <= k * (m * d) <= 100 * (m * e) + 100 * m
  {
    assert k * (m * d) == m * (k * d);
    Scale(m, 100 * e, k * d);
    Scale(m, k * d, 100 * e + 100);
  }

  lemma Rounding(m: nat, e: nat, p: nat)
    requires e - 1 <= p <= e + 2
    ensures m * e - m <= m * p <= m * e + 2 * m
  {
    Scale(m, p, e + 2);
    Scale(m, e - 1, p);
  }

  lemma DtccTruncates(mhz: nat)
    requires mhz > 0
    ensures mhz * Dtcc(mhz) <= 50000 * Divisor(mhz) <= mhz * Dtcc(mhz) + mhz
  {
  }

  lemma Scale(m: nat, a: int, b: int)
    requires a <= b
    ensures m * a <= m * b
  {
  }

  predicate Increasing(t: SxTable) {
    forall i, j :: 0 <= i < j < 8 ==> t[i].periodNs < t[j].periodNs
  }

  /** What every table the driver can compute has in common: strictly increasing periods with
      room between them, multiples of 4, the sentinel, and the period bits of the register. */
  predicate Shaped(t: SxTable) {
    && Increasing(t)
    && t[0].periodNs == 1 && t[7].periodNs <= 1002 && t[8].periodNs == 0
    && (forall i :: 1 <= i < 8 ==> t[i].periodNs % 4 == 0)
    && (forall i :: 1 <= i < 8 ==> t[i - 1].periodNs + 90 <= t[i].periodNs)
    && (forall i :: 0 <= i < 9 ==> t[i].reg == PERIOD_BITS[i])
  }

  lemma TableShape(mhz: nat)
    requires Accepted(mhz)
    ensures Shaped(Table(mhz))
  {
    forall i: nat, j: nat | i < j < 8
      ensures Table(mhz)[i].periodNs < Table(mhz)[j].periodNs
    {
      PeriodsIncrease(mhz, i, j);
    }
    forall i: nat | 1 <= i < 8
      ensures Table(mhz)[i - 1].periodNs + 90 <= Table(mhz)[i].periodNs
    {
      PeriodStep(mhz, i);
    }
    DtccRange(mhz);
    assert Table(mhz)[7].periodNs == Round4(8 * Dtcc(mhz) / 100);
  }

  /** Any clock argument whatsoever gives a table of that shape, and the matching code. */
  method ClockToTable(freq: int, sxTable: array<SxPeriod>) returns (code: int, mhz: int)
    requires sxTable.Length == 9
    modifies sxTable
    ensures Accepted(mhz) && code == ClockCode(mhz)
    ensures sxTable[..] == Table(mhz) && Shaped(sxTable[..])
  {
    code, mhz := SetClkFreq(freq);
    CalcSxTable(mhz, sxTable);
    TableShape(mhz);
  }

  /** `x` is the least index of a table entry that is not shorter than `period`. */
  predicate IsLeast(period: nat, t: SxTable, x: nat) {
    1 <= x < 8 && period <= t[x].periodNs && forall y :: 0 <= y < x ==> t[y].periodNs < period
  }

  /** Rounding finds the least sufficient entry for every period from 2 ns to the largest
      entry; the code answers 7 for every other period, including 0 and 1. */
  lemma RoundsUp(period: nat, t: SxTable)
    requires Increasing(t) && t[0].periodNs == 1
    ensures 2 <= period <= t[7].periodNs ==> IsLeast(period, t, LeastFrom(period, t, 1))
    ensures period < 2 || period > t[7].periodNs ==> LeastFrom(period, t, 1) == 7
  {
    RoundsUpFrom(period, t, 1);
  }

  lemma {:induction false} RoundsUpFrom(period: nat, t: SxTable, x: nat)
    requires Increasing(t) && t[0].periodNs == 1 && 1 <= x <= 8
    requires period >= 2 ==> forall y :: 0 <= y < x ==> t[y].periodNs < period
    ensures 2 <= period <= t[7].periodNs ==> IsLeast(period, t, LeastFrom(period, t, x))
    ensures period < 2 || period > t[7].periodNs ==> LeastFrom(period, t, x) == 7
    decreases 8 - x
  {
    if x < 8 {
      assert t[x - 1].periodNs < t[x].periodNs;
      if !(t[x - 1].periodNs < period <= t[x].periodNs) {
        RoundsUpFrom(period, t, x + 1);
      }
    }
  }

  /** A period within 4 ns below entry `i` is rounded to entry `i`. */
  lemma NearEntry(t: SxTable, i: nat, ns: nat)
    requires Shaped(t) && 1 <= i < 8 && t[i].periodNs - 4 <= ns <= t[i].periodNs
    ensures LeastFrom(ns, t, 1) == i
  {
    RoundsUp(ns, t);
    assert i < 7 ==> t[i].periodNs < t[7].periodNs;
    assert forall y :: 0 <= y < i ==> t[y].periodNs <= t[i - 1].periodNs;
  }

  /** The period that the code for `p` stands for: `p` itself, or up to 4 ns less when fast
      mode halved an odd code. */
  lemma CodeOfPeriod(p: nat, offset: nat, fast: bool)
    requires p % 4 == 0 && p <= 1002
    ensures var code := SyncMsg(p, offset, fast).0;
            && code == (if offset != 0 && fast then p / 8 else p / 4)
            && p - 4 <= CodeToNs(code, offset, fast) <= p
  {
    CodeToNsOfByte(SyncMsg(p, offset, fast).0, offset, fast);
  }

  lemma CodeToNsOfByte(code: byte, offset: nat, fast: bool)
    ensures CodeToNs(code, offset, fast) == if offset != 0 && fast then 8 * code else 4 * code
  {
  }

  /** The table entry that the period bits of a register value name. */
  function EntryOf(reg: bv8): nat {
    match reg & 0x70
    case 0x20 => 1 case 0x30 => 2 case 0x40 => 3 case 0x50 => 4 case 0x60 => 5 case 0x70 => 6
    case _ => 7
  }

  lemma DisjointBits(bits: bv8, off: bv8, fss: bv8)
    requires bits & 0x8f == 0 && off & 0xf0 == 0 && fss & 0x7f == 0
    ensures var r := bits | off | fss;
            r & 0x70 == bits && r & 0x0f == off && r & 0x80 == fss
  {
  }

  lemma OffsetBits(offset: nat)
    ensures Offset(offset) & 0xf0 == 0
    ensures Offset(offset) as int == if offset < 12 then offset else 12
  {
    var off := Offset(offset);
    assert off <= 12;
  }

  /** The three fields of the register value sit in disjoint bits and can be read back. */
  lemma FieldsReadBack(code: nat, offset: nat, fast: bool, t: SxTable)
    requires Shaped(t)
    ensures var r := SyncXfer(code, offset, fast, t);
            && (r & 0x0f) as int == (if offset < 12 then offset else 12)
            && EntryOf(r) == LeastFrom(CodeToNs(code, offset, fast), t, 1)
            && r & 0x80 == if offset != 0 && fast then STR_FSS else 0
  {
    var x := LeastFrom(CodeToNs(code, offset, fast), t, 1);
    OffsetBits(offset);
    DisjointBits(PERIOD_BITS[x], Offset(offset), if offset != 0 && fast then STR_FSS else 0);
  }

  /** SDTR round trip: the code sent for table entry `i` fits in a byte and, fed back, selects
      exactly that entry with the clamped offset, although fast mode may lose 4 ns. */
  lemma SdtrRoundTrip(t: SxTable, i: nat, offset: byte, fast: bool)
    requires Shaped(t) && 1 <= i < 8
    ensures var p, msg := t[i].periodNs, SyncMsg(t[i].periodNs, offset, fast);
            var r := SyncXfer(msg.0, msg.1, fast, t);
            && msg == (if offset != 0 && fast then p / 8 else p / 4, offset)
            && EntryOf(r) == i
            && (r & 0x0f) as int == (if offset < 12 then offset else 12)
            && r & 0x80 == if offset != 0 && fast then STR_FSS else 0
  {
    hide LeastFrom, CodeToNs, EntryOf, SyncXfer;
    var p := t[i].periodNs;
    assert i < 7 ==> p < t[7].periodNs;
    CodeOfPeriod(p, offset, fast);
    var code := SyncMsg(p, offset, fast).0;
    NearEntry(t, i, CodeToNs(code, offset, fast));
    FieldsReadBack(code, offset, fast, t);
  }

  /** A reply is honoured: unless it asks for more than the slowest entry, the programmed
      period is at least the one agreed on. */
  lemma ReplyHonoured(code: byte, offset: byte, fast: bool, t: SxTable)
    requires Shaped(t)
    requires (if offset != 0 && fast then 8 * code else 4 * code) <= t[7].periodNs
    ensures (if offset != 0 && fast then 8 * code else 4 * code)
            <= t[EntryOf(SyncXfer(code, offset, fast, t))].periodNs
  {
    CodeToNsOfByte(code, offset, fast);
    RoundsUp(CodeToNs(code, offset, fast), t);
    FieldsReadBack(code, offset, fast, t);
  }

  /** The register asks for asynchronous transfer exactly when the offset is 0. */
  lemma AsyncIffNoOffset(code: nat, offset: nat, fast: bool, t: SxTable)
    requires Shaped(t)
    ensures SyncXfer(code, offset, fast, t) & 0x0f == 0 <==> offset == 0
  {
    FieldsReadBack(code, offset, fast, t);
  }
}
