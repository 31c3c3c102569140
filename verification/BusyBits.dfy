/** The `busy` bytes, one per target with one bit per LUN, against a set of units. */
module BusyBits {
  import opened Basics
  import opened Commands

  function Mask(l: Lun): bv8 {
    1 << l
  }

  predicate On(b: bv8, l: Lun) {
    b & Mask(l) != 0
  }

  lemma MaskValue(l: Lun)
    ensures Mask(l) == match l case 0 => 0x01 case 1 => 0x02 case 2 => 0x04 case 3 => 0x08
                               case 4 => 0x10 case 5 => 0x20 case 6 => 0x40 case 7 => 0x80
  {
  }

  lemma MasksDiffer(l: Lun, m: Lun)
    ensures Mask(l) & Mask(m) == if l == m then Mask(l) else 0
    ensures Mask(l) != 0
  {
    MaskValue(l);
    MaskValue(m);
  }

  lemma BitAlgebra(b: bv8, p: bv8, q: bv8)
    ensures (b | p) & q == (b & q) | (p & q)
    ensures p & q == 0 ==> (b & !p) & q == b & q
    ensures (b & !p) & p == 0
  {
  }

  lemma SetOn(b: bv8, l: Lun, m: Lun)
    ensures On(b | Mask(l), m) <==> On(b, m) || m == l
  {
    MasksDiffer(l, m);
    BitAlgebra(b, Mask(l), Mask(m));
    hide Mask;
  }

  lemma ClearOn(b: bv8, l: Lun, m: Lun)
    ensures On(b & !Mask(l), m) <==> On(b, m) && m != l
  {
    MasksDiffer(l, m);
    BitAlgebra(b, Mask(l), Mask(m));
    hide Mask;
  }

  type BusyBytes = s: seq<bv8> | |s| == 8
    witness [0, 0, 0, 0, 0, 0, 0, 0]

  predicate Bits(busy: BusyBytes, units: set<Unit>) {
    forall t: Target, l: Lun :: On(busy[t], l) <==> (t, l) in units
  }

  lemma SetBits(was: BusyBytes, c: Cmd, units: set<Unit>)
    requires Bits(was, units)
    ensures Bits(was[c.id := was[c.id] | Mask(c.lun)], units + {UnitOf(c)})
  {
    forall m: Lun
      ensures On(was[c.id] | Mask(c.lun), m) <==> On(was[c.id], m) || m == c.lun
    {
      SetOn(was[c.id], c.lun, m);
    }
  }

  lemma ClearBits(was: BusyBytes, c: Cmd, units: set<Unit>)
    requires Bits(was, units)
    ensures Bits(was[c.id := was[c.id] & !Mask(c.lun)], units - {UnitOf(c)})
  {
    forall m: Lun
      ensures On(was[c.id] & !Mask(c.lun), m) <==> On(was[c.id], m) && m != c.lun
    {
      ClearOn(was[c.id], c.lun, m);
    }
  }
}
