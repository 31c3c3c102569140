/** The ReSDMAC's FIFO: an occupancy counter beside two wrap-around pointers, a byte pointer
    and a buffer of longwords, clock cycle by clock cycle. */
module Fifo {
  import opened Basics

  /** A longword as its four byte lanes, the most significant first. */
  type Word = s: seq<byte> | |s| == 4
    witness [0, 0, 0, 0]

  const ZERO: Word := [0, 0, 0, 0]

  function Pow2(n: nat): (r: nat)
    ensures r >= 1
  {
    if n == 0 then 1 else 2 * Pow2(n - 1)
  }

  /** The inputs, active high, with `reset` for RST_FIFO_ low and `loadByte` for LBYTE_ low. */
  datatype Inputs = Inputs(
    reset: bool, inc: bool, dec: bool,          // INCFIFO, DECFIFO
    incNextIn: bool, incNextOut: bool,          // INCNI, INCNO
    incByte: bool, a1: bool,                    // INCBO, A1
    loadHigh: bool, loadLow: bool, loadByte: bool,
    id: Word)

  /** Widths: the pointers have `ptrBits` bits and the FIFO `Depth` words. */
  datatype Shape = Shape(ptrBits: nat, ctrBits: nat) {
    function Depth(): nat {
      Pow2(ptrBits)
    }

    predicate Valid() {
      Depth() < Pow2(ctrBits)
    }
  }

  datatype State = State(count: nat, writePtr: nat, readPtr: nat, bytePtr: nat, buffer: seq<Word>)

  // ----- one clock cycle, as functions -----

  /** The later assignment of the clocked block wins when both inputs are active. */
  function CountNext(sh: Shape, count: nat, reset: bool, inc: bool, dec: bool): nat {
    if reset then 0
    else if dec then (if count == 0 then sh.Depth() else count - 1)
    else if inc then (if count == sh.Depth() then 0 else (count + 1) % Pow2(sh.ctrBits))
    else count
  }

  function PointerNext(sh: Shape, p: nat, reset: bool, enable: bool): nat {
    if reset then 0 else if enable then (p + 1) % Pow2(sh.ptrBits) else p
  }

  function ByteNext(b: nat, load: bool, enable: bool, data: nat): nat {
    if load then data else if enable then (b + 1) % 4 else b
  }

  /** Whether byte lane `lane` is written. */
  predicate Strobe(b: nat, i: Inputs, lane: nat) {
    (b == lane && i.loadByte) || (if lane < 2 then i.loadHigh else i.loadLow)
  }

  function Merge(w: Word, b: nat, i: Inputs): Word {
    [if Strobe(b, i, 0) then i.id[0] else w[0], if Strobe(b, i, 1) then i.id[1] else w[1],
     if Strobe(b, i, 2) then i.id[2] else w[2], if Strobe(b, i, 3) then i.id[3] else w[3]]
  }

  predicate Full(sh: Shape, s: State) {
    s.count == sh.Depth()
  }

  predicate Empty(s: State) {
    s.count == 0
  }

  predicate InRange(sh: Shape, s: State) {
    |s.buffer| == sh.Depth() && s.writePtr < sh.Depth() && s.readPtr < sh.Depth() && s.bytePtr < 4
  }

  function Cycle(sh: Shape, s: State, i: Inputs): (s': State)
    requires InRange(sh, s)
    ensures InRange(sh, s')
  {
    State(
      CountNext(sh, s.count, i.reset, i.inc, i.dec),
      PointerNext(sh, s.writePtr, i.reset, i.incNextIn),
      PointerNext(sh, s.readPtr, i.reset, i.incNextOut),
      ByteNext(s.bytePtr, i.reset, i.incByte, if i.a1 then 2 else 0),
      if i.reset then seq(sh.Depth(), _ => ZERO)
      else s.buffer[s.writePtr := Merge(s.buffer[s.writePtr], s.bytePtr, i)])
  }

  // ----- the clocked modules -----

  /** `fifo__full_empty_ctr` */
  class FullEmptyCounter {
    const shape: Shape
    var count: nat

    constructor (shape: Shape)
      ensures this.shape == shape && count == 0
    {
      this.shape := shape;
      count := 0;
    }

    method NegEdge(reset: bool, inc: bool, dec: bool)
      modifies this`count
      ensures count == CountNext(shape, old(count), reset, inc, dec)
    {
      var next := count;
      if reset {
        next := 0;
      } else {
        if inc {
          if count == shape.Depth() {
            next := 0;
          } else {
            next := (count + 1) % Pow2(shape.ctrBits);
          }
        }
        if dec {
          if count == 0 {
            next := shape.Depth();
          } else {
            next := count - 1;
          }
        }
      }
      count := next;
    }
  }

  /** `fifo_3bit_cntr` */
  class PointerCounter {
    const shape: Shape
    var count: nat

    constructor (shape: Shape)
      ensures this.shape == shape && count == 0
    {
      this.shape := shape;
      count := 0;
    }

    method PosEdge(reset: bool, enable: bool)
      modifies this`count
      ensures count == PointerNext(shape, old(count), reset, enable)
    {
      if reset {
        count := 0;
      } else if enable {
        count := (count + 1) % Pow2(shape.ptrBits);
      }
    }
  }

  /** `fifo_byte_ptr` */
  class BytePointer {
    var count: nat

    constructor ()
      ensures count == 0
    {
      count := 0;
    }

    method NegEdge(load: bool, enable: bool, data: nat)
      modifies this`count
      ensures count == ByteNext(old(count), load, enable, data)
    {
      if load {
        count := data;
      } else if enable {
        count := (count + 1) % 4;
      }
    }
  }

  /** `fifo` */
  class Unit {
    const shape: Shape
    const counter: FullEmptyCounter
    const nextIn: PointerCounter
    const nextOut: PointerCounter
    const bytePtr: BytePointer
    const buffer: array<Word>

    ghost predicate Valid()
      reads counter, nextIn, nextOut, bytePtr, buffer
    {
      && shape.Valid() && counter.shape == nextIn.shape == nextOut.shape == shape && nextIn != nextOut
      && InRange(shape, View())
    }

    ghost function View(): State
      reads counter, nextIn, nextOut, bytePtr, buffer
    {
      State(counter.count, nextIn.count, nextOut.count, bytePtr.count, buffer[..])
    }

    constructor (shape: Shape)
      requires shape.Valid()
      ensures Valid() && this.shape == shape
      ensures View() == State(0, 0, 0, 0, seq(shape.Depth(), _ => ZERO))
    {
      this.shape := shape;
      counter := new FullEmptyCounter(shape);
      nextIn := new PointerCounter(shape);
      nextOut := new PointerCounter(shape);
      bytePtr := new BytePointer();
      buffer := new Word[shape.Depth()](_ => ZERO);
    }

    /** The rising edge of CLK90: reset clears the buffer, otherwise the strobed lanes are stored. */
    method StoreLanes(i: Inputs)
      requires Valid()
      modifies buffer
      ensures Valid()
      ensures buffer[..] == if i.reset then seq(shape.Depth(), _ => ZERO)
              else old(buffer[..])[nextIn.count := Merge(old(buffer[..])[nextIn.count], bytePtr.count, i)]
    {
      if i.reset {
        for k := 0 to buffer.Length
          invariant forall j :: 0 <= j < k ==> buffer[j] == ZERO
        {
          buffer[k] := ZERO;
        }
      } else {
        var w, b := nextIn.count, bytePtr.count;
        var word := buffer[w];
        if (b == 0 && i.loadByte) || i.loadHigh {
          word := word[0 := i.id[0]];
        }
        if (b == 1 && i.loadByte) || i.loadHigh {
          word := word[1 := i.id[1]];
        }
        if (b == 2 && i.loadByte) || i.loadLow {
          word := word[2 := i.id[2]];
        }
        if (b == 3 && i.loadByte) || i.loadLow {
          word := word[3 := i.id[3]];
        }
        assert word == Merge(buffer[w], b, i);
        buffer[w] := word;
      }
    }

    /** One cycle, its edges in the order CLK90 up, CLK135 up, CLK down, CLK90 down. */
    method Clock(i: Inputs)
      requires Valid()
      modifies counter`count, nextIn`count, nextOut`count, bytePtr`count, buffer
      ensures Valid() && View() == Cycle(shape, old(View()), i)
    {
      StoreLanes(i);
      nextIn.PosEdge(i.reset, i.incNextIn);
      nextOut.PosEdge(i.reset, i.incNextOut);
      counter.NegEdge(i.reset, i.inc, i.dec);
      bytePtr.NegEdge(i.reset, i.incByte, if i.a1 then 2 else 0);
    }
  }
}
