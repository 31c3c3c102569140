/** Counter, pointers and buffer of the FIFO against the words that went in and came out. */
module FifoRuns {
  import opened Basics
  import opened Fifo

  // ----- occupancy -----

  /** Position `x` of a ring of `d` slots, for `x` below `2 * d`. */
  function Wrap(x: nat, d: nat): nat {
    if x >= d then x - d else x
  }

  /** How far the write pointer is ahead of the read pointer, modulo the depth. */
  function Distance(sh: Shape, s: State): int {
    if s.writePtr >= s.readPtr then s.writePtr - s.readPtr else s.writePtr - s.readPtr + sh.Depth()
  }

  /** After `pushes` words in and `pops` words out since the last reset. */
  predicate Agrees(sh: Shape, s: State, pushes: nat, pops: nat) {
    && pops <= pushes <= pops + sh.Depth() && s.count == pushes - pops
    && s.writePtr == Wrap(s.readPtr + s.count, sh.Depth())
  }

  /** The pointers step with the counter. */
  predicate InStep(i: Inputs) {
    i.incNextIn == i.inc && i.incNextOut == i.dec
  }

  /** No word goes into a full FIFO, none comes out of an empty one, and no cycle does both. */
  predicate Disciplined(sh: Shape, s: State, i: Inputs) {
    (i.inc ==> !Full(sh, s)) && (i.dec ==> !Empty(s)) && !(i.inc && i.dec)
  }

  function Bit(b: bool): nat {
    if b then 1 else 0
  }

  lemma PointerWraps(sh: Shape, p: nat, enable: bool)
    requires p < sh.Depth()
    ensures PointerNext(sh, p, false, enable) == if enable then Wrap(p + 1, sh.Depth()) else p
  {
    hide Pow2;
  }

  lemma CountSteps(sh: Shape, count: nat)
    requires sh.Valid() && count < sh.Depth()
    ensures (count + 1) % Pow2(sh.ctrBits) == count + 1
  {
    hide Pow2;
  }

  /** Counter and pointers stay in agreement over a cycle if and only if it is disciplined. */
  lemma CycleAgreesIff(sh: Shape, s: State, i: Inputs, pushes: nat, pops: nat)
    requires sh.Valid() && InRange(sh, s) && Agrees(sh, s, pushes, pops) && !i.reset && InStep(i)
    ensures Agrees(sh, Cycle(sh, s, i), pushes + Bit(i.inc), pops + Bit(i.dec)) <==> Disciplined(sh, s, i)
  {
    hide Cycle, Pow2;
    CycleMoves(sh, s, i);
  }

  lemma CycleMoves(sh: Shape, s: State, i: Inputs)
    requires sh.Valid() && InRange(sh, s) && s.count <= sh.Depth() && !i.reset && InStep(i)
    ensures var s', d := Cycle(sh, s, i), sh.Depth();
            && s'.writePtr == (if i.inc then Wrap(s.writePtr + 1, d) else s.writePtr)
            && s'.readPtr == (if i.dec then Wrap(s.readPtr + 1, d) else s.readPtr)
            && s'.count == (if i.dec then (if s.count == 0 then d else s.count - 1)
                            else if i.inc then (if s.count == d then 0 else s.count + 1) else s.count)
  {
    hide Pow2, Merge, PointerNext, CountNext;
    PointerWraps(sh, s.writePtr, i.inc);
    PointerWraps(sh, s.readPtr, i.dec);
    CountAfter(sh, s.count, i);
  }

  /** COUNT after a cycle: DEC wins over INC, and both wrap round at the depth. */
  lemma CountAfter(sh: Shape, count: nat, i: Inputs)
    requires sh.Valid() && count <= sh.Depth() && !i.reset
    ensures CountNext(sh, count, i.reset, i.inc, i.dec) ==
            if i.dec then (if count == 0 then sh.Depth() else count - 1)
            else if i.inc then (if count == sh.Depth() then 0 else count + 1)
            else count
  {
    if count < sh.Depth() {
      CountSteps(sh, count);
    }
    hide Pow2;
  }

  /** The count is the pointer distance modulo the depth, and where the pointers coincide FULL and
      EMPTY tell the two cases apart. */
  lemma FlagsDisambiguate(sh: Shape, s: State, pushes: nat, pops: nat)
    requires InRange(sh, s) && Agrees(sh, s, pushes, pops)
    ensures Distance(sh, s) == if Full(sh, s) then 0 else s.count
    ensures s.writePtr == s.readPtr <==> Full(sh, s) || Empty(s)
    ensures !(Full(sh, s) && Empty(s))
    ensures Empty(s) <==> pushes == pops
    ensures Full(sh, s) <==> pushes == pops + sh.Depth()
  {
    hide Pow2;
  }

  // ----- contents -----

  /** A run so far: the words completed by INCNI and those taken by INCNO since the last reset. */
  datatype Run = Run(s: State, pushed: seq<Word>, popped: seq<Word>)

  function Advance(sh: Shape, run: Run, i: Inputs): Run
    requires InRange(sh, run.s)
  {
    var s' := Cycle(sh, run.s, i);
    if i.reset then Run(s', [], [])
    else Run(s',
             if i.inc then run.pushed + [s'.buffer[run.s.writePtr]] else run.pushed,
             if i.dec then run.popped + [s'.buffer[run.s.readPtr]] else run.popped)
  }

  /** What came out is a prefix of what went in, and the rest waits in the buffer in order. */
  predicate Faithful(sh: Shape, run: Run) {
    && InRange(sh, run.s) && Agrees(sh, run.s, |run.pushed|, |run.popped|)
    && run.popped == run.pushed[..|run.popped|]
    && forall k :: 0 <= k < run.s.count ==> Waiting(sh, run, k)
  }

  predicate Waiting(sh: Shape, run: Run, k: nat)
    requires InRange(sh, run.s)
  {
    && |run.popped| + k < |run.pushed| && Wrap(run.s.readPtr + k, sh.Depth()) < |run.s.buffer|
    && run.s.buffer[Wrap(run.s.readPtr + k, sh.Depth())] == run.pushed[|run.popped| + k]
  }

  predicate Strobed(s: State, i: Inputs) {
    Strobe(s.bytePtr, i, 0) || Strobe(s.bytePtr, i, 1) || Strobe(s.bytePtr, i, 2) || Strobe(s.bytePtr, i, 3)
  }

  /** What the two state machines around the FIFO have to observe in one cycle. */
  predicate Orderly(sh: Shape, s: State, i: Inputs) {
    i.reset || (InStep(i) && Disciplined(sh, s, i) && (Strobed(s, i) ==> !Full(sh, s)))
  }

  lemma MergeNothing(w: Word, b: nat, i: Inputs)
    requires !Strobe(b, i, 0) && !Strobe(b, i, 1) && !Strobe(b, i, 2) && !Strobe(b, i, 3)
    ensures Merge(w, b, i) == w
  {
  }

  /** The slot being written is none of the waiting ones, unless the FIFO is full. */
  lemma SlotFree(sh: Shape, s: State, pushes: nat, pops: nat, k: nat)
    requires InRange(sh, s) && Agrees(sh, s, pushes, pops) && k < s.count < sh.Depth()
    ensures Wrap(s.readPtr + k, sh.Depth()) != s.writePtr
  {
  }

  lemma BufferKeeps(sh: Shape, run: Run, i: Inputs, k: nat)
    requires Faithful(sh, run) && Orderly(sh, run.s, i) && !i.reset && k < run.s.count
    ensures var at := Wrap(run.s.readPtr + k, sh.Depth());
            at < sh.Depth() && Cycle(sh, run.s, i).buffer[at] == run.pushed[|run.popped| + k]
  {
    hide Pow2, Merge, Strobe, CountNext, PointerNext, ByteNext;
    assert Waiting(sh, run, k);
    if Full(sh, run.s) {
      MergeNothing(run.s.buffer[run.s.writePtr], run.s.bytePtr, i);
    } else {
      SlotFree(sh, run.s, |run.pushed|, |run.popped|, k);
    }
  }

  lemma AdvanceWaits(sh: Shape, run: Run, i: Inputs, k: nat)
    requires sh.Valid() && Faithful(sh, run) && Orderly(sh, run.s, i) && !i.reset
    requires k < Advance(sh, run, i).s.count && k + Bit(i.dec) <= run.s.count
    requires k + Bit(i.dec) == run.s.count ==> i.inc
    ensures Waiting(sh, Advance(sh, run, i), k)
  {
    hide Pow2, Merge, Strobe, CountNext, PointerNext, ByteNext;
    PointerWraps(sh, run.s.readPtr, i.dec);
    if k + Bit(i.dec) < run.s.count {
      BufferKeeps(sh, run, i, k + Bit(i.dec));
    }
  }

  lemma CountMoves(sh: Shape, s: State, i: Inputs)
    requires sh.Valid() && InRange(sh, s) && s.count <= sh.Depth() && !i.reset && Disciplined(sh, s, i)
    ensures CountNext(sh, s.count, i.reset, i.inc, i.dec) == s.count + Bit(i.inc) - Bit(i.dec)
  {
    if s.count < sh.Depth() {
      CountSteps(sh, s.count);
    }
    hide Pow2;
  }

  /** An orderly cycle keeps the FIFO faithful. */
  lemma AdvanceKeeps(sh: Shape, run: Run, i: Inputs)
    requires sh.Valid() && Faithful(sh, run) && Orderly(sh, run.s, i)
    ensures Faithful(sh, Advance(sh, run, i))
  {
    hide Pow2, Merge, Strobe, CountNext, PointerNext, ByteNext;
    var run' := Advance(sh, run, i);
    if i.reset {
      ResetIsFaithful(sh, run, i);
    } else {
      CycleAgreesIff(sh, run.s, i, |run.pushed|, |run.popped|);
      CountMoves(sh, run.s, i);
      if i.dec {
        BufferKeeps(sh, run, i, 0);
        assert Waiting(sh, run, 0);
      }
      forall k | 0 <= k < run'.s.count
        ensures Waiting(sh, run', k)
      {
        AdvanceWaits(sh, run, i, k);
      }
    }
  }

  lemma ResetIsFaithful(sh: Shape, run: Run, i: Inputs)
    requires InRange(sh, run.s) && i.reset
    ensures Faithful(sh, Advance(sh, run, i))
  {
  }

  /** The byte lane at which a reset starts: A1 chooses the half of the word. */
  function StartLane(i: Inputs): nat {
    if i.a1 then 2 else 0
  }

  /** The FIFO after a cycle with reset. */
  function Fresh(sh: Shape, i: Inputs): (run: Run)
    ensures InRange(sh, run.s)
  {
    Run(State(0, 0, 0, StartLane(i), seq(sh.Depth(), _ => ZERO)), [], [])
  }

  /** Whatever the registers hold at power-up, a cycle with reset leaves this. */
  lemma ResetGivesFresh(sh: Shape, run: Run, i: Inputs)
    requires InRange(sh, run.s) && i.reset
    ensures Advance(sh, run, i) == Fresh(sh, i) && Faithful(sh, Fresh(sh, i))
  {
    assert Cycle(sh, run.s, i).buffer == Fresh(sh, i).s.buffer;
  }

  function RunOf(sh: Shape, run: Run, inputs: seq<Inputs>): Run
    requires InRange(sh, run.s)
    decreases |inputs|
  {
    if inputs == [] then run else RunOf(sh, Advance(sh, run, inputs[0]), inputs[1..])
  }

  predicate Obeys(sh: Shape, run: Run, inputs: seq<Inputs>)
    requires InRange(sh, run.s)
    decreases |inputs|
  {
    inputs == [] || (Orderly(sh, run.s, inputs[0]) && Obeys(sh, Advance(sh, run, inputs[0]), inputs[1..]))
  }

  /** Over every orderly run, with any resets in it: the words that came out are the first words
      that went in, in order, the others wait in the buffer, and COUNT is their number. */
  lemma {:induction false} FirstInFirstOut(sh: Shape, run: Run, inputs: seq<Inputs>)
    requires sh.Valid() && Faithful(sh, run) && Obeys(sh, run, inputs)
    ensures Faithful(sh, RunOf(sh, run, inputs))
    ensures var last := RunOf(sh, run, inputs);
            last.popped <= last.pushed && last.s.count == |last.pushed| - |last.popped| <= sh.Depth()
    decreases |inputs|
  {
    hide Pow2, Cycle, Orderly, Waiting;
    if inputs != [] {
      AdvanceKeeps(sh, run, inputs[0]);
      FirstInFirstOut(sh, Advance(sh, run, inputs[0]), inputs[1..]);
    }
  }

  /** The same from power-up, whatever the registers hold then, if the first cycle is a reset. */
  lemma FirstInFirstOutFromPowerUp(sh: Shape, s: State, inputs: seq<Inputs>)
    requires sh.Valid() && InRange(sh, s) && inputs != [] && inputs[0].reset
    requires Obeys(sh, Fresh(sh, inputs[0]), inputs[1..])
    ensures var last := RunOf(sh, Run(s, [], []), inputs);
            last.popped <= last.pushed && last.s.count == |last.pushed| - |last.popped| <= sh.Depth()
  {
    hide Obeys;
    ResetGivesFresh(sh, Run(s, [], []), inputs[0]);
    FirstInFirstOut(sh, Fresh(sh, inputs[0]), inputs[1..]);
  }

  /** A lane strobe into a full FIFO spoils the oldest waiting word: whatever word is on the input,
      the cycle keeps the FIFO faithful if and only if it does not strobe while full. */
  lemma FaithfulIffNoStrobeWhenFull(sh: Shape, run: Run, i: Inputs)
    requires sh.Valid() && Faithful(sh, run) && !i.reset && InStep(i) && Disciplined(sh, run.s, i)
    ensures (forall w: Word :: Faithful(sh, Advance(sh, run, i.(id := w))))
            <==> !(Full(sh, run.s) && Strobed(run.s, i))
  {
    hide Advance;
    if Full(sh, run.s) && Strobed(run.s, i) {
      SpoilsOldest(sh, run, i);
    } else {
      forall w: Word
        ensures Faithful(sh, Advance(sh, run, i.(id := w)))
      {
        AdvanceKeeps(sh, run, i.(id := w));
      }
    }
  }

  /** The word on the input that differs from the oldest word in every lane. */
  function Clash(w: Word): Word {
    [if w[0] == 0 then 1 else 0, if w[1] == 0 then 1 else 0, if w[2] == 0 then 1 else 0, if w[3] == 0 then 1 else 0]
  }

  lemma SpoilsOldest(sh: Shape, run: Run, i: Inputs)
    requires sh.Valid() && Faithful(sh, run) && !i.reset && InStep(i) && Disciplined(sh, run.s, i)
    requires Full(sh, run.s) && Strobed(run.s, i)
    ensures !Faithful(sh, Advance(sh, run, i.(id := Clash(run.s.buffer[run.s.writePtr]))))
  {
    hide Pow2, Merge, Strobe, PointerNext, ByteNext, Clash;
    var s, oldest := run.s, run.s.buffer[run.s.writePtr];
    var i' := i.(id := Clash(oldest));
    assert Waiting(sh, run, 0) && s.readPtr == s.writePtr;
    StrobeIgnoresData(s.bytePtr, i, Clash(oldest));
    MergeClashes(oldest, s.bytePtr, i');
    var run' := Advance(sh, run, i');
    assert run'.s.buffer[s.writePtr] != oldest;
    CountMoves(sh, s, i);
    if i.dec {
      assert run'.popped[|run.popped|] != run'.pushed[|run.popped|];
    } else {
      PointerWraps(sh, s.readPtr, false);
      assert !Waiting(sh, run', 0);
    }
  }

  lemma StrobeIgnoresData(b: nat, i: Inputs, w: Word)
    ensures forall lane: nat :: Strobe(b, i.(id := w), lane) == Strobe(b, i, lane)
  {
  }

  lemma MergeClashes(w: Word, b: nat, i: Inputs)
    requires i.id == Clash(w)
    requires Strobe(b, i, 0) || Strobe(b, i, 1) || Strobe(b, i, 2) || Strobe(b, i, 3)
    ensures Merge(w, b, i) != w
  {
    var m := Merge(w, b, i);
    assert m[0] != w[0] || m[1] != w[1] || m[2] != w[2] || m[3] != w[3];
  }

  // ----- words from the processor side -----

  /** LHWORD stores the two upper bytes of the input word, LLWORD the two lower ones, LBYTE the one that the
      byte pointer names; every other byte and every other word stays. */
  lemma LanesStored(sh: Shape, s: State, i: Inputs, k: nat, lane: nat)
    requires InRange(sh, s) && !i.reset && k < sh.Depth() && lane < 4
    ensures InRange(sh, Cycle(sh, s, i))
    ensures Cycle(sh, s, i).buffer[k][lane] ==
            if k == s.writePtr &&
               ((i.loadHigh && lane < 2) || (i.loadLow && lane >= 2) || (i.loadByte && lane == s.bytePtr))
            then i.id[lane] else s.buffer[k][lane]
  {
    hide Pow2, CountNext, PointerNext;
  }

  /** With both halves strobed, a word that goes in is the input word. */
  lemma WordStored(sh: Shape, run: Run, i: Inputs)
    requires InRange(sh, run.s) && !i.reset && i.inc && i.loadHigh && i.loadLow
    ensures Advance(sh, run, i).pushed == run.pushed + [i.id]
  {
    hide Pow2, CountNext, PointerNext;
    var w := Cycle(sh, run.s, i).buffer[run.s.writePtr];
    assert w[0] == i.id[0] && w[1] == i.id[1] && w[2] == i.id[2] && w[3] == i.id[3];
    assert w == i.id;
  }

  // ----- bytes from the SCSI side -----

  /** One byte arrives: its lane is strobed, the byte pointer steps, and a word is complete with
      its fourth byte. */
  predicate ByteArrives(s: State, i: Inputs) {
    !i.reset && i.loadByte && i.incByte && !i.loadHigh && !i.loadLow && !i.dec && (i.inc <==> s.bytePtr == 3)
  }

  function Flatten(words: seq<Word>): seq<byte> {
    if words == [] then [] else Flatten(words[..|words| - 1]) + words[|words| - 1]
  }

  /** All bytes so far: those of complete words, then those of the word being assembled. */
  function Bytes(sh: Shape, run: Run): seq<byte>
    requires InRange(sh, run.s)
  {
    Flatten(run.pushed) + run.s.buffer[run.s.writePtr][..run.s.bytePtr]
  }

  lemma ByteJoins(sh: Shape, run: Run, i: Inputs)
    requires sh.Valid() && Faithful(sh, run) && Orderly(sh, run.s, i) && ByteArrives(run.s, i)
    ensures Bytes(sh, Advance(sh, run, i)) == Bytes(sh, run) + [i.id[run.s.bytePtr]]
  {
    hide Pow2, CountNext, Waiting;
    var s, w := run.s, run.s.buffer[run.s.writePtr];
    var w' := Merge(w, s.bytePtr, i);
    assert w'[..s.bytePtr + 1] == w[..s.bytePtr] + [i.id[s.bytePtr]];
    if i.inc {
      assert (run.pushed + [w'])[..|run.pushed|] == run.pushed;
      assert w'[..4] == w';
    } else {
      PointerWraps(sh, s.writePtr, false);
    }
  }

  predicate AllArrive(sh: Shape, run: Run, inputs: seq<Inputs>)
    requires InRange(sh, run.s)
    decreases |inputs|
  {
    inputs == [] || (ByteArrives(run.s, inputs[0]) && AllArrive(sh, Advance(sh, run, inputs[0]), inputs[1..]))
  }

  /** The bytes that arrive over a run, each on the lane the byte pointer names. */
  function Arrivals(sh: Shape, run: Run, inputs: seq<Inputs>): seq<byte>
    requires InRange(sh, run.s)
    decreases |inputs|
  {
    if inputs == [] then []
    else [inputs[0].id[run.s.bytePtr]] + Arrivals(sh, Advance(sh, run, inputs[0]), inputs[1..])
  }

  /** Bytes that arrive one by one are packed into words in order, four to a word, none lost. */
  lemma {:induction false} BytesInOrder(sh: Shape, run: Run, inputs: seq<Inputs>)
    requires sh.Valid() && Faithful(sh, run) && Obeys(sh, run, inputs) && AllArrive(sh, run, inputs)
    ensures Faithful(sh, RunOf(sh, run, inputs))
    ensures Bytes(sh, RunOf(sh, run, inputs)) == Bytes(sh, run) + Arrivals(sh, run, inputs)
    decreases |inputs|
  {
    hide Pow2, Cycle, Orderly, Waiting, ByteArrives, Bytes;
    if inputs == [] {
      assert Bytes(sh, run) + [] == Bytes(sh, run);
    } else {
      AdvanceKeeps(sh, run, inputs[0]);
      ByteJoins(sh, run, inputs[0]);
      BytesInOrder(sh, Advance(sh, run, inputs[0]), inputs[1..]);
      var b, rest := inputs[0].id[run.s.bytePtr], Arrivals(sh, Advance(sh, run, inputs[0]), inputs[1..]);
      assert Bytes(sh, run) + [b] + rest == Bytes(sh, run) + ([b] + rest);
    }
  }

  /** Of each input word in turn the byte on the next lane, modulo 4. */
  function LaneAfterLane(inputs: seq<Inputs>, from: nat): seq<byte> {
    seq(|inputs|, k requires 0 <= k < |inputs| => inputs[k].id[(from + k) % 4])
  }

  /** The byte pointer goes round the lanes, whatever else happens. */
  lemma {:induction false} ArrivalsGoRound(sh: Shape, run: Run, inputs: seq<Inputs>)
    requires InRange(sh, run.s) && AllArrive(sh, run, inputs)
    ensures Arrivals(sh, run, inputs) == LaneAfterLane(inputs, run.s.bytePtr)
    decreases |inputs|
  {
    hide Cycle, ByteArrives, Merge, Pow2;
    if inputs != [] {
      var run', rest := Advance(sh, run, inputs[0]), inputs[1..];
      ArrivalsGoRound(sh, run', rest);
      forall k | 0 < k < |inputs|
        ensures LaneAfterLane(rest, run'.s.bytePtr)[k - 1] == LaneAfterLane(inputs, run.s.bytePtr)[k]
      {
        LaneSteps(sh, run, inputs[0], k);
      }
      assert LaneAfterLane(inputs, run.s.bytePtr)[0] == inputs[0].id[run.s.bytePtr];
      assert LaneAfterLane(inputs, run.s.bytePtr)[1..] == LaneAfterLane(rest, run'.s.bytePtr);
    }
  }

  lemma LaneSteps(sh: Shape, run: Run, i: Inputs, k: nat)
    requires InRange(sh, run.s) && ByteArrives(run.s, i) && k > 0
    ensures (Advance(sh, run, i).s.bytePtr + (k - 1)) % 4 == (run.s.bytePtr + k) % 4
  {
    hide Pow2, CountNext, PointerNext, Merge;
    assert Advance(sh, run, i).s.bytePtr == if run.s.bytePtr == 3 then 0 else run.s.bytePtr + 1;
  }

  /** From power-up and a reset, the words are filled with the bytes that arrived, lane after lane;
      the lanes before the first one keep the zeros of the reset. */
  lemma BytesInOrderFromPowerUp(sh: Shape, s: State, inputs: seq<Inputs>)
    requires sh.Valid() && InRange(sh, s) && inputs != [] && inputs[0].reset
    requires Obeys(sh, Fresh(sh, inputs[0]), inputs[1..]) && AllArrive(sh, Fresh(sh, inputs[0]), inputs[1..])
    ensures InRange(sh, RunOf(sh, Run(s, [], []), inputs).s)
    ensures var from := StartLane(inputs[0]);
            Bytes(sh, RunOf(sh, Run(s, [], []), inputs))
            == ZERO[..from] + LaneAfterLane(inputs[1..], from)
  {
    hide Obeys, Pow2, Cycle, Bytes, AllArrive, Advance, RunOf, Waiting, Fresh, StartLane, LaneAfterLane;
    StartOver(sh, s, inputs);
    BytesInOrder(sh, Fresh(sh, inputs[0]), inputs[1..]);
    ArrivalsGoRound(sh, Fresh(sh, inputs[0]), inputs[1..]);
  }

  lemma StartOver(sh: Shape, s: State, inputs: seq<Inputs>)
    requires InRange(sh, s) && inputs != [] && inputs[0].reset
    ensures var start := Fresh(sh, inputs[0]);
            && Faithful(sh, start) && start.s.bytePtr == StartLane(inputs[0])
            && Bytes(sh, start) == ZERO[..StartLane(inputs[0])]
            && RunOf(sh, Run(s, [], []), inputs) == RunOf(sh, start, inputs[1..])
  {
    hide Cycle, Advance, Faithful, Pow2;
    ResetGivesFresh(sh, Run(s, [], []), inputs[0]);
  }
}
