/** The position of a command in its scatter-gather list, and what partial transfers do to it. */
module ScatterGather {
  import opened Commands

  function Total(sg: seq<Segment>): nat {
    if sg == [] then 0 else sg[0].len + Total(sg[1..])
  }

  /** The scratchpad of a freshly queued command. The message byte is not initialised, so it is
      whatever the structure held before. */
  function Begin(sg: seq<Segment>, stale: Scp): Scp {
    if sg == [] then
      stale.(buffer := 0, buffersResidual := 0, ptr := 0, thisResidual := 0, status := ILLEGAL_STATUS_BYTE)
    else
      stale.(buffer := 0, buffersResidual := |sg| - 1, ptr := sg[0].addr, thisResidual := sg[0].len,
             status := ILLEGAL_STATUS_BYTE)
  }

  /** A used-up buffer gives way to the next one. */
  function NextBuffer(sg: seq<Segment>, x: Scp): Scp {
    if x.thisResidual == 0 && x.buffersResidual != 0 && x.buffer + 1 < |sg| then
      var next := sg[x.buffer + 1];
      x.(buffer := x.buffer + 1, buffersResidual := x.buffersResidual - 1,
         thisResidual := next.len, ptr := next.addr)
    else x
  }

  /** After a transfer the chip's counter says how many bytes are left. */
  function Advance(x: Scp, left: nat): Scp {
    x.(thisResidual := left, ptr := x.ptr + x.thisResidual - left)
  }

  /** Conservation: moved bytes, the rest of the current buffer and the buffers not yet started
      make up the whole command, and `ptr` is the current position in the current buffer. */
  predicate Flow(sg: seq<Segment>, x: Scp, moved: int) {
    if sg == [] then
      x.buffersResidual == 0 && x.thisResidual == 0 && moved == 0
    else
      && x.buffer + x.buffersResidual + 1 == |sg|
      && x.thisResidual <= sg[x.buffer].len
      && x.ptr == sg[x.buffer].addr + (sg[x.buffer].len - x.thisResidual)
      && moved + x.thisResidual + Total(sg[x.buffer + 1..]) == Total(sg)
  }

  lemma BeginFlows(sg: seq<Segment>, stale: Scp)
    ensures Flow(sg, Begin(sg, stale), 0)
  {
  }

  lemma NextBufferFlows(sg: seq<Segment>, x: Scp, moved: int)
    requires Flow(sg, x, moved)
    ensures Flow(sg, NextBuffer(sg, x), moved)
    ensures NextBuffer(sg, x).thisResidual == 0 ==>
      x.thisResidual == 0 && (x.buffersResidual == 0 || sg[x.buffer + 1].len == 0)
  {
    if x.thisResidual == 0 && x.buffersResidual != 0 {
      assert sg[x.buffer + 1..][0] == sg[x.buffer + 1];
      assert sg[x.buffer + 1..][1..] == sg[x.buffer + 2..];
    }
  }

  lemma AdvanceFlows(sg: seq<Segment>, x: Scp, moved: int, left: nat)
    requires Flow(sg, x, moved) && left <= x.thisResidual
    ensures Flow(sg, Advance(x, left), moved + x.thisResidual - left)
  {
  }
}
