/** Messages from the target arrive one byte per interrupt; the driver collects extended
    messages in `incoming_msg` and dispatches each message on its last byte. */
module Messages {
  import opened Basics

  // SCSI-2 message codes, section 6.6 of ANSI X3.131-1994.
  const COMMAND_COMPLETE: byte := 0x00
  const EXTENDED_MESSAGE: byte := 0x01
  const SAVE_POINTERS: byte := 0x02
  const RESTORE_POINTERS: byte := 0x03
  const DISCONNECT: byte := 0x04
  const MESSAGE_REJECT: byte := 0x07
  const NOP: byte := 0x08
  const EXTENDED_SDTR: byte := 0x01
  const EXTENDED_WDTR: byte := 0x03

  type MsgBuf = s: seq<byte> | |s| == 8
    witness [0, 0, 0, 0, 0, 0, 0, 0]

  /** `incoming_msg` and `incoming_ptr`. */
  datatype MsgIn = MsgIn(buf: MsgBuf, ptr: nat)

  datatype Message = Short(code: byte) | Extended(payload: seq<byte>)

  datatype Assembly =
    | OutOfBounds                          // a store beyond incoming_msg
    | Wants(next: MsgIn)                   // an extended message needs more bytes
    | Whole(next: MsgIn, message: Message)

  /** What the driver does with one message byte. */
  function Assemble(m: MsgIn, b: byte): Assembly {
    if m.ptr >= 8 then OutOfBounds else
    var buf := m.buf[m.ptr := b];
    if buf[0] != EXTENDED_MESSAGE then Whole(MsgIn(buf, 0), Short(b))
    else if m.ptr >= 2 && m.ptr - 1 == buf[1] then Whole(MsgIn(buf, 0), Extended(buf[2..m.ptr + 1]))
    else Wants(MsgIn(buf, m.ptr + 1))
  }

  datatype Feeding = Lost | Fed(next: MsgIn, messages: seq<Message>)

  /** The per-interrupt machine on a stream of bytes, with the messages it dispatched. */
  function Feed(m: MsgIn, bytes: seq<byte>): Feeding
    decreases |bytes|
  {
    if bytes == [] then Fed(m, []) else
    match Assemble(m, bytes[0])
    case OutOfBounds => Lost
    case Wants(next) => Feed(next, bytes[1..])
    case Whole(next, msg) =>
      match Feed(next, bytes[1..])
      case Lost => Lost
      case Fed(last, msgs) => Fed(last, [msg] + msgs)
  }

  // ----- the whole-message view -----

  predicate WellFormed(msg: Message) {
    match msg
    case Short(code) => code != EXTENDED_MESSAGE
    case Extended(payload) => 1 <= |payload| <= 6
  }

  function Encode(msg: Message): seq<byte>
    requires WellFormed(msg)
  {
    match msg
    case Short(code) => [code]
    case Extended(payload) => [EXTENDED_MESSAGE, |payload|] + payload
  }

  function Stream(msgs: seq<Message>): seq<byte>
    requires forall msg :: msg in msgs ==> WellFormed(msg)
  {
    if msgs == [] then [] else Encode(msgs[0]) + Stream(msgs[1..])
  }

  // ----- theorems -----

  /** Inside an extended message the first bytes are known and the end is in sight. */
  predicate InMessage(m: MsgIn) {
    && m.ptr < 8
    && (m.ptr > 0 ==> m.buf[0] == EXTENDED_MESSAGE)
    && (m.ptr >= 2 ==> 1 <= m.buf[1] <= 6 && m.ptr - 1 <= m.buf[1])
  }

  /** A length byte must leave room for the message in the buffer. */
  predicate Acceptable(m: MsgIn, b: byte) {
    m.ptr == 1 ==> 1 <= b <= 6
  }

  /** The buffer is never overrun, and stays usable exactly as long as the length bytes are
      from 1 to 6. */
  lemma AssembleKeeps(m: MsgIn, b: byte)
    requires InMessage(m)
    ensures !Assemble(m, b).OutOfBounds?
    ensures InMessage(Assemble(m, b).next) <==> Acceptable(m, b)
  {
    if m.ptr == 1 {
      assert m.buf[m.ptr := b][1] == b;
    }
  }

  /** One more byte of an extended message that is not its last one. */
  lemma MiddleByte(m: MsgIn, payload: seq<byte>)
    requires InMessage(m) && m.ptr >= 2 && |payload| == m.buf[1] && m.ptr - 1 < |payload|
    requires m.buf[2..m.ptr] == payload[..m.ptr - 2]
    ensures var next := MsgIn(m.buf[m.ptr := payload[m.ptr - 2]], m.ptr + 1);
            && Assemble(m, payload[m.ptr - 2]) == Wants(next)
            && next.buf[2..next.ptr] == payload[..next.ptr - 2]
            && next.buf[..2] == m.buf[..2]
            && next.buf[2 + |payload|..] == m.buf[2 + |payload|..]
  {
    var buf := m.buf[m.ptr := payload[m.ptr - 2]];
    assert buf[2..m.ptr + 1] == m.buf[2..m.ptr] + [payload[m.ptr - 2]];
    assert payload[..m.ptr - 1] == payload[..m.ptr - 2] + [payload[m.ptr - 2]];
  }

  lemma FinalByte(m: MsgIn, payload: seq<byte>)
    requires InMessage(m) && m.ptr >= 2 && |payload| == m.buf[1] && m.ptr - 1 == |payload|
    requires m.buf[2..m.ptr] == payload[..m.ptr - 2]
    ensures Assemble(m, payload[m.ptr - 2])
            == Whole(MsgIn(m.buf[..2] + payload + m.buf[2 + |payload|..], 0), Extended(payload))
  {
    var buf := m.buf[m.ptr := payload[m.ptr - 2]];
    assert buf[2..m.ptr + 1] == m.buf[2..m.ptr] + [payload[m.ptr - 2]];
    assert payload == payload[..m.ptr - 2] + [payload[m.ptr - 2]];
    assert buf == m.buf[..2] + payload + m.buf[2 + |payload|..];
  }

  /** The rest of an extended message completes it, whatever the first bytes left behind. */
  lemma {:induction false} RestOfExtended(m: MsgIn, payload: seq<byte>, tail: seq<byte>)
    requires InMessage(m) && m.ptr >= 2 && |payload| == m.buf[1]
    requires m.buf[2..m.ptr] == payload[..m.ptr - 2]
    ensures var whole := MsgIn(m.buf[..2] + payload + m.buf[2 + |payload|..], 0);
            Feed(m, payload[m.ptr - 2..] + tail)
            == match Feed(whole, tail) case Lost => Lost case Fed(l, ms) => Fed(l, [Extended(payload)] + ms)
    decreases 8 - m.ptr
  {
    var b, bytes := payload[m.ptr - 2], payload[m.ptr - 2..] + tail;
    assert bytes[0] == b && bytes[1..] == payload[m.ptr - 1..] + tail;
    if m.ptr - 1 == |payload| {
      FinalByte(m, payload);
      assert bytes[1..] == tail;
    } else {
      MiddleByte(m, payload);
      RestOfExtended(MsgIn(m.buf[m.ptr := b], m.ptr + 1), payload, tail);
    }
  }

  /** The machine and the parser agree on one message. */
  lemma OneMessage(m: MsgIn, msg: Message, tail: seq<byte>) returns (next: MsgIn)
    requires m.ptr == 0 && WellFormed(msg)
    ensures next.ptr == 0
    ensures Feed(m, Encode(msg) + tail)
            == match Feed(next, tail) case Lost => Lost case Fed(l, ms) => Fed(l, [msg] + ms)
  {
    var bytes := Encode(msg) + tail;
    match msg
    case Short(code) =>
      next := MsgIn(m.buf[0 := code], 0);
      assert bytes[1..] == tail;
    case Extended(payload) =>
      var m1 := MsgIn(m.buf[0 := EXTENDED_MESSAGE], 1);
      var m2 := MsgIn(m1.buf[1 := |payload|], 2);
      assert bytes[1..] == [|payload|] + payload + tail;
      assert bytes[1..][1..] == payload[0..] + tail;
      assert Feed(m, bytes) == Feed(m1, bytes[1..]) == Feed(m2, payload[0..] + tail);
      RestOfExtended(m2, payload, tail);
      next := MsgIn(m2.buf[..2] + payload + m2.buf[2 + |payload|..], 0);
  }

  /** Over any sequence of messages the per-interrupt machine dispatches exactly those
      messages, in order, each on its last byte, and ends at the start of the buffer. */
  lemma {:induction false} StreamIsParsed(m: MsgIn, msgs: seq<Message>) returns (next: MsgIn)
    requires m.ptr == 0
    requires forall msg :: msg in msgs ==> WellFormed(msg)
    ensures next.ptr == 0 && Feed(m, Stream(msgs)) == Fed(next, msgs)
    decreases |msgs|
  {
    if msgs == [] {
      next := m;
    } else {
      var first := OneMessage(m, msgs[0], Stream(msgs[1..]));
      next := StreamIsParsed(first, msgs[1..]);
      assert [msgs[0]] + msgs[1..] == msgs;
    }
  }

  /** A length byte of 0 or above 6 is never dispatched: the collection runs out of the buffer. */
  lemma {:induction false} OverlongIsLost(m: MsgIn, bytes: seq<byte>)
    requires 2 <= m.ptr <= 8 && m.buf[0] == EXTENDED_MESSAGE && !(1 <= m.buf[1] <= 6)
    requires |bytes| == 9 - m.ptr
    ensures Feed(m, bytes) == Lost
    decreases 8 - m.ptr
  {
    if m.ptr < 8 {
      OverlongIsLost(MsgIn(m.buf[m.ptr := bytes[0]], m.ptr + 1), bytes[1..]);
    }
  }

  /** The length bytes the assembler can deal with are exactly 1 to 6. */
  lemma LengthByteLimits(m: MsgIn, n: byte, rest: seq<byte>)
    requires m.ptr == 0 && |rest| == 7
    ensures !(1 <= n <= 6) ==> Feed(m, [EXTENDED_MESSAGE, n] + rest) == Lost
    ensures 1 <= n <= 6 ==>
      Feed(m, [EXTENDED_MESSAGE, n] + rest[..n]).Fed? &&
      Feed(m, [EXTENDED_MESSAGE, n] + rest[..n]).messages == [Extended(rest[..n])]
  {
    if 1 <= n <= 6 {
      var msg := Extended(rest[..n]);
      var _ := OneMessage(m, msg, []);
      assert Encode(msg) + [] == [EXTENDED_MESSAGE, n] + rest[..n];
    } else {
      var m1 := MsgIn(m.buf[0 := EXTENDED_MESSAGE], 1);
      var m2 := MsgIn(m1.buf[1 := n], 2);
      var bytes := [EXTENDED_MESSAGE, n] + rest;
      assert bytes[1..] == [n] + rest && bytes[1..][1..] == rest;
      OverlongIsLost(m2, rest);
    }
  }
}
