/** What the messages about synchronous transfer program: period, offset and fast bit of the transfer
    register, for every byte that a target can put into them. */
module Agreements {
  import opened Basics
  import opened Commands
  import opened Placement
  import opened Messages
  import opened Timing
  import opened Driver
  import opened Invariants
  import opened Interrupts
  import opened Leaving

  /** The register value names the offset, at most 12, the fast bit, and the least entry of the period table
      that is not shorter than `ns`, or the last one if there is none or `ns` is below 2. */
  predicate Programs(v: bv8, t: SxTable, ns: nat, offset: nat, fast: bool) {
    && (v & 0x0f) as int == (if offset < 12 then offset else 12)
    && v & 0x80 == (if fast then 0x80 else 0)
    && (if 2 <= ns <= t[7].periodNs then IsLeast(ns, t, EntryOf(v)) else EntryOf(v) == 7)
  }

  /** Asynchronous transfer with the period that was set for it, to a multiple of 4 ns. */
  predicate ProgramsAsync(v: bv8, t: SxTable, period: nat) {
    Programs(v, t, period / 4 * 4 % 0x1_0000_0000, 0, false)
  }

  /** What a reply with this period code and offset calls for: that offset and the period of the code,
      doubled in fast mode. Without an offset, asynchronous transfer with the period of the code if there
      is one. */
  predicate AsReplied(v: bv8, cfg: Config, code: nat, offset: nat) {
    if offset > 0 then Programs(v, cfg.table, if cfg.fast then 8 * code else 4 * code, offset, cfg.fast)
    else if code > 0 then Programs(v, cfg.table, 4 * code, 0, false)
    else ProgramsAsync(v, cfg.table, cfg.defaultSxPer)
  }

  /** The buffer with the byte that has just arrived. */
  function Arrived(m: MsgIn, b: byte): MsgBuf
    requires m.ptr < 8
  {
    m.buf[m.ptr := b]
  }

  /** The byte is the last one of an extended message. */
  predicate EndsExtended(m: MsgIn, b: byte) {
    2 <= m.ptr < 8 && m.buf[0] == 1 && m.ptr - 1 == Arrived(m, b)[1]
  }

  lemma XferPrograms(code: nat, offset: nat, fast: bool, t: SxTable)
    requires Shaped(t)
    ensures var ns := (if offset != 0 && fast then code * 2 % 0x1_0000_0000 else code) * 4 % 0x1_0000_0000;
            Programs(SyncXfer(code, offset, fast, t), t, ns, offset, offset != 0 && fast)
  {
    hide SyncXfer, EntryOf;
    FieldsReadBack(code, offset, fast, t);
    RoundsUp(CodeToNs(code, offset, fast), t);
  }

  lemma AsyncPrograms(cfg: Config, period: nat)
    requires Shaped(cfg.table)
    ensures ProgramsAsync(AsyncXfer(period, cfg), cfg.table, period)
  {
    hide SyncXfer, Programs;
    XferPrograms(period / 4, 0, false, cfg.table);
  }

  // ----- SDTR -----

  /** An SDTR message in answer to the driver's own is followed. The buffer is read to the fifth byte,
      whatever the length of the message. */
  lemma ReplyPrograms(cfg: Config, s: Driver, r: Chip)
    requires Shaped(cfg.table) && Arrives(cfg, s, r) && InPhase(r.sr, 7)
    requires EndsExtended(s.msgIn, r.data) && Arrived(s.msgIn, r.data)[2] == 1
    requires s.place.connected != null && s.stat[s.place.connected.id] == SyncWaiting
    ensures Step(cfg, s, Interrupt(r)).Ok?
    ensures var t, s', m := s.place.connected.id, Step(cfg, s, Interrupt(r)).next, Arrived(s.msgIn, r.data);
            && s'.stat == s.stat[t := SyncSet] && s'.xfer == s.xfer[t := s'.xfer[t]] && s'.outgoing == s.outgoing
            && AsReplied(s'.xfer[t], cfg, m[3], m[4])
  {
    hide Arrives, AsReplied, Shaped, Step, Assemble, EndsExtended, OnExtended;
    var s1, m := ExtendedArrives(cfg, s, r);
    ReplyXfer(cfg, s1, s.place.connected, m);
  }

  /** A reply of three bytes, the usual case: period code and offset are its own. */
  lemma WholeReplyPrograms(cfg: Config, s: Driver, r: Chip)
    requires Shaped(cfg.table) && Arrives(cfg, s, r) && InPhase(r.sr, 7)
    requires s.msgIn.ptr == 4 && s.msgIn.buf[0] == 1 && s.msgIn.buf[1] == 3 && s.msgIn.buf[2] == 1 && r.data > 0
    requires s.place.connected != null && s.stat[s.place.connected.id] == SyncWaiting
    ensures Step(cfg, s, Interrupt(r)).Ok?
    ensures var t, s', code: nat := s.place.connected.id, Step(cfg, s, Interrupt(r)).next, s.msgIn.buf[3];
            && s'.stat[t] == SyncSet
            && Programs(s'.xfer[t], cfg.table, if cfg.fast then 8 * code else 4 * code, r.data, cfg.fast)
  {
    hide Arrives, Programs, Shaped, Step, ProgramsAsync;
    ReplyPrograms(cfg, s, r);
  }

  lemma ReplyXfer(cfg: Config, s: Driver, c: Cmd, m: MsgBuf)
    requires Shaped(cfg.table) && s.stat[c.id] == SyncWaiting && m[2] == 1
    ensures var s' := OnExtended(cfg, s, c, m);
            && s'.stat == s.stat[c.id := SyncSet] && s'.xfer == s.xfer[c.id := s'.xfer[c.id]]
            && s'.outgoing == s.outgoing
            && AsReplied(s'.xfer[c.id], cfg, m[3], m[4])
  {
    hide AsReplied, SyncXfer, Shaped, AsyncXfer, SdtrXfer, SyncMsg;
    SdtrAsReplied(cfg, s, c, m);
  }

  lemma SdtrAsReplied(cfg: Config, s: Driver, c: Cmd, m: MsgBuf)
    requires Shaped(cfg.table) && s.stat[c.id] == SyncWaiting
    ensures AsReplied(SdtrXfer(cfg, s, c, m), cfg, m[3], m[4])
  {
    hide Programs, SyncXfer, Shaped, AsyncXfer, ProgramsAsync;
    ByteNs(m[3]);
    XferPrograms(m[3], m[4], cfg.fast, cfg.table);
    XferPrograms(m[3], m[4], false, cfg.table);
    AsyncPrograms(cfg, cfg.defaultSxPer);
  }

  lemma ByteNs(code: byte)
    ensures code as nat * 2 % 0x1_0000_0000 * 4 % 0x1_0000_0000 == 8 * code as nat
    ensures code as nat * 4 % 0x1_0000_0000 == 4 * code as nat
  {
  }

  /** An SDTR message out of turn: asynchronous with the default period, and the driver answers with that
      period and offset 0. */
  lemma UnaskedPrograms(cfg: Config, s: Driver, r: Chip)
    requires Shaped(cfg.table) && Arrives(cfg, s, r) && InPhase(r.sr, 7)
    requires EndsExtended(s.msgIn, r.data) && Arrived(s.msgIn, r.data)[2] == 1
    requires s.place.connected != null && s.stat[s.place.connected.id] != SyncWaiting
    ensures Step(cfg, s, Interrupt(r)).Ok?
    ensures var t, s' := s.place.connected.id, Step(cfg, s, Interrupt(r)).next;
            && s'.stat == s.stat[t := SyncSet] && s'.xfer == s.xfer[t := s'.xfer[t]]
            && ProgramsAsync(s'.xfer[t], cfg.table, cfg.defaultSxPer)
            && s'.outgoing == [1, 3, 1, cfg.defaultSxPer / 4 % 256, 0]
  {
    hide Arrives, Programs, Shaped, Step, Assemble, EndsExtended, SyncXfer, AsyncXfer;
    var s1, m := ExtendedArrives(cfg, s, r);
    AsyncPrograms(cfg, cfg.defaultSxPer);
  }

  /** Any other extended message changes no setting: WDTR (code 3) is answered with 8 bits, the rest with
      MESSAGE REJECT (7). */
  lemma OtherExtended(cfg: Config, s: Driver, r: Chip)
    requires Arrives(cfg, s, r) && InPhase(r.sr, 7)
    requires EndsExtended(s.msgIn, r.data) && Arrived(s.msgIn, r.data)[2] != 1
    ensures Step(cfg, s, Interrupt(r)).Ok?
    ensures var s', code := Step(cfg, s, Interrupt(r)).next, Arrived(s.msgIn, r.data)[2];
            && s'.stat == s.stat && s'.xfer == s.xfer
            && s'.outgoing == if code == 3 then [1, 2, 3, 0] else [7]
  {
    hide Arrives, Step, Assemble, EndsExtended;
    var s1, m := ExtendedArrives(cfg, s, r);
  }

  /** The last byte of an extended message brings the driver to its answer. */
  lemma ExtendedArrives(cfg: Config, s: Driver, r: Chip) returns (s1: Driver, m: MsgBuf)
    requires Arrives(cfg, s, r) && InPhase(r.sr, 7) && EndsExtended(s.msgIn, r.data)
    ensures s.place.connected != null && m == Arrived(s.msgIn, r.data)
    ensures s1.stat == s.stat && s1.xfer == s.xfer && s1.outgoing == s.outgoing
    ensures var o := Step(cfg, s, Interrupt(r));
            o.Ok? && o.next == WithCode(OnExtended(cfg, s1, s.place.connected, m), Connected)
  {
    hide Arrives, Inv, CauseOf, StopDma, Stopped, Step, OnExtended, OnShort;
    Enters(cfg, s, r);
    PhaseCause(r.sr);
    InMessageNow(cfg, s, r);
    m := Arrived(s.msgIn, r.data);
    WholeNow(s.msgIn, r.data);
    var s0, c := StopDma(s, r.count), s.place.connected;
    s1 := WithScp(s0, c, ScpOf(s0, c).(message := EXTENDED_MESSAGE)).(msgIn := MsgIn(m, 0));
  }

  lemma WholeNow(m: MsgIn, b: byte)
    requires EndsExtended(m, b)
    ensures Assemble(m, b).Whole? && Assemble(m, b).message.Extended? && Assemble(m, b).next == MsgIn(Arrived(m, b), 0)
  {
  }

  // ----- MESSAGE REJECT and the rest -----

  /** MESSAGE REJECT (7) in answer to the driver's SDTR: asynchronous with the default period. Otherwise
      it changes no setting, and neither does any other message of one byte or any part of a longer one. */
  lemma OtherBytes(cfg: Config, s: Driver, r: Chip)
    requires Shaped(cfg.table) && Arrives(cfg, s, r) && InPhase(r.sr, 7) && !EndsExtended(s.msgIn, r.data)
    ensures s.place.connected != null && Step(cfg, s, Interrupt(r)).Ok?
    ensures var t, s' := s.place.connected.id, Step(cfg, s, Interrupt(r)).next;
            if s.msgIn.ptr == 0 && r.data == 7 && s.stat[t] == SyncWaiting then
              && s'.stat == s.stat[t := SyncSet] && s'.xfer == s.xfer[t := s'.xfer[t]]
              && ProgramsAsync(s'.xfer[t], cfg.table, cfg.defaultSxPer)
            else s'.stat == s.stat && s'.xfer == s.xfer
  {
    hide Arrives, Inv, CauseOf, StopDma, Stopped, Step, OnExtended, AsyncXfer, ProgramsAsync, Shaped;
    Enters(cfg, s, r);
    PhaseCause(r.sr);
    InMessageNow(cfg, s, r);
    NotWholeNow(s.msgIn, r.data);
    hide Assemble, EndsExtended;
    AsyncPrograms(cfg, cfg.defaultSxPer);
  }

  lemma NotWholeNow(m: MsgIn, b: byte)
    requires InMessage(m) && !EndsExtended(m, b)
    ensures var a := Assemble(m, b);
            !a.OutOfBounds? && (a.Whole? ==> a.message == Short(b) && m.ptr == 0)
            && (m.ptr == 0 && b != 1 ==> a.Whole?)
  {
  }

  /** At start-up and after a reset nothing is negotiated, and every target is asynchronous with 376 ns. */
  lemma ResetPrograms(cfg: Config, s: Driver, t: Target)
    requires Shaped(cfg.table)
    ensures Step(cfg, s, Reset).Ok?
    ensures forall s' | s' == Initial(cfg) || s' == Step(cfg, s, Reset).next ::
              s'.stat[t] == SyncUnset && ProgramsAsync(s'.xfer[t], cfg.table, 376)
  {
    hide RemoveAll, Active, AsyncXfer, ProgramsAsync;
    AsyncPrograms(cfg, 376);
  }
}
