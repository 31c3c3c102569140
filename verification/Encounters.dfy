/** Runs from start-up that meet the cases in which the driver fails: they are not hypothetical. */
module Encounters {
  import opened Basics
  import opened Commands
  import opened Placement
  import opened PlacementProofs
  import opened Messages
  import opened Timing
  import opened Driver
  import opened Invariants
  import opened Runs
  import opened Negotiation
  import opened Proposals
  import opened Offers

  // ----- runs one call at a time -----

  lemma {:induction false} RunAppend(cfg: Config, s0: Driver, es: seq<Event>, e: Event, s: Driver)
    requires Obeys(cfg, s0, es) && RunOf(cfg, s0, es) == Ok(s)
    requires Plausible(s, e) && Admissible(cfg, s, e) && Step(cfg, s, e).Ok?
    ensures Obeys(cfg, s0, es + [e]) && RunOf(cfg, s0, es + [e]) == Step(cfg, s, e)
    decreases |es|
  {
    hide Plausible, Admissible, Step;
    if es == [] {
      assert es + [e] == [e] && [e][1..] == [];
    } else {
      assert (es + [e])[1..] == es[1..] + [e];
      RunAppend(cfg, Step(cfg, s0, es[0]).next, es[1..], e, s);
    }
  }

  lemma Extend(cfg: Config, es: seq<Event>, s: Driver, e: Event) returns (es': seq<Event>, s': Driver)
    requires Reachable(cfg, es, s) && Plausible(s, e) && Admissible(cfg, s, e)
    ensures es' == es + [e] && Step(cfg, s, e) == Ok(s') && Reachable(cfg, es', s')
  {
    hide Plausible, Admissible, Step, Inv, Obeys, RunOf;
    ReachableInv(cfg, es, s);
    StepKeeps(cfg, s, e);
    es', s' := es + [e], Step(cfg, s, e).next;
    RunAppend(cfg, Initial(cfg), es, e, s);
  }

  /** An interrupt of cause `sr`, with the byte that `read_1_byte` would get. */
  function Irq(sr: byte, data: byte): Chip {
    Chip(0x80, sr, 0, 0, 0, 0, data, (0, 0), false)
  }

  lemma IrqIsSeen(sr: byte, data: byte)
    ensures !Masked(Irq(sr, data))
  {
  }

  /** The bus is idle and nothing waits. */
  predicate AtRest(s: Driver) {
    s.place.selecting == null && s.place.connected == null && s.place.inputQ == [] && !s.dmaOn
  }

  lemma StartsAtRest(cfg: Config)
    ensures Reachable(cfg, [], Initial(cfg)) && AtRest(Initial(cfg))
  {
  }

  /** The first command for a target that has not been contacted is selected. */
  lemma FirstSelection(cfg: Config, es: seq<Event>, s: Driver, c: Cmd) returns (es': seq<Event>, s': Driver)
    requires Reachable(cfg, es, s) && AtRest(s) && c !in Held(s.place)
    requires s.stat[c.id] == SyncUnset && UnitOf(c) !in s.place.busy
    ensures Reachable(cfg, es', s') && !s'.dmaOn && s'.msgIn == s.msgIn
    ensures s'.place == Place([], c, null, s.place.disconnectedQ, s.place.busy + {UnitOf(c)}, Selecting)
    ensures s'.stat == s.stat[c.id := SyncFirst] && s'.xfer == s.xfer && s'.log.sent == s.log.sent
  {
    hide Reachable, Permit, Held;
    es', s' := Extend(cfg, es, s, Queue(c, BLANK, false));
    assert Enqueue(s.place, c).inputQ == [c];
    assert RemoveAt([c], 0) == [];
  }

  /** It is connected when selection succeeds, and its target is asked for synchronous transfer. */
  lemma FirstConnection(cfg: Config, es: seq<Event>, s: Driver) returns (es': seq<Event>, s': Driver)
    requires Reachable(cfg, es, s) && !s.dmaOn && s.place.selecting != null && s.place.connected == null
    requires s.stat[s.place.selecting.id] == SyncFirst
    ensures Reachable(cfg, es', s') && !s'.dmaOn && s'.msgIn == s.msgIn
    ensures s'.place == Selected(s.place) && s'.xfer == s.xfer
    ensures s'.stat == s.stat[s.place.selecting.id := SyncWaiting] && s'.log.sent == s.log.sent
    ensures IsProposal(s'.outgoing)
    ensures OfferIn(s'.outgoing) == [if s.place.selecting.id in cfg.noSync then 0 else OPTIMUM_SX_OFF]
  {
    hide Reachable, SyncMsg, OfferIn;
    IrqIsSeen(0x11, 0);
    GreetingSuits(cfg, s, s.place.selecting);
    hide Greeting;
    GreetingProposes(cfg, s, s.place.selecting);
    es', s' := Extend(cfg, es, s, Interrupt(Irq(0x11, 0)));
  }

  lemma GreetingProposes(cfg: Config, s: Driver, c: Cmd)
    requires s.stat[c.id] == SyncFirst
    ensures IsProposal(Greeting(cfg, s, c))
  {
    hide SyncMsg;
  }

  /** A MESSAGE OUT phase, of which the target takes all but the last `left` bytes. */
  lemma Sends(cfg: Config, es: seq<Event>, s: Driver, left: nat) returns (es': seq<Event>, s': Driver)
    requires Reachable(cfg, es, s) && !s.dmaOn && s.place.connected != null && left <= |MessageOf(s)|
    ensures Reachable(cfg, es', s') && !s'.dmaOn && s'.place == s.place.(state := Connected)
    ensures s'.stat == s.stat && s'.xfer == s.xfer && s'.msgIn == s.msgIn && s'.outgoing == []
    ensures s'.log.sent == s.log.sent + [Sent(s.place.connected, TakenOf(MessageOf(s), left))]
  {
    hide Reachable, TakenOf;
    var r := Irq(0x1e, 0).(pioLeft := left);
    es', s' := Extend(cfg, es, s, Interrupt(r));
  }

  /** The whole message is sent, and with it an offer. */
  lemma MakesOffer(cfg: Config, es: seq<Event>, s: Driver) returns (es': seq<Event>, s': Driver)
    requires Reachable(cfg, es, s) && !s.dmaOn && s.place.connected != null && s.outgoing != []
    ensures Reachable(cfg, es', s') && !s'.dmaOn && s'.place == s.place.(state := Connected)
    ensures s'.stat == s.stat && s'.xfer == s.xfer && s'.msgIn == s.msgIn && s'.outgoing == []
    ensures forall t :: 0 <= t < 8 ==>
              OffersTo(s'.log.sent, t) ==
              OffersTo(s.log.sent, t) + if t == s.place.connected.id then OfferIn(s.outgoing) else []
  {
    hide Reachable, OfferIn;
    es', s' := Sends(cfg, es, s, 0);
    assert TakenOf(s.outgoing, 0) == s.outgoing;
    assert s'.log.sent[..|s.log.sent|] == s.log.sent;
  }

  /** The target sends one byte of a message. */
  lemma MessageByte(cfg: Config, es: seq<Event>, s: Driver, b: byte) returns (es': seq<Event>, s': Driver)
    requires Reachable(cfg, es, s) && !s.dmaOn && s.place.connected != null && Acceptable(s.msgIn, b)
    ensures Reachable(cfg, es', s') && !s'.dmaOn && OnMessIn(cfg, s, Irq(0x1f, b)) == Ok(s')
    ensures s'.place == s.place.(state := s'.place.state)
  {
    hide Reachable, OnMessIn, Acceptable;
    IrqIsSeen(0x1f, b);
    es', s' := Extend(cfg, es, s, Interrupt(Irq(0x1f, b)));
    MessInPlace(cfg, s, Irq(0x1f, b));
  }

  lemma MessInPlace(cfg: Config, s: Driver, r: Chip)
    requires OnMessIn(cfg, s, r).Ok?
    ensures var s' := OnMessIn(cfg, s, r).next; s'.place == s.place.(state := s'.place.state) && s'.dmaOn == s.dmaOn
  {
    hide Assemble, OnExtended, OnShort;
    var c := s.place.connected;
    match Assemble(s.msgIn, r.data)
    case Wants(_) =>
    case Whole(next, Extended(_)) =>
      ExtendedPlace(cfg, WithScp(s, c, ScpOf(s, c).(message := EXTENDED_MESSAGE)).(msgIn := next), c, next.buf);
    case Whole(next, Short(code)) =>
      ShortPlace(cfg, WithScp(s, c, ScpOf(s, c).(message := code)).(msgIn := next), c, code);
  }

  lemma ExtendedPlace(cfg: Config, s: Driver, c: Cmd, ucp: MsgBuf)
    ensures var s' := OnExtended(cfg, s, c, ucp); s'.place == s.place && s'.dmaOn == s.dmaOn
  {
    hide SdtrXfer, SyncMsg;
  }

  lemma ShortPlace(cfg: Config, s: Driver, c: Cmd, code: byte)
    ensures var s' := OnShort(cfg, s, c, code); s'.place == s.place.(state := s'.place.state) && s'.dmaOn == s.dmaOn
  {
    hide SyncXfer;
  }

  /** The connected command disconnects for the time being. */
  lemma Departure(cfg: Config, es: seq<Event>, s: Driver) returns (es': seq<Event>, s': Driver)
    requires Reachable(cfg, es, s) && !s.dmaOn && s.place.connected != null && s.place.selecting == null
    requires s.place.inputQ == [] && s.place.state == PreTmpDisc
    ensures Reachable(cfg, es', s') && !s'.dmaOn && s'.place == Park(s.place)
    ensures s'.stat == s.stat && s'.xfer == s.xfer && s'.msgIn == s.msgIn
    ensures s'.outgoing == s.outgoing && s'.log.sent == s.log.sent
  {
    hide Reachable;
    IrqIsSeen(0x85, 0);
    es', s' := Extend(cfg, es, s, Interrupt(Irq(0x85, 0)));
  }

  /** The target leaves the bus without a word. */
  lemma Vanishes(cfg: Config, es: seq<Event>, s: Driver) returns (es': seq<Event>, s': Driver)
    requires Reachable(cfg, es, s) && !s.dmaOn && s.place.connected != null && s.place.selecting == null
    requires s.place.inputQ == []
    ensures Reachable(cfg, es', s') && AtRest(s') && s'.place == Finish(s.place, s.place.connected)
    ensures s'.stat == s.stat && s'.xfer == s.xfer && s'.msgIn == s.msgIn
    ensures s'.outgoing == s.outgoing && s'.log.sent == s.log.sent
  {
    hide Reachable;
    IrqIsSeen(0x41, 0);
    es', s' := Extend(cfg, es, s, Interrupt(Irq(0x41, 0)));
  }

  // ----- a reselection while another command is being selected -----

  /** The message DISCONNECT, and the disconnection after it. */
  lemma Disconnects(cfg: Config, es: seq<Event>, s: Driver) returns (es': seq<Event>, s': Driver)
    requires Reachable(cfg, es, s) && !s.dmaOn && s.place.connected != null && s.place.selecting == null
    requires s.place.inputQ == [] && s.msgIn.ptr == 0
    ensures Reachable(cfg, es', s') && AtRest(s') && s'.stat == s.stat && s'.xfer == s.xfer
    ensures s'.place == Park(s.place.(state := PreTmpDisc))
    ensures s'.msgIn == MsgIn(s.msgIn.buf[0 := DISCONNECT], 0)
    ensures s'.outgoing == s.outgoing && s'.log.sent == s.log.sent
  {
    hide Reachable, OnExtended;
    var es1, s1 := MessageByte(cfg, es, s, DISCONNECT);
    es', s' := Departure(cfg, es1, s1);
  }

  /** With level-2 commands in use, as by default, the driver meets a reselection that it cannot
      answer: a first contact with one target is being selected when a command of another target,
      disconnected before, comes back. */
  lemma ReselectionWhileSelecting(cfg: Config, a: Cmd, b: Cmd) returns (es: seq<Event>, s: Driver)
    requires cfg.level2 > L2_NONE && a.id != b.id
    ensures Reachable(cfg, es, s) && !s.dmaOn
    ensures s.place.selecting == b && s.place.disconnectedQ == [a]
    ensures !Reselectable(s.place, cfg.level2 <= L2_NONE, UnitOf(a))
    ensures var r := Irq(0x81, 0).(unit := UnitOf(a));
            && Plausible(s, Interrupt(r)) && !Admissible(cfg, s, Interrupt(r))
            && OnInterrupt(cfg, s, r).Ok? && BothTaken(s.place, OnInterrupt(cfg, s, r).next.place, UnitOf(a))
  {
    hide Reachable, Held;
    StartsAtRest(cfg);
    NothingHeld(a);
    es, s := FirstSelection(cfg, [], Initial(cfg), a);
    es, s := FirstConnection(cfg, es, s);
    es, s := Disconnects(cfg, es, s);
    ParkedAlone(s.place, a, b);
    es, s := FirstSelection(cfg, es, s, b);
    IrqIsSeen(0x81, 0);
    FindAt(s.place.disconnectedQ, a);
  }

  /** The command that is parked alone comes back. */
  lemma Returns(cfg: Config, es: seq<Event>, s: Driver, c: Cmd) returns (es': seq<Event>, s': Driver)
    requires Reachable(cfg, es, s) && s.place == Place([], null, null, [c], {UnitOf(c)}, Unconnected) && !s.dmaOn
    ensures Reachable(cfg, es', s') && !s'.dmaOn && s'.place.connected == c && s'.place.selecting == null
    ensures s'.stat == s.stat && s'.xfer == s.xfer && s'.msgIn == s.msgIn
    ensures s'.outgoing == s.outgoing && s'.log.sent == s.log.sent
  {
    hide Reachable;
    var r := Irq(0x80, 0).(unit := UnitOf(c));
    FindAt(s.place.disconnectedQ, c);
    es', s' := Extend(cfg, es, s, Interrupt(r));
  }

  lemma NothingHeld(c: Cmd)
    ensures c !in Held(EMPTY)
  {
  }

  lemma ParkedAlone(p: Place, a: Cmd, b: Cmd)
    requires p == Place([], null, null, [a], {UnitOf(a)}, Unconnected) && a.id != b.id
    ensures b !in Held(p) && UnitOf(b) !in p.busy
  {
  }

  lemma FindAt(q: seq<Cmd>, a: Cmd)
    requires q == [a]
    ensures Find(q, UnitOf(a)) == 0
  {
  }

  // ----- a reply that asks for more than was offered -----

  /** One more byte of an extended message. */
  lemma WantsMore(cfg: Config, es: seq<Event>, s: Driver, b: byte) returns (es': seq<Event>, s': Driver)
    requires Reachable(cfg, es, s) && !s.dmaOn && s.place.connected != null && Acceptable(s.msgIn, b)
    requires Assemble(s.msgIn, b).Wants?
    ensures Reachable(cfg, es', s') && !s'.dmaOn
    ensures s'.place == s.place.(state := Connected) && s'.msgIn == Assemble(s.msgIn, b).next
    ensures s'.stat == s.stat && s'.xfer == s.xfer && s'.log.sent == s.log.sent && s'.outgoing == s.outgoing
  {
    hide Reachable, Assemble, Acceptable;
    es', s' := MessageByte(cfg, es, s, b);
  }

  /** The buffer after all but the last byte of an SDTR message. */
  function SdtrSoFar(buf: MsgBuf, code: byte): MsgBuf {
    buf[0 := EXTENDED_MESSAGE][1 := 3][2 := EXTENDED_SDTR][3 := code]
  }

  /** The target announces an SDTR message of three bytes, and names a period. */
  lemma HalfSdtr(cfg: Config, es: seq<Event>, s: Driver, code: byte) returns (es': seq<Event>, s': Driver)
    requires Reachable(cfg, es, s) && !s.dmaOn && s.place.connected != null && s.msgIn.ptr == 0
    ensures Reachable(cfg, es', s') && !s'.dmaOn && s'.place == s.place.(state := Connected)
    ensures s'.msgIn == MsgIn(SdtrSoFar(s.msgIn.buf, code), 4)
    ensures s'.stat == s.stat && s'.xfer == s.xfer && s'.log.sent == s.log.sent && s'.outgoing == s.outgoing
  {
    hide Reachable, SyncXfer, Shaped;
    es', s' := WantsMore(cfg, es, s, EXTENDED_MESSAGE);
    es', s' := WantsMore(cfg, es', s', 3);
    es', s' := WantsMore(cfg, es', s', EXTENDED_SDTR);
    es', s' := WantsMore(cfg, es', s', code);
  }

  /** It names an offset, and the driver takes the message for the reply to its own. */
  lemma Agreement(cfg: Config, es: seq<Event>, s: Driver, code: byte, offset: byte)
    returns (es': seq<Event>, s': Driver)
    requires Shaped(cfg.table) && offset > 0
    requires Reachable(cfg, es, s) && !s.dmaOn && s.place.connected != null && s.msgIn.ptr == 0
    requires s.stat[s.place.connected.id] == SyncWaiting
    ensures Reachable(cfg, es', s') && !s'.dmaOn && s'.place == s.place.(state := Connected)
    ensures s'.msgIn == MsgIn(SdtrSoFar(s.msgIn.buf, code)[4 := offset], 0)
    ensures s'.stat == s.stat[s.place.connected.id := SyncSet] && s'.log.sent == s.log.sent
    ensures s'.xfer[s.place.connected.id] & 0x0f != 0
  {
    hide Reachable, SyncXfer, Shaped;
    es', s' := HalfSdtr(cfg, es, s, code);
    ghost var m := s'.msgIn;
    assert Assemble(m, offset).Whole?;
    es', s' := MessageByte(cfg, es', s', offset);
    AsyncIffNoOffset(code, offset, cfg.fast, cfg.table);
  }

  /** The first contact with a target gets as far as its SDTR message, which is sent. */
  lemma FirstOffer(cfg: Config, a: Cmd) returns (es: seq<Event>, s: Driver)
    ensures Reachable(cfg, es, s) && !s.dmaOn && s.place == Place([], null, a, [], {UnitOf(a)}, Connected)
    ensures s.stat == Initial(cfg).stat[a.id := SyncWaiting] && s.msgIn == Initial(cfg).msgIn && s.outgoing == []
    ensures OffersTo(s.log.sent, a.id) == [if a.id in cfg.noSync then 0 else OPTIMUM_SX_OFF]
    ensures forall t :: 0 <= t < 8 && t != a.id ==> OffersTo(s.log.sent, t) == []
  {
    hide Reachable, Held, OfferIn, IsProposal;
    StartsAtRest(cfg);
    es, s := SecondContact(cfg, [], Initial(cfg), a, a);
    ProposalIsMessage(s.outgoing);
    es, s := MakesOffer(cfg, es, s);
  }

  lemma ProposalIsMessage(bytes: seq<byte>)
    requires IsProposal(bytes)
    ensures bytes != []
  {
  }

  /** A `nosync` target, offered the offset 0, answers with another one and gets it. */
  lemma GreedyReply(cfg: Config, a: Cmd, code: byte, offset: byte) returns (es: seq<Event>, s: Driver)
    requires Shaped(cfg.table) && a.id in cfg.noSync && offset > 0
    ensures Reachable(cfg, es, s) && s.place.connected == a && OffersTo(s.log.sent, a.id) == [0]
    ensures s.stat[a.id] == SyncSet && s.xfer[a.id] & 0x0f != 0
  {
    hide Reachable, Held, SyncXfer, Shaped, OffersTo;
    es, s := FirstOffer(cfg, a);
    es, s := Agreement(cfg, es, s, code, offset);
  }

  // ----- a reply that is too short -----

  /** A first contact that is made while `a` is the only held command. */
  lemma SecondContact(cfg: Config, es: seq<Event>, s: Driver, a: Cmd, b: Cmd) returns (es': seq<Event>, s': Driver)
    requires Reachable(cfg, es, s) && AtRest(s) && s.stat[b.id] == SyncUnset
    requires s.place == EMPTY || (s.place == Place([], null, null, [a], {UnitOf(a)}, Unconnected) && a.id != b.id)
    ensures Reachable(cfg, es', s') && !s'.dmaOn && s'.msgIn == s.msgIn && s'.xfer == s.xfer
    ensures s'.place == Place([], null, b, s.place.disconnectedQ, s.place.busy + {UnitOf(b)}, Connected)
    ensures s'.stat == s.stat[b.id := SyncWaiting] && s'.log.sent == s.log.sent && IsProposal(s'.outgoing)
    ensures OfferIn(s'.outgoing) == [if b.id in cfg.noSync then 0 else OPTIMUM_SX_OFF]
  {
    hide Reachable, Held;
    if s.place == EMPTY {
      NothingHeld(b);
    } else {
      ParkedAlone(s.place, a, b);
    }
    es', s' := FirstSelection(cfg, es, s, b);
    es', s' := FirstConnection(cfg, es', s');
    assert s.stat[b.id := SyncFirst][b.id := SyncWaiting] == s.stat[b.id := SyncWaiting];
  }

  /** Target `b` agrees to what it was offered. Then `a`, which must not be asked for synchronous
      transfer, answers with an SDTR that names neither period nor offset, and gets those of `b`. */
  lemma StaleReply(cfg: Config, a: Cmd, b: Cmd, code: byte) returns (es: seq<Event>, s: Driver, r: Chip)
    requires Shaped(cfg.table) && a.id in cfg.noSync && b.id !in cfg.noSync
    ensures Reachable(cfg, es, s) && s.place.connected == a
    ensures Plausible(s, Interrupt(r)) && Admissible(cfg, s, Interrupt(r))
    ensures Stale(cfg, s, Interrupt(r)) && PayloadOf(s, r) == [EXTENDED_SDTR] && OffersTo(s.log.sent, a.id) == [0]
    ensures OnInterrupt(cfg, s, r).Ok?
    ensures var s' := OnInterrupt(cfg, s, r).next; s'.stat[a.id] == SyncSet && s'.xfer[a.id] & 0x0f != 0
  {
    hide Reachable, Held, SyncXfer, Shaped, OffersTo, OfferIn, IsProposal;
    es, s := FirstOffer(cfg, b);
    es, s := Agreement(cfg, es, s, code, OPTIMUM_SX_OFF);
    es, s := Disconnects(cfg, es, s);
    es, s := SecondContact(cfg, es, s, b, a);
    ProposalIsMessage(s.outgoing);
    es, s := MakesOffer(cfg, es, s);
    es, s := WantsMore(cfg, es, s, EXTENDED_MESSAGE);
    es, s := WantsMore(cfg, es, s, 1);
    r := Irq(0x1f, EXTENDED_SDTR);
    IrqIsSeen(0x1f, EXTENDED_SDTR);
    AsyncIffNoOffset(code, OPTIMUM_SX_OFF, cfg.fast, cfg.table);
  }

  // ----- an offer that is sent to another target -----

  /** Target `t`, which must not be asked for synchronous transfer, is asked for it all the same. It has
      accepted nothing yet when it disconnects; the SDTR message for `a` is prepared, but `a` vanishes;
      and when `t` comes back that message is sent to it. It agrees to no more than it was offered. */
  lemma MisdirectedOffer(cfg: Config, t: Cmd, a: Cmd, code: byte, offset: byte) returns (es: seq<Event>, s: Driver)
    requires Shaped(cfg.table) && t.id in cfg.noSync && a.id !in cfg.noSync && 0 < offset <= OPTIMUM_SX_OFF
    ensures Reachable(cfg, es, s) && s.place.connected == t
    ensures OffersTo(s.log.sent, t.id) == [0, OPTIMUM_SX_OFF] && offset <= LastOffer(s.log.sent, t.id)
    ensures s.stat[t.id] == SyncSet && s.xfer[t.id] & 0x0f != 0
  {
    hide Reachable, Held, SyncXfer, Shaped, OffersTo, OfferIn, IsProposal;
    es, s := FirstOffer(cfg, t);
    es, s := Disconnects(cfg, es, s);
    es, s := SecondContact(cfg, es, s, t, a);
    ProposalIsMessage(s.outgoing);
    es, s := Vanishes(cfg, es, s);
    BusyAgain(UnitOf(t), UnitOf(a));
    es, s := Returns(cfg, es, s, t);
    es, s := MakesOffer(cfg, es, s);
    es, s := Agreement(cfg, es, s, code, offset);
  }

  lemma BusyAgain(u: Unit, v: Unit)
    requires u != v
    ensures {u} + {v} - {v} == {u}
  {
  }

  // ----- an SDTR message that is never sent -----

  /** The target vanishes after its selection: it is waited for, but nothing was sent to it. */
  lemma NeverSent(cfg: Config, a: Cmd) returns (es: seq<Event>, s: Driver)
    ensures Reachable(cfg, es, s) && AtRest(s) && s.place == EMPTY && s.msgIn.ptr == 0
    ensures s.stat[a.id] == SyncWaiting && s.log.sent == [] && !Carried(s)
  {
    hide Reachable, Held;
    StartsAtRest(cfg);
    NothingHeld(a);
    es, s := FirstSelection(cfg, [], Initial(cfg), a);
    es, s := FirstConnection(cfg, es, s);
    es, s := Vanishes(cfg, es, s);
  }

  /** The target takes the IDENTIFY message and changes the phase. The rest is forgotten, and the target
      waited for. */
  lemma CutShort(cfg: Config, a: Cmd) returns (es: seq<Event>, s: Driver)
    ensures Reachable(cfg, es, s) && s.place.connected == a && s.outgoing == []
    ensures |s.log.sent| == 1 && |s.log.sent[0].bytes| == 1 && OffersTo(s.log.sent, a.id) == []
    ensures s.stat[a.id] == SyncWaiting && !Carried(s)
  {
    hide Reachable, Held;
    StartsAtRest(cfg);
    es, s := SecondContact(cfg, [], Initial(cfg), a, a);
    es, s := Sends(cfg, es, s, 5);
  }

  /** The next command of that target goes out with Select-With-ATN-Xfer, and when the target begins a
      negotiation of its own, its message is taken for the reply to one that nobody sent. */
  lemma UnaskedAgreement(cfg: Config, a: Cmd, code: byte, offset: byte) returns (es: seq<Event>, s: Driver)
    requires Shaped(cfg.table) && cfg.level2 != L2_NONE && offset > 0
    ensures Reachable(cfg, es, s) && s.log.sent == []
    ensures s.stat[a.id] == SyncSet && s.xfer[a.id] & 0x0f != 0
  {
    hide Reachable, Held, Shaped;
    es, s := NeverSent(cfg, a);
    NothingHeld(a);
    es, s := Restart(cfg, es, s, a);
    es, s := Agreement(cfg, es, s, code, offset);
  }

  /** A command for a target that has been contacted goes out with Select-With-ATN-Xfer. */
  lemma Restart(cfg: Config, es: seq<Event>, s: Driver, c: Cmd) returns (es': seq<Event>, s': Driver)
    requires Reachable(cfg, es, s) && AtRest(s) && c !in Held(s.place) && UnitOf(c) !in s.place.busy
    requires s.stat[c.id] != SyncUnset && cfg.level2 != L2_NONE
    ensures Reachable(cfg, es', s') && !s'.dmaOn && s'.place.connected == c && s'.stat == s.stat
    ensures s'.msgIn == s.msgIn && s'.log.sent == s.log.sent
  {
    hide Reachable, Permit, Held;
    es', s' := Extend(cfg, es, s, Queue(c, BLANK, false));
    assert Enqueue(s.place, c).inputQ == [c];
  }

  // ----- a message that is cut off -----

  /** Target `a` vanishes in the middle of a message. The message DISCONNECT of the next target is
      then collected as the length byte of that message, and its disconnection not understood. */
  lemma HalfMessage(cfg: Config, a: Cmd, b: Cmd) returns (es: seq<Event>, s: Driver, r: Chip)
    requires a.id != b.id
    ensures Reachable(cfg, es, s) && s.place.connected == b && s.place.state == Connected && s.msgIn.ptr == 2
    ensures s.msgIn.buf[1] == DISCONNECT && CauseOf(r.sr) == Disc
    ensures Plausible(s, Interrupt(r)) && !Admissible(cfg, s, Interrupt(r)) && OnInterrupt(cfg, s, r).Ok?
    ensures var p := OnInterrupt(cfg, s, r).next.place; p.connected == b && p.state == Unconnected
  {
    hide Reachable, Held;
    StartsAtRest(cfg);
    NothingHeld(a);
    es, s := FirstSelection(cfg, [], Initial(cfg), a);
    es, s := FirstConnection(cfg, es, s);
    es, s := WantsMore(cfg, es, s, EXTENDED_MESSAGE);
    es, s := Vanishes(cfg, es, s);
    es, s := SecondContact(cfg, es, s, a, b);
    es, s := WantsMore(cfg, es, s, DISCONNECT);
    r := Irq(0x85, 0);
    IrqIsSeen(0x85, 0);
  }
}
