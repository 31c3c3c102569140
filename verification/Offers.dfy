/** `outgoing_msg` and `outgoing_len` outlive the connection: what was prepared for one target may be
    sent to another. This is which calls leave a prepared message behind, and what that means for the
    offsets that the driver offers in its SDTR messages. */
module Offers {
  import opened Basics
  import opened Commands
  import opened Placement
  import opened Messages
  import opened Timing
  import opened ScatterGather
  import opened Driver
  import opened Invariants
  import opened Runs
  import opened HalfMessages
  import opened Connections

  // ----- prepared messages -----

  /** Nothing is prepared while nobody is connected. */
  predicate NothingLeft(s: Driver) {
    s.place.connected == null ==> s.outgoing == []
  }

  /** The calls that end or displace a connection before its message is sent. */
  predicate LeavesMessage(cfg: Config, s: Driver, e: Event) {
    Severs(cfg, s, e) && !e.Reset? && s.outgoing != []
  }

  /** A new connection finds no message, unless it is prepared for it by its selection. */
  predicate OwnMessage(s: Driver, e: Event, s': Driver) {
    s'.place.connected != s.place.connected && !Selects(e) ==> s'.outgoing == []
  }

  lemma SelectsNobody(cfg: Config, s: Driver, e: Event)
    requires Inv(s) && Admissible(cfg, s, e) && Selects(e)
    ensures s.place.connected == null && s.place.selecting != null
  {
    hide Books, Craft, Tracked, WorkConserving, OnePerUnit, NoRepeats, Units, CauseOf, Masked;
  }

  /** Every connection that a call begins finds no message but its own, and every free bus that it
      leaves finds none, if and only if the call does not leave a prepared one behind. */
  lemma OwnMessageIff(cfg: Config, s: Driver, e: Event)
    requires Inv(s) && NothingLeft(s) && Plausible(s, e) && Admissible(cfg, s, e)
    ensures Step(cfg, s, e).Ok?
    ensures OwnMessage(s, e, Step(cfg, s, e).next) <==> !LeavesMessage(cfg, s, e)
    ensures OwnMessage(s, e, Step(cfg, s, e).next) ==> NothingLeft(Step(cfg, s, e).next)
  {
    hide Inv, Step, Severs, Successor, CauseOf, Held, Expected, NextBuffer, Masked, IsAnswer, Greeting, Selects;
    if e.Reset? {
      ResetClears(cfg, s);
    } else {
      StepFollows(cfg, s, e);
      if Selects(e) {
        SelectsNobody(cfg, s, e);
      }
    }
  }

  /** No call of the run leaves a prepared message behind. */
  predicate NoneLeft(cfg: Config, s: Driver, es: seq<Event>)
    decreases |es|
  {
    es == [] ||
    (!LeavesMessage(cfg, s, es[0]) &&
      (Step(cfg, s, es[0]).Ok? ==> NoneLeft(cfg, Step(cfg, s, es[0]).next, es[1..])))
  }

  predicate AllOwn(cfg: Config, s: Driver, es: seq<Event>)
    decreases |es|
  {
    es == [] ||
    (Step(cfg, s, es[0]).Ok? ==>
      OwnMessage(s, es[0], Step(cfg, s, es[0]).next) && AllOwn(cfg, Step(cfg, s, es[0]).next, es[1..]))
  }

  lemma {:induction false} OwnRun(cfg: Config, s: Driver, es: seq<Event>)
    requires Inv(s) && Obeys(cfg, s, es) && NothingLeft(s)
    ensures AllOwn(cfg, s, es) <==> NoneLeft(cfg, s, es)
    decreases |es|
  {
    hide Inv, Step, Plausible, Admissible, LeavesMessage, NothingLeft, OwnMessage;
    if es != [] {
      StepKeeps(cfg, s, es[0]);
      OwnMessageIff(cfg, s, es[0]);
      if OwnMessage(s, es[0], Step(cfg, s, es[0]).next) {
        OwnRun(cfg, Step(cfg, s, es[0]).next, es[1..]);
      }
    }
  }

  /** Over any run from start-up, no connection finds another one's message if and only if none is left
      behind. */
  lemma OwnMessagesIff(cfg: Config, es: seq<Event>)
    requires Obeys(cfg, Initial(cfg), es)
    ensures AllOwn(cfg, Initial(cfg), es) <==> NoneLeft(cfg, Initial(cfg), es)
  {
    hide Inv, Obeys, AllOwn, NoneLeft;
    InitialInv(cfg);
    OwnRun(cfg, Initial(cfg), es);
  }

  // ----- offers -----

  /** The bytes end with a whole SDTR message. */
  predicate EndsInSdtr(bytes: seq<byte>) {
    var n := |bytes|;
    n >= 5 && bytes[n - 5] == EXTENDED_MESSAGE && bytes[n - 4] == 3 && bytes[n - 3] == EXTENDED_SDTR
  }

  /** The offset that the bytes offer, if they do. */
  function OfferIn(bytes: seq<byte>): seq<byte> {
    if EndsInSdtr(bytes) then [bytes[|bytes| - 1]] else []
  }

  predicate Generous(bytes: seq<byte>) {
    EndsInSdtr(bytes) && bytes[|bytes| - 1] > 0
  }

  /** The offsets that were offered to `t`, in order. */
  function OffersTo(sent: seq<Sent>, t: Target): seq<byte> {
    if sent == [] then []
    else
      var x := sent[|sent| - 1];
      OffersTo(sent[..|sent| - 1], t) + if x.to != null && x.to.id == t then OfferIn(x.bytes) else []
  }

  /** The offset in the last SDTR message that was sent to `t`; 0 if none was. */
  function LastOffer(sent: seq<Sent>, t: Target): byte {
    var offers := OffersTo(sent, t);
    if offers == [] then 0 else offers[|offers| - 1]
  }

  /** No SDTR message is contained in a longer one, so that a cut one is none. */
  predicate Crafted(bytes: seq<byte>) {
    |bytes| < 5 || (|bytes| <= 6 && EndsInSdtr(bytes) && (|bytes| == 6 ==> bytes[0] >= 0x80))
  }

  /** No offset above 0 is prepared for anybody but the connected target, and for none that must not be
      asked for synchronous transfer. */
  predicate Suits(cfg: Config, s: Driver) {
    && Crafted(s.outgoing)
    && (Generous(s.outgoing) ==> s.place.connected != null && s.place.connected.id !in cfg.noSync)
  }

  /** None was sent to such a target. */
  predicate SentSuits(cfg: Config, sent: seq<Sent>) {
    forall k :: 0 <= k < |sent| ==> Suitable(cfg, sent[k])
  }

  predicate Suitable(cfg: Config, x: Sent) {
    Generous(x.bytes) ==> x.to != null && x.to.id !in cfg.noSync
  }

  /** The calls that leave an offer above 0 to the free bus, or to a target that must not get it. */
  predicate LeavesOffer(cfg: Config, s: Driver, e: Event) {
    && Severs(cfg, s, e) && !e.Reset? && Generous(s.outgoing)
    && (Successor(cfg, s, e) == null || Successor(cfg, s, e).id in cfg.noSync)
  }

  lemma GreetingSuits(cfg: Config, s: Driver, c: Cmd)
    ensures var g := Greeting(cfg, s, c);
            && Crafted(g) && (Generous(g) ==> c.id !in cfg.noSync)
            && OfferIn(g) == (if s.stat[c.id] != SyncFirst then []
                              else if c.id in cfg.noSync then [0] else [OPTIMUM_SX_OFF])
  {
  }

  lemma AnswerSuits(bytes: seq<byte>)
    requires IsAnswer(bytes)
    ensures Crafted(bytes) && !Generous(bytes)
  {
  }

  /** What a target takes of an offer above 0 is one only if it takes all of it. */
  lemma TakenSuits(bytes: seq<byte>, left: nat)
    requires Crafted(bytes) && Generous(TakenOf(bytes, left))
    ensures left == 0 && TakenOf(bytes, left) == bytes
  {
    assert left == 0 ==> TakenOf(bytes, left) == bytes;
  }

  lemma NopSuits()
    ensures Crafted([NOP]) && !Generous([NOP])
  {
  }

  lemma SentMore(cfg: Config, sent: seq<Sent>, x: Sent)
    requires SentSuits(cfg, sent) && Suitable(cfg, x)
    ensures SentSuits(cfg, sent + [x])
  {
    hide Suitable;
  }

  lemma TalkSuits(cfg: Config, s: Driver, e: Event, s': Driver)
    requires Suits(cfg, s) && SentSuits(cfg, s.log.sent) && s.place.connected != null && Talks(s, e, s')
    ensures Suits(cfg, s') && SentSuits(cfg, s'.log.sent)
  {
    hide IsAnswer, Generous, Crafted, SentSuits, TakenOf;
    EmptySuits();
    NopSuits();
    if IsAnswer(s'.outgoing) {
      AnswerSuits(s'.outgoing);
    }
    if s'.log.sent != s.log.sent {
      var m := TakenOf(MessageOf(s), e.chip.pioLeft);
      if Generous(m) {
        TakenSuits(MessageOf(s), e.chip.pioLeft);
      }
      SentMore(cfg, s.log.sent, Sent(s.place.connected, m));
    }
  }

  lemma EmptySuits()
    ensures Crafted([]) && !Generous([])
  {
  }

  /** What is prepared suits the connected target after a call if and only if the call does not leave
      an offer behind. As long as it does, what is sent suits as well. */
  lemma OfferKeptIff(cfg: Config, s: Driver, e: Event)
    requires Inv(s) && Suits(cfg, s) && SentSuits(cfg, s.log.sent) && Plausible(s, e) && Admissible(cfg, s, e)
    ensures Step(cfg, s, e).Ok?
    ensures Suits(cfg, Step(cfg, s, e).next) <==> !LeavesOffer(cfg, s, e)
    ensures SentSuits(cfg, Step(cfg, s, e).next.log.sent)
  {
    hide Inv, Step, Severs, Successor, CauseOf, Held, Expected, NextBuffer, Masked, Talks, Greeting, Selects,
      Generous, Crafted, SentSuits;
    if e.Reset? {
      ResetSends(cfg, s);
    } else {
      StepFollows(cfg, s, e);
      if s.place.connected != null && !Severs(cfg, s, e) {
        TalkSuits(cfg, s, e, Step(cfg, s, e).next);
      } else if s.place.connected == null && Selects(e) {
        GreetingSuits(cfg, s, s.place.selecting);
      }
      SeversConnected(cfg, s, e);
    }
  }

  lemma SeversConnected(cfg: Config, s: Driver, e: Event)
    ensures Severs(cfg, s, e) ==> s.place.connected != null
  {
    hide CauseOf;
  }

  lemma ResetSends(cfg: Config, s: Driver)
    ensures Step(cfg, s, Reset).Ok?
    ensures var s' := Step(cfg, s, Reset).next; Suits(cfg, s') && SentSuits(cfg, s'.log.sent)
    ensures !LeavesOffer(cfg, s, Reset)
  {
    hide RemoveAll, Active;
  }

  /** No call of the run leaves an offer above 0 to a target that must not get it. */
  predicate NoOfferLeft(cfg: Config, s: Driver, es: seq<Event>)
    decreases |es|
  {
    es == [] ||
    (!LeavesOffer(cfg, s, es[0]) &&
      (Step(cfg, s, es[0]).Ok? ==> NoOfferLeft(cfg, Step(cfg, s, es[0]).next, es[1..])))
  }

  lemma {:induction false} SuitsRun(cfg: Config, s: Driver, es: seq<Event>)
    requires Inv(s) && Obeys(cfg, s, es) && NoOfferLeft(cfg, s, es) && Suits(cfg, s) && SentSuits(cfg, s.log.sent)
    ensures RunOf(cfg, s, es).Ok?
    ensures Suits(cfg, RunOf(cfg, s, es).next) && SentSuits(cfg, RunOf(cfg, s, es).next.log.sent)
    decreases |es|
  {
    hide Inv, Step, Plausible, Admissible, LeavesOffer, Suits, SentSuits;
    if es != [] {
      StepKeeps(cfg, s, es[0]);
      OfferKeptIff(cfg, s, es[0]);
      SuitsRun(cfg, Step(cfg, s, es[0]).next, es[1..]);
    }
  }

  lemma {:induction false} OffersAreZero(cfg: Config, sent: seq<Sent>, t: Target)
    requires SentSuits(cfg, sent) && t in cfg.noSync
    ensures forall k :: 0 <= k < |OffersTo(sent, t)| ==> OffersTo(sent, t)[k] == 0
  {
    hide EndsInSdtr;
    if sent != [] {
      var x := sent[|sent| - 1];
      OffersAreZero(cfg, sent[..|sent| - 1], t);
      assert Suitable(cfg, x);
    }
  }

  /** Unless such an offer is left behind, the driver asks no target for synchronous transfer that it
      must not ask. */
  lemma NoUnsuitableOffer(cfg: Config, es: seq<Event>, s: Driver, t: Target)
    requires Reachable(cfg, es, s) && NoOfferLeft(cfg, Initial(cfg), es) && t in cfg.noSync
    ensures forall k :: 0 <= k < |OffersTo(s.log.sent, t)| ==> OffersTo(s.log.sent, t)[k] == 0
    ensures LastOffer(s.log.sent, t) == 0
  {
    hide Inv, Obeys, NoOfferLeft, RunOf, SentSuits, OffersTo;
    InitialInv(cfg);
    NothingSent(cfg);
    SuitsRun(cfg, Initial(cfg), es);
    OffersAreZero(cfg, s.log.sent, t);
  }

  lemma NothingSent(cfg: Config)
    ensures Suits(cfg, Initial(cfg)) && SentSuits(cfg, Initial(cfg).log.sent)
  {
  }
}
