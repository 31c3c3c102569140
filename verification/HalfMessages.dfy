/** `incoming_ptr` outlives the connection: only a reset clears it. What one target leaves half sent, the
    next one continues. This is which calls cut a message off, and which of them leave it behind. */
module HalfMessages {
  import opened Placement
  import opened ScatterGather
  import opened Driver
  import opened Invariants
  import opened Runs
  import opened Connections

  /** A message is half collected only while its sender is connected. */
  predicate NoHalf(s: Driver) {
    s.place.connected == null ==> s.msgIn.ptr == 0
  }

  /** The calls that end or displace a connection in the middle of a message. */
  predicate Cuts(cfg: Config, s: Driver, e: Event) {
    Severs(cfg, s, e) && !e.Reset? && s.msgIn.ptr > 0
  }

  /** Those of them that leave the bus without another connection. */
  predicate LeavesHalf(cfg: Config, s: Driver, e: Event) {
    Cuts(cfg, s, e) && Successor(cfg, s, e) == null
  }

  /** A change of the connection does not touch what has been collected. */
  predicate Inherits(s: Driver, s': Driver) {
    s'.place.connected != s.place.connected ==> s'.msgIn == s.msgIn
  }

  /** When the connection changes, nothing has been collected. */
  predicate Clean(s: Driver, s': Driver) {
    s'.place.connected != s.place.connected ==> s'.msgIn.ptr == 0
  }

  /** No half message is left behind on a free bus by a call if and only if it is not one of these.
      Unless it is a reset, a call that changes the connection leaves to the next one what it has. */
  lemma HalfLeftIff(cfg: Config, s: Driver, e: Event)
    requires Inv(s) && NoHalf(s) && Plausible(s, e) && Admissible(cfg, s, e)
    ensures Step(cfg, s, e).Ok?
    ensures NoHalf(Step(cfg, s, e).next) <==> !LeavesHalf(cfg, s, e)
    ensures !e.Reset? ==> Inherits(s, Step(cfg, s, e).next)
  {
    hide Inv, Step, Severs, Successor, CauseOf, Held, Expected, NextBuffer, Masked;
    if e.Reset? {
      ResetClears(cfg, s);
    } else {
      StepFollows(cfg, s, e);
    }
  }

  lemma ResetClears(cfg: Config, s: Driver)
    ensures Step(cfg, s, Reset).Ok?
    ensures var s' := Step(cfg, s, Reset).next; s'.place.connected == null && s'.msgIn.ptr == 0 && s'.outgoing == []
  {
    hide RemoveAll, Active;
  }

  /** Every connection that a call begins, and every free bus that it leaves, finds the buffer empty if
      and only if the call does not cut a message off. */
  lemma CleanIffNotCut(cfg: Config, s: Driver, e: Event)
    requires Inv(s) && NoHalf(s) && Plausible(s, e) && Admissible(cfg, s, e)
    ensures Step(cfg, s, e).Ok?
    ensures Clean(s, Step(cfg, s, e).next) <==> !Cuts(cfg, s, e)
    ensures Clean(s, Step(cfg, s, e).next) ==> NoHalf(Step(cfg, s, e).next)
  {
    hide Inv, Step, Severs, Successor, CauseOf, Held, Expected, NextBuffer, Masked;
    if e.Reset? {
      ResetClears(cfg, s);
    } else {
      StepFollows(cfg, s, e);
    }
  }

  predicate NoneCut(cfg: Config, s: Driver, es: seq<Event>)
    decreases |es|
  {
    es == [] ||
    (!Cuts(cfg, s, es[0]) &&
      (Step(cfg, s, es[0]).Ok? ==> NoneCut(cfg, Step(cfg, s, es[0]).next, es[1..])))
  }

  /** Whenever the connection changes in the run, nothing has been collected. */
  predicate AllClean(cfg: Config, s: Driver, es: seq<Event>)
    decreases |es|
  {
    es == [] ||
    (Step(cfg, s, es[0]).Ok? ==>
      Clean(s, Step(cfg, s, es[0]).next) && AllClean(cfg, Step(cfg, s, es[0]).next, es[1..]))
  }

  lemma {:induction false} CleanRun(cfg: Config, s: Driver, es: seq<Event>)
    requires Inv(s) && Obeys(cfg, s, es) && NoHalf(s)
    ensures AllClean(cfg, s, es) <==> NoneCut(cfg, s, es)
    decreases |es|
  {
    hide Inv, Step, Plausible, Admissible, Cuts, NoHalf, Clean;
    if es != [] {
      StepKeeps(cfg, s, es[0]);
      CleanIffNotCut(cfg, s, es[0]);
      if Clean(s, Step(cfg, s, es[0]).next) {
        CleanRun(cfg, Step(cfg, s, es[0]).next, es[1..]);
      }
    }
  }

  /** Over any run from start-up, every connection begins with an empty buffer, and leaves it empty, if
      and only if no message is cut off. */
  lemma FreshConnectionsIff(cfg: Config, es: seq<Event>)
    requires Obeys(cfg, Initial(cfg), es)
    ensures AllClean(cfg, Initial(cfg), es) <==> NoneCut(cfg, Initial(cfg), es)
  {
    hide Inv, Obeys, AllClean, NoneCut;
    InitialInv(cfg);
    CleanRun(cfg, Initial(cfg), es);
  }

  /** No call of the run leaves a half message behind. */
  predicate NoneLeft(cfg: Config, s: Driver, es: seq<Event>)
    decreases |es|
  {
    es == [] ||
    (!LeavesHalf(cfg, s, es[0]) &&
      (Step(cfg, s, es[0]).Ok? ==> NoneLeft(cfg, Step(cfg, s, es[0]).next, es[1..])))
  }

  lemma {:induction false} WholeRun(cfg: Config, s: Driver, es: seq<Event>)
    requires Inv(s) && Obeys(cfg, s, es) && NoneLeft(cfg, s, es) && NoHalf(s)
    ensures RunOf(cfg, s, es).Ok? && NoHalf(RunOf(cfg, s, es).next)
    decreases |es|
  {
    hide Inv, Step, Plausible, Admissible, LeavesHalf, NoHalf;
    if es != [] {
      StepKeeps(cfg, s, es[0]);
      HalfLeftIff(cfg, s, es[0]);
      WholeRun(cfg, Step(cfg, s, es[0]).next, es[1..]);
    }
  }

  /** While none is left behind, a connection that begins on a free bus begins with an empty buffer. */
  lemma FreshStart(cfg: Config, es: seq<Event>, s: Driver)
    requires Reachable(cfg, es, s) && NoneLeft(cfg, Initial(cfg), es) && s.place.connected == null
    ensures s.msgIn.ptr == 0
  {
    hide Inv, Obeys, NoneLeft, RunOf;
    InitialInv(cfg);
    WholeRun(cfg, Initial(cfg), es);
  }
}
