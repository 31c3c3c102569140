/** Where the driver keeps its commands: the two queues, the two slots, the busy bits
    and the state code. Each function is one move of `wd33c93.c` on these fields. */
module Placement {
  import opened Basics
  import opened Commands

  datatype Code = Unconnected | Selecting | RunningLevel2 | Connected | PreTmpDisc | PreCmpDisc

  datatype Place = Place(
    inputQ: seq<Cmd>, selecting: Cmd?, connected: Cmd?, disconnectedQ: seq<Cmd>,
    busy: set<Unit>, state: Code)

  const EMPTY := Place([], null, null, [], {}, Unconnected)

  /** A REQUEST SENSE goes to the head of the input queue, anything else to its tail. */
  function Enqueue(p: Place, c: Cmd): Place {
    p.(inputQ := if p.inputQ == [] || IsSense(c) then [c] + p.inputQ else p.inputQ + [c])
  }

  /** Index of the first command whose unit is not busy; `|q|` when there is none. */
  function FirstRunnable(q: seq<Cmd>, busy: set<Unit>): (k: nat)
    ensures k <= |q|
    ensures forall i :: 0 <= i < k ==> UnitOf(q[i]) in busy
    ensures k < |q| ==> UnitOf(q[k]) !in busy
  {
    if q == [] || UnitOf(q[0]) !in busy then 0 else 1 + FirstRunnable(q[1..], busy)
  }

  /** Takes command `k` off the input queue and starts it: `Select-With-ATN` fills the
      `selecting` slot, `Select-With-ATN-Xfer` the `connected` slot. */
  function Launch(p: Place, k: nat, viaSelect: bool): Place
    requires k < |p.inputQ|
  {
    var c := p.inputQ[k];
    var q := p.(inputQ := RemoveAt(p.inputQ, k), busy := p.busy + {UnitOf(c)});
    if viaSelect then q.(selecting := c, state := Selecting)
    else q.(connected := c, state := RunningLevel2)
  }

  function Execute(p: Place, viaSelect: bool): Place {
    if p.selecting != null || p.connected != null then p else
    var k := FirstRunnable(p.inputQ, p.busy);
    if k == |p.inputQ| then p else Launch(p, k, viaSelect)
  }

  /** The command in one of the slots is over. */
  function Finish(p: Place, c: Cmd): Place
    requires c == p.selecting || c == p.connected
  {
    var q := p.(busy := p.busy - {UnitOf(c)}, state := Unconnected);
    if c == p.connected then q.(connected := null) else q.(selecting := null)
  }

  /** Selection succeeded. */
  function Selected(p: Place): Place {
    p.(connected := p.selecting, selecting := null, state := Connected)
  }

  /** The connected command leaves the bus to reconnect later. */
  function Park(p: Place): Place
    requires p.connected != null
  {
    p.(disconnectedQ := [p.connected] + p.disconnectedQ, connected := null, state := Unconnected)
  }

  /** A command that lost arbitration returns to the head of the input queue. The
      `connected` slot is left as it was: a reselection is about to overwrite it. */
  function PutBack(p: Place, c: Cmd): Place {
    p.(inputQ := [c] + p.inputQ, busy := p.busy - {UnitOf(c)},
       selecting := if p.selecting == c then null else p.selecting)
  }

  /** Index of the first disconnected command of unit `u`; `|q|` when there is none. */
  function Find(q: seq<Cmd>, u: Unit): (k: nat)
    ensures k <= |q|
    ensures forall i :: 0 <= i < k ==> UnitOf(q[i]) != u
    ensures k < |q| ==> UnitOf(q[k]) == u
  {
    if q == [] || UnitOf(q[0]) == u then 0 else 1 + Find(q[1..], u)
  }

  function Resume(p: Place, k: nat, code: Code): Place
    requires k < |p.disconnectedQ|
  {
    p.(disconnectedQ := RemoveAt(p.disconnectedQ, k), connected := p.disconnectedQ[k], state := code)
  }

  predicate Waits(p: Place, u: Unit) {
    Find(p.disconnectedQ, u) < |p.disconnectedQ|
  }

  /** The command, if any, that a reselection interrupt treats as the loser of arbitration. */
  function Loser(p: Place, l2None: bool): Cmd? {
    if l2None then p.selecting else p.connected
  }

  function Reselect(p: Place, l2None: bool, u: Unit, code: Code): Place {
    var loser := Loser(p, l2None);
    var q := if loser != null then PutBack(p, loser) else p;
    var k := Find(q.disconnectedQ, u);
    if k == |q.disconnectedQ| then q else Resume(q, k, code)
  }

  /** The reselections the driver copes with. While the slot its branch does not look at is
      taken, nobody may answer to the name; otherwise a loser may only be displaced by a
      command that really is disconnected. */
  predicate Reselectable(p: Place, l2None: bool, u: Unit) {
    if Loser(p, !l2None) != null then !Waits(p, u)
    else Loser(p, l2None) != null ==> Waits(p, u)
  }

  /** An abort takes a waiting command back. */
  function Withdraw(p: Place, k: nat): Place
    requires k < |p.inputQ|
  {
    p.(inputQ := RemoveAt(p.inputQ, k))
  }

  /** Index of `c` in a queue; `|q|` when it is not there. */
  function IndexOf(q: seq<Cmd>, c: Cmd): (k: nat)
    ensures k <= |q|
    ensures k < |q| ==> q[k] == c
    ensures k == |q| <==> c !in q
  {
    if q == [] || q[0] == c then 0 else 1 + IndexOf(q[1..], c)
  }

  // ----- what the placement of commands means -----

  function SlotBag(c: Cmd?): multiset<Cmd> {
    if c == null then multiset{} else multiset{c}
  }

  /** Every command the driver holds, with multiplicity. */
  function Stock(p: Place): multiset<Cmd> {
    multiset(p.inputQ) + SlotBag(p.selecting) + SlotBag(p.connected) + multiset(p.disconnectedQ)
  }

  function Held(p: Place): set<Cmd> {
    set c | c in Stock(p)
  }

  function Slot(c: Cmd?): seq<Cmd> {
    if c == null then [] else [c]
  }

  /** The started commands, the ones that own a busy bit. */
  function Active(p: Place): seq<Cmd> {
    Slot(p.selecting) + Slot(p.connected) + p.disconnectedQ
  }

  function Units(cs: seq<Cmd>): set<Unit> {
    set c | c in cs :: UnitOf(c)
  }

  /** No two members of the sequence belong to one unit. */
  predicate OnePerUnit(cs: seq<Cmd>) {
    forall i, j :: 0 <= i < j < |cs| ==> UnitOf(cs[i]) != UnitOf(cs[j])
  }

  predicate NoRepeats(cs: multiset<Cmd>) {
    forall c :: c in cs ==> cs[c] == 1
  }

  /** Each held command is in exactly one place, exactly one started command stands behind
      every busy bit, and at most one slot is taken. */
  predicate Owned(p: Place) {
    && NoRepeats(Stock(p))
    && OnePerUnit(Active(p))
    && p.busy == Units(Active(p))
    && (p.selecting == null || p.connected == null)
  }

  /** The state code tells which slot is taken. */
  predicate CodeAgrees(p: Place) {
    && (p.state == Selecting <==> p.selecting != null)
    && (p.state in {RunningLevel2, Connected, PreTmpDisc, PreCmpDisc} <==> p.connected != null)
    && (p.state == Unconnected <==> p.selecting == null && p.connected == null)
  }

  /** The bus is idle only when every waiting command needs a unit that a disconnected
      command occupies. */
  predicate WorkConserving(p: Place) {
    p.selecting == null && p.connected == null ==>
      forall c :: c in p.inputQ ==> Waits(p, UnitOf(c))
  }

  predicate Core(p: Place) {
    Owned(p) && CodeAgrees(p)
  }

  predicate Settled(p: Place) {
    Core(p) && WorkConserving(p)
  }

  // ----- order of the commands of one unit -----

  predicate OnLine(c: Cmd, u: Unit) {
    UnitOf(c) == u && !IsSense(c)
  }

  /** The commands of unit `u` other than REQUEST SENSE, in order. */
  function Line(cs: seq<Cmd>, u: Unit): seq<Cmd> {
    if cs == [] then []
    else (if OnLine(cs[0], u) then [cs[0]] else []) + Line(cs[1..], u)
  }

  /** The line of unit `u` still to be completed: the started command, then the waiting ones. */
  function Pending(p: Place, u: Unit): seq<Cmd> {
    Line(Active(p), u) + Line(p.inputQ, u)
  }
}
