/** The moves of Placement keep ownership, the state code, work conservation, the stock of
    commands and the order of every unit's line; where one does not, exactly when. */
module PlacementProofs {
  import opened Basics
  import opened Commands
  import opened Placement

  // ----- lines -----

  lemma {:induction false} LineConcat(a: seq<Cmd>, b: seq<Cmd>, u: Unit)
    ensures Line(a + b, u) == Line(a, u) + Line(b, u)
  {
    if a == [] {
      assert a + b == b;
    } else {
      assert (a + b)[1..] == a[1..] + b;
      LineConcat(a[1..], b, u);
    }
  }

  lemma {:induction false} LineEmpty(s: seq<Cmd>, u: Unit)
    requires forall c :: c in s ==> !OnLine(c, u)
    ensures Line(s, u) == []
  {
    if s != [] {
      LineEmpty(s[1..], u);
    }
  }

  lemma LineSplit(s: seq<Cmd>, k: nat, u: Unit)
    requires k < |s|
    ensures Line(s, u) == Line(s[..k], u) + Line([s[k]], u) + Line(s[k + 1..], u)
    ensures Line(RemoveAt(s, k), u) == Line(s[..k], u) + Line(s[k + 1..], u)
  {
    assert s == s[..k] + [s[k]] + s[k + 1..];
    LineConcat(s[..k] + [s[k]], s[k + 1..], u);
    LineConcat(s[..k], [s[k]], u);
    LineConcat(s[..k], s[k + 1..], u);
  }

  lemma {:induction false} LineElements(s: seq<Cmd>, u: Unit)
    ensures forall c :: c in Line(s, u) <==> c in s && OnLine(c, u)
  {
    if s != [] {
      LineElements(s[1..], u);
    }
  }

  // ----- started commands -----

  lemma ActiveParts(p: Place)
    ensures forall c: Cmd | c in Active(p) :: c == p.selecting || c == p.connected || c in p.disconnectedQ
    ensures p.selecting != null ==> p.selecting in Active(p)
    ensures p.connected != null ==> p.connected in Active(p)
    ensures forall c :: c in p.disconnectedQ ==> c in Active(p)
    ensures Stock(p) == multiset(Active(p)) + multiset(p.inputQ)
  {
    ActiveStock(p);
    hide Stock;
  }

  lemma ActiveStock(p: Place)
    ensures Stock(p) == multiset(Active(p)) + multiset(p.inputQ)
  {
    SlotIsBag(p.selecting);
    SlotIsBag(p.connected);
    hide Slot, SlotBag;
  }

  lemma SlotIsBag(c: Cmd?)
    ensures multiset(Slot(c)) == SlotBag(c)
  {
  }

  /** Started commands of one unit are one command. */
  lemma SameUnit(cs: seq<Cmd>, c: Cmd, d: Cmd)
    requires OnePerUnit(cs) && c in cs && d in cs && UnitOf(c) == UnitOf(d)
    ensures c == d
  {
    var i, j :| 0 <= i < |cs| && 0 <= j < |cs| && cs[i] == c && cs[j] == d;
    assert i == j;
  }

  lemma OnePerUnitInsert(a: seq<Cmd>, c: Cmd, b: seq<Cmd>)
    requires OnePerUnit(a + b) && UnitOf(c) !in Units(a + b)
    ensures OnePerUnit(a + [c] + b)
    ensures Units(a + [c] + b) == Units(a + b) + {UnitOf(c)}
  {
    var s, t := a + b, a + [c] + b;
    assert forall i :: 0 <= i < |s| ==> s[i] == t[if i < |a| then i else i + 1];
    forall i, j | 0 <= i < j < |t|
      ensures UnitOf(t[i]) != UnitOf(t[j])
    {
      var i', j' := if i < |a| then i else i - 1, if j < |a| then j else j - 1;
      if i != |a| && j != |a| {
        assert t[i] == s[i'] && t[j] == s[j'];
      } else if i == |a| {
        assert t[j] == s[j'] && s[j'] in s;
      } else {
        assert t[i] == s[i'] && s[i'] in s;
      }
    }
    assert t[|a|] == c;
    assert forall x :: x in t <==> x in s || x == c;
  }

  lemma OnePerUnitDelete(a: seq<Cmd>, c: Cmd, b: seq<Cmd>)
    requires OnePerUnit(a + [c] + b)
    ensures OnePerUnit(a + b)
    ensures Units(a + b) == Units(a + [c] + b) - {UnitOf(c)}
  {
    var s, t := a + b, a + [c] + b;
    assert forall i :: 0 <= i < |s| ==> s[i] == t[if i < |a| then i else i + 1];
    assert t[|a|] == c;
    assert forall x :: x in t <==> x in s || x == c;
    forall x | x in s
      ensures UnitOf(x) != UnitOf(c)
    {
      var i :| 0 <= i < |s| && s[i] == x;
      var j := if i < |a| then i else i + 1;
      assert t[j] == x;
      if j < |a| {
        assert UnitOf(t[j]) != UnitOf(t[|a|]);
      } else {
        assert UnitOf(t[|a|]) != UnitOf(t[j]);
      }
    }
  }

  lemma FindIffUnit(q: seq<Cmd>, u: Unit)
    ensures Find(q, u) < |q| <==> u in Units(q)
  {
    var k := Find(q, u);
    if k < |q| {
      assert q[k] in q;
    }
  }

  // ----- each move -----

  lemma EnqueueKeeps(p: Place, c: Cmd)
    requires Core(p) && c !in Held(p)
    ensures Core(Enqueue(p, c))
    ensures Stock(Enqueue(p, c)) == Stock(p) + multiset{c}
  {
    EnqueueStock(p, c);
    hide Stock, Active, OnePerUnit, Units;
    EnqueueRepeats(p, c);
  }

  lemma EnqueueStock(p: Place, c: Cmd)
    ensures Stock(Enqueue(p, c)) == Stock(p) + multiset{c} && Active(Enqueue(p, c)) == Active(p)
  {
  }

  lemma EnqueueRepeats(p: Place, c: Cmd)
    requires NoRepeats(Stock(p)) && c !in Held(p)
    ensures NoRepeats(Stock(p) + multiset{c})
  {
    hide Stock;
  }

  lemma EnqueueKeepsLine(p: Place, c: Cmd, u: Unit)
    ensures Pending(Enqueue(p, c), u) == Pending(p, u) + Line([c], u)
  {
    hide Line;
    LineConcat([c], p.inputQ, u);
    LineConcat(p.inputQ, [c], u);
    LineEmpty([], u);
    if IsSense(c) {
      LineEmpty([c], u);
    }
    assert p.inputQ == [] ==> [c] + p.inputQ == [c];
  }

  lemma LaunchParts(p: Place, k: nat, viaSelect: bool)
    requires p.selecting == null && p.connected == null && k < |p.inputQ|
    ensures Stock(Launch(p, k, viaSelect)) == Stock(p)
    ensures Active(p) == [] + p.disconnectedQ
    ensures Active(Launch(p, k, viaSelect)) == [] + [p.inputQ[k]] + p.disconnectedQ
  {
    hide RemoveAt;
    LaunchActive(p, k, viaSelect);
    hide Active;
  }

  lemma LaunchActive(p: Place, k: nat, viaSelect: bool)
    requires p.selecting == null && p.connected == null && k < |p.inputQ|
    ensures Active(p) == [] + p.disconnectedQ
    ensures Active(Launch(p, k, viaSelect)) == [] + [p.inputQ[k]] + p.disconnectedQ
  {
    hide RemoveAt;
    assert Active(Launch(p, k, viaSelect)) == [] + [p.inputQ[k]] + p.disconnectedQ;
  }

  lemma LaunchKeeps(p: Place, k: nat, viaSelect: bool)
    requires Core(p) && p.selecting == null && p.connected == null
    requires k < |p.inputQ| && UnitOf(p.inputQ[k]) !in p.busy
    ensures Settled(Launch(p, k, viaSelect))
  {
    hide OnePerUnit, Units, Stock, Active;
    LaunchParts(p, k, viaSelect);
    OnePerUnitInsert([], p.inputQ[k], p.disconnectedQ);
  }

  lemma LaunchKeepsLine(q: seq<Cmd>, k: nat, dq: seq<Cmd>, u: Unit)
    requires k < |q| && UnitOf(q[k]) !in Units(dq)
    requires forall i :: 0 <= i < k ==> UnitOf(q[i]) in Units(dq)
    ensures Line([q[k]] + dq, u) + Line(RemoveAt(q, k), u) == Line(dq, u) + Line(q, u)
  {
    hide Line;
    LineConcat([q[k]], dq, u);
    LineSplit(q, k, u);
    if OnLine(q[k], u) {
      LineEmpty(q[..k], u);
      LineEmpty(dq, u);
    } else {
      LineEmpty([q[k]], u);
    }
  }

  /** Whatever the chip was doing, the scheduler leaves no runnable command waiting. */
  lemma ExecuteSettles(p: Place, viaSelect: bool)
    requires Core(p)
    ensures Settled(Execute(p, viaSelect))
    ensures Stock(Execute(p, viaSelect)) == Stock(p)
  {
    hide Core, Launch, Stock, Waits;
    var k := FirstRunnable(p.inputQ, p.busy);
    if p.selecting == null && p.connected == null {
      if k < |p.inputQ| {
        LaunchKeeps(p, k, viaSelect);
        LaunchParts(p, k, viaSelect);
      } else {
        forall c | c in p.inputQ
          ensures Waits(p, UnitOf(c))
        {
          NobodyRunnable(p, c);
        }
      }
    }
  }

  lemma NobodyRunnable(p: Place, c: Cmd)
    requires Core(p) && p.selecting == null && p.connected == null
    requires FirstRunnable(p.inputQ, p.busy) == |p.inputQ| && c in p.inputQ
    ensures Waits(p, UnitOf(c))
  {
    hide OnePerUnit, NoRepeats, CodeAgrees;
    assert Active(p) == p.disconnectedQ;
    FindIffUnit(p.disconnectedQ, UnitOf(c));
  }

  lemma LaunchKeepsPending(p: Place, k: nat, viaSelect: bool, u: Unit)
    requires p.selecting == null && p.connected == null
    requires k < |p.inputQ| && UnitOf(p.inputQ[k]) !in Units(p.disconnectedQ)
    requires forall i :: 0 <= i < k ==> UnitOf(p.inputQ[i]) in Units(p.disconnectedQ)
    ensures Pending(Launch(p, k, viaSelect), u) == Pending(p, u)
  {
    hide Line, Stock, RemoveAt, Units, Active;
    LaunchParts(p, k, viaSelect);
    assert [] + [p.inputQ[k]] + p.disconnectedQ == [p.inputQ[k]] + p.disconnectedQ;
    assert [] + p.disconnectedQ == p.disconnectedQ;
    LaunchKeepsLine(p.inputQ, k, p.disconnectedQ, u);
  }

  lemma ExecuteKeepsLine(p: Place, viaSelect: bool, u: Unit)
    requires Core(p)
    ensures Pending(Execute(p, viaSelect), u) == Pending(p, u)
  {
    hide Line, OnePerUnit, Stock, CodeAgrees, RemoveAt, Pending, Launch;
    var k := FirstRunnable(p.inputQ, p.busy);
    if p.selecting == null && p.connected == null && k < |p.inputQ| {
      assert Active(p) == p.disconnectedQ;
      LaunchKeepsPending(p, k, viaSelect, u);
    }
  }

  lemma FinishKeeps(p: Place, c: Cmd)
    requires Core(p) && (c == p.selecting || c == p.connected)
    ensures Core(Finish(p, c))
    ensures Stock(p) == Stock(Finish(p, c)) + multiset{c}
  {
    var p' := Finish(p, c);
    assert Stock(p) == Stock(p') + multiset{c};
    assert forall d :: d in Stock(p') ==> d in Stock(p);
    assert Active(p) == [] + [c] + p.disconnectedQ;
    assert Active(p') == [] + p.disconnectedQ;
    OnePerUnitDelete([], c, p.disconnectedQ);
  }

  lemma FinishKeepsLine(p: Place, c: Cmd, u: Unit)
    requires Core(p) && (c == p.selecting || c == p.connected)
    ensures Pending(p, u) == Line([c], u) + Pending(Finish(p, c), u)
  {
    hide Line, OnePerUnit, Stock, Units;
    assert Active(p) == [c] + p.disconnectedQ;
    assert Active(Finish(p, c)) == p.disconnectedQ;
    LineConcat([c], p.disconnectedQ, u);
  }

  lemma SelectedKeeps(p: Place)
    requires Settled(p) && p.selecting != null
    ensures Settled(Selected(p)) && Stock(Selected(p)) == Stock(p)
    ensures Active(Selected(p)) == Active(p)
  {
    assert Active(Selected(p)) == Active(p);
    assert Stock(Selected(p)) == Stock(p);
  }

  lemma ParkKeeps(p: Place)
    requires Core(p) && p.connected != null
    ensures Core(Park(p)) && Stock(Park(p)) == Stock(p)
    ensures Active(Park(p)) == Active(p)
  {
    assert Active(Park(p)) == Active(p);
    assert Stock(Park(p)) == Stock(p);
  }

  lemma ResumeKeepsLine(q: seq<Cmd>, k: nat, u: Unit)
    requires OnePerUnit(q) && k < |q|
    ensures Line([q[k]] + RemoveAt(q, k), u) == Line(q, u)
  {
    LineSplit(q, k, u);
    LineConcat([q[k]], RemoveAt(q, k), u);
    if OnLine(q[k], u) {
      LineEmpty(q[..k], u);
      LineEmpty(q[k + 1..], u);
    }
  }

  lemma ResumeKeepsUnits(q: seq<Cmd>, k: nat)
    requires OnePerUnit(q) && k < |q|
    ensures OnePerUnit([q[k]] + RemoveAt(q, k))
    ensures Units([q[k]] + RemoveAt(q, k)) == Units(q)
  {
    hide OnePerUnit;
    var r := RemoveAt(q, k);
    assert q == q[..k] + [q[k]] + q[k + 1..];
    assert r == [] + r && [q[k]] + r == [] + [q[k]] + r;
    OnePerUnitDelete(q[..k], q[k], q[k + 1..]);
    OnePerUnitInsert([], q[k], r);
    assert UnitOf(q[k]) in Units(q);
  }

  lemma ResumeParts(p: Place, k: nat, code: Code)
    requires p.selecting == null && p.connected == null && k < |p.disconnectedQ|
    ensures Stock(Resume(p, k, code)) == Stock(p)
    ensures Active(p) == p.disconnectedQ
    ensures Active(Resume(p, k, code)) == [p.disconnectedQ[k]] + RemoveAt(p.disconnectedQ, k)
  {
    assert Active(Resume(p, k, code)) == [p.disconnectedQ[k]] + RemoveAt(p.disconnectedQ, k);
  }

  lemma ResumeKeeps(p: Place, k: nat, code: Code)
    requires Owned(p) && p.selecting == null && p.connected == null && k < |p.disconnectedQ|
    requires code in {RunningLevel2, Connected}
    ensures Settled(Resume(p, k, code))
  {
    hide OnePerUnit, Units, Stock, Active;
    ResumeParts(p, k, code);
    ResumeKeepsUnits(p.disconnectedQ, k);
  }

  lemma WithdrawKeeps(p: Place, k: nat)
    requires Settled(p) && k < |p.inputQ|
    ensures Settled(Withdraw(p, k))
    ensures Stock(p) == Stock(Withdraw(p, k)) + multiset{p.inputQ[k]}
  {
    var p' := Withdraw(p, k);
    assert Active(p') == Active(p);
    assert Stock(p) == Stock(p') + multiset{p.inputQ[k]};
    assert forall d :: d in Stock(p') ==> d in Stock(p);
    RemoveAtKeeps(p.inputQ, k);
  }

  // ----- reselection -----

  /** The placement right after the loser `c` of arbitration is back in the input queue. */
  function Yielded(p: Place, c: Cmd): Place
    requires c == p.selecting || c == p.connected
  {
    var q := Finish(p, c);
    q.(inputQ := [c] + q.inputQ)
  }

  lemma YieldedKeeps(p: Place, c: Cmd)
    requires Core(p) && (c == p.selecting || c == p.connected)
    ensures Core(Yielded(p, c)) && Stock(Yielded(p, c)) == Stock(p)
    ensures Yielded(p, c).disconnectedQ == p.disconnectedQ
  {
    FinishKeeps(p, c);
    var q := Finish(p, c);
    var p' := q.(inputQ := [c] + q.inputQ);
    assert Active(p') == Active(q);
    assert Stock(p') == Stock(q) + multiset{c};
  }

  lemma YieldedKeepsLine(p: Place, c: Cmd, u: Unit)
    requires Core(p) && (c == p.selecting || c == p.connected)
    ensures Pending(Yielded(p, c), u) == Pending(p, u)
  {
    FinishKeepsLine(p, c, u);
    var q := Finish(p, c);
    assert Active(q) == Active(Yielded(p, c)) == p.disconnectedQ;
    LineConcat([c], q.inputQ, u);
    assert Active(p) == [c] + p.disconnectedQ;
    if OnLine(c, u) {
      LineEmpty(p.disconnectedQ, u);
    }
  }

  lemma ReselectAsResume(p: Place, l2None: bool, u: Unit, code: Code)
    requires Core(p) && Loser(p, !l2None) == null && Waits(p, u)
    ensures var c := Loser(p, l2None);
            Reselect(p, l2None, u, code)
            == Resume(if c == null then p else Yielded(p, c), Find(p.disconnectedQ, u), code)
  {
  }

  lemma ReselectKeeps(p: Place, l2None: bool, u: Unit, code: Code)
    requires Settled(p) && code in {RunningLevel2, Connected} && Reselectable(p, l2None, u)
    ensures Settled(Reselect(p, l2None, u, code))
    ensures Stock(Reselect(p, l2None, u, code)) == Stock(p)
  {
    var c := Loser(p, l2None);
    if Loser(p, !l2None) == null && Waits(p, u) {
      ReselectAsResume(p, l2None, u, code);
      if c != null {
        YieldedKeeps(p, c);
      }
      var q := if c == null then p else Yielded(p, c);
      ResumeParts(q, Find(p.disconnectedQ, u), code);
      ResumeKeeps(q, Find(p.disconnectedQ, u), code);
    }
  }

  lemma ReselectKeepsLine(p: Place, l2None: bool, u: Unit, code: Code, v: Unit)
    requires Core(p) && Reselectable(p, l2None, u)
    ensures Pending(Reselect(p, l2None, u, code), v) == Pending(p, v)
  {
    var c := Loser(p, l2None);
    if Loser(p, !l2None) == null && Waits(p, u) {
      ReselectAsResume(p, l2None, u, code);
      if c != null {
        YieldedKeeps(p, c);
        YieldedKeepsLine(p, c, v);
      }
      var q, k := if c == null then p else Yielded(p, c), Find(p.disconnectedQ, u);
      ResumeParts(q, k, code);
      ResumeKeepsLine(p.disconnectedQ, k, v);
    }
  }

  /** Both slots end up taken: the reselected command is connected beside the selecting one. */
  predicate BothTaken(p: Place, p': Place, u: Unit) {
    && Waits(p, u) && p.selecting != null && p'.selecting == p.selecting
    && p'.connected == p.disconnectedQ[Find(p.disconnectedQ, u)] && p'.busy == p.busy
  }

  /** The connected command is overwritten: it is in no place any more, but its busy bit stays set,
      with no started command behind it. */
  predicate Lost(p: Place, p': Place) {
    && p.connected != null && p.connected !in Held(p')
    && UnitOf(p.connected) in p'.busy && UnitOf(p.connected) !in Units(Active(p'))
  }

  /** The connected command is also the head of the input queue, and its busy bit is clear. */
  predicate Doubled(p: Place, p': Place) {
    && p.connected != null && p'.connected == p.connected && p'.inputQ == [p.connected] + p.inputQ
    && UnitOf(p.connected) !in p'.busy
  }

  /** The selecting command is back in the input queue and both slots are empty, but the state code
      is still S_SELECTING. */
  predicate CodeLeft(p: Place, p': Place) {
    && p.selecting != null && p'.inputQ == [p.selecting] + p.inputQ
    && p'.selecting == null && p'.connected == null && p'.state == Selecting
  }

  /** Outside `Reselectable` there are four cases, and this is what each of them leaves behind. */
  lemma ReselectBreaks(p: Place, l2None: bool, u: Unit, code: Code)
    requires Settled(p) && !Reselectable(p, l2None, u)
    ensures var p' := Reselect(p, l2None, u, code);
            && (!l2None && p.selecting != null ==> BothTaken(p, p', u))
            && (l2None && p.connected != null ==> Lost(p, p'))
            && (!l2None && p.selecting == null ==> Doubled(p, p'))
            && (l2None && p.connected == null ==> CodeLeft(p, p'))
            && !Core(p')
  {
    var p' := Reselect(p, l2None, u, code);
    if l2None && p.connected != null {
      OverwrittenIsLost(p, u, code);
    } else if !l2None && p.selecting == null {
      assert Stock(p')[p.connected] >= 2;
    }
  }

  lemma OverwrittenIsLost(p: Place, u: Unit, code: Code)
    requires Core(p) && p.connected != null && Waits(p, u)
    ensures Lost(p, Reselect(p, true, u, code)) && !Core(Reselect(p, true, u, code))
  {
    var p', k := Reselect(p, true, u, code), Find(p.disconnectedQ, u);
    var c, d := p.connected, p.disconnectedQ[k];
    assert Active(p) == [c] + p.disconnectedQ;
    assert Active(p') == [d] + RemoveAt(p.disconnectedQ, k);
    RemoveAtKeeps(p.disconnectedQ, k);
    OverwrittenUnit(p);
    assert forall x :: x in Active(p') ==> x in p.disconnectedQ;
    assert Stock(p)[c] == 1;
    assert Stock(p) == Stock(p') + multiset{c};
  }

  lemma OverwrittenUnit(p: Place)
    requires Core(p) && p.connected != null
    ensures forall x :: x in p.disconnectedQ ==> UnitOf(x) != UnitOf(p.connected)
  {
    hide CodeAgrees, NoRepeats, Units;
    assert Active(p) == [p.connected] + p.disconnectedQ;
    forall x | x in p.disconnectedQ
      ensures UnitOf(x) != UnitOf(p.connected)
    {
      var i :| 0 <= i < |p.disconnectedQ| && p.disconnectedQ[i] == x;
      assert Active(p)[0] == p.connected && Active(p)[i + 1] == x;
    }
  }
}
