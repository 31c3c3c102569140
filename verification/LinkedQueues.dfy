/** Queues of commands linked through `host_scribble`, against sequences. */
module LinkedQueues {
  import opened Basics
  import opened Commands

  /** The commands of `cs`, linked in that order and ended by null, hang off `head`. */
  ghost predicate Chain(head: Cmd?, cs: seq<Cmd>)
    reads cs`hostScribble
  {
    && head == At(cs, 0)
    && forall i :: 0 <= i < |cs| ==> cs[i].hostScribble == At(cs, i + 1)
  }

  /** Command `i` of a queue, or null behind its end. */
  function At(cs: seq<Cmd>, i: nat): Cmd? {
    if i < |cs| then cs[i] else null
  }

  lemma ChainIsEmpty(head: Cmd?, cs: seq<Cmd>)
    requires Chain(head, cs)
    ensures head == null <==> cs == []
  {
  }

  lemma Consed(c: Cmd, cs: seq<Cmd>)
    requires Chain(c.hostScribble, cs)
    ensures Chain(c, [c] + cs)
  {
  }

  /** The links alone say which commands a queue holds, and in what order. */
  lemma {:induction false} ChainIsUnique(head: Cmd?, a: seq<Cmd>, b: seq<Cmd>)
    requires Chain(head, a) && Chain(head, b)
    ensures a == b
    decreases |a|
  {
    if a != [] && b != [] {
      assert a[0] == b[0];
      assert a[0].hostScribble == At(a, 1) == At(b, 1);
      ChainTail(head, a);
      ChainTail(head, b);
      ChainIsUnique(a[0].hostScribble, a[1..], b[1..]);
      assert a == [a[0]] + a[1..] && b == [b[0]] + b[1..];
    }
  }

  lemma ChainTail(head: Cmd?, cs: seq<Cmd>)
    requires Chain(head, cs) && cs != []
    ensures Chain(cs[0].hostScribble, cs[1..])
  {
    assert forall i :: 0 <= i < |cs| - 1 ==> cs[1..][i].hostScribble == At(cs, i + 2);
  }

  /** A chain cannot run into itself: it ends, so its commands are pairwise different. */
  lemma {:induction false} ChainIsAcyclic(head: Cmd?, cs: seq<Cmd>)
    requires Chain(head, cs)
    ensures forall i, j :: 0 <= i < j < |cs| ==> cs[i] != cs[j]
  {
    forall i, j | 0 <= i < j < |cs|
      ensures cs[i] != cs[j]
    {
      ChainSteps(head, cs, i, j);
    }
  }

  lemma {:induction false} ChainSteps(head: Cmd?, cs: seq<Cmd>, i: nat, j: nat)
    requires Chain(head, cs) && i < j < |cs|
    ensures cs[i] != cs[j]
    decreases |cs| - j
  {
    assert cs[i].hostScribble == cs[i + 1];
    if j + 1 < |cs| {
      assert cs[j].hostScribble == cs[j + 1];
      ChainSteps(head, cs, i + 1, j + 1);
    } else {
      assert cs[j].hostScribble == null;
    }
  }

  lemma RestOfChain(head: Cmd?, q: seq<Cmd>, k: nat)
    requires Chain(head, q) && k < |q|
    ensures q[k] !in RemoveAt(q, k) && forall c :: c in RemoveAt(q, k) ==> c in q
  {
    ChainIsAcyclic(head, q);
    RemoveAtKeeps(q, k);
    NotInRest(q, k);
  }

  lemma NotInRest(q: seq<Cmd>, k: nat)
    requires k < |q| && forall i, j :: 0 <= i < j < |q| ==> q[i] != q[j]
    ensures q[k] !in RemoveAt(q, k)
  {
    var r := RemoveAt(q, k);
    forall i | 0 <= i < |r|
      ensures r[i] != q[k]
    {
      assert r[i] == q[if i < k then i else i + 1];
    }
  }

  /** Takes command `k` of a queue out of it; the unlinked command keeps its stale link. */
  method Unlink(head: Cmd?, prev: Cmd?, cmd: Cmd, ghost q: seq<Cmd>, ghost k: nat) returns (newHead: Cmd?)
    requires Chain(head, q) && k < |q| && cmd == q[k]
    requires prev == if k == 0 then null else q[k - 1]
    modifies q`hostScribble
    ensures Chain(newHead, RemoveAt(q, k))
    ensures forall c :: c in q && c != prev ==> c.hostScribble == old(c.hostScribble)
  {
    ChainIsAcyclic(head, q);
    newHead := head;
    if prev != null {
      prev.hostScribble := cmd.hostScribble;
    } else {
      newHead := cmd.hostScribble;
    }
    ghost var r := RemoveAt(q, k);
    assert forall i :: 0 <= i < |r| ==> r[i] == q[if i < k then i else i + 1];
  }
}
