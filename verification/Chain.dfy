/**
  Intrusive doubly-linked lists (exchange-core/intrusive_list.h), which hold the orders of a level
  and the levels of a side.  Nodes are pool slots; a list's head and tail belong to its owner.
 */
module Chain {
  import opened Pool

  datatype Link = Link(prev: int, next: int)

  /** The head and tail pointers of one list. */
  datatype Ends = Ends(head: int, tail: int)

  const EMPTY := Ends(NIL, NIL)

  /** Each link and its counterpart agree with the order of the nodes. */
  ghost predicate Chained(at: seq<Link>, e: Ends, nodes: seq<nat>) {
    && Distinct(nodes) && (forall i :: 0 <= i < |nodes| ==> nodes[i] < |at|)
    && e.head == (if nodes == [] then NIL else nodes[0])
    && e.tail == (if nodes == [] then NIL else nodes[|nodes| - 1])
    && (nodes != [] ==> at[nodes[0]].prev == NIL && at[nodes[|nodes| - 1]].next == NIL)
    && forall i, j :: 0 <= i < |nodes| && j == i + 1 && j < |nodes| ==> at[nodes[i]].next == nodes[j] && at[nodes[j]].prev == nodes[i]
  }

  /** Only the given nodes have been relinked. */
  ghost predicate Elsewhere(before: seq<Link>, at: seq<Link>, nodes: seq<nat>) {
    |at| == |before| && forall p :: 0 <= p < |at| && p !in nodes ==> at[p] == before[p]
  }

  /** A list none of whose nodes was touched is as it was. */
  lemma Untouched(before: seq<Link>, at: seq<Link>, nodes: seq<nat>, e: Ends, others: seq<nat>)
    requires Chained(before, e, others) && Elsewhere(before, at, nodes) && forall p :: p in others ==> p !in nodes
    ensures Chained(at, e, others)
  {
    forall i | 0 <= i < |others| ensures at[others[i]] == before[others[i]] { assert others[i] in others; }
  }

  // ---------------------------------------------------------------- relinking

  function At(nodes: seq<nat>, i: int): int { if 0 <= i < |nodes| then nodes[i] else NIL }

  ghost predicate Amid(at: seq<Link>, nodes: seq<nat>, i: nat)
    requires i < |nodes| && nodes[i] < |at|
  { at[nodes[i]] == Link(At(nodes, i - 1), At(nodes, i + 1)) }

  /** Nodes that point at their neighbours are linked. */
  lemma Neighbours(at: seq<Link>, e: Ends, nodes: seq<nat>)
    requires Distinct(nodes) && (forall i :: 0 <= i < |nodes| ==> nodes[i] < |at|)
    requires e == Ends(At(nodes, 0), At(nodes, |nodes| - 1))
    requires forall i :: 0 <= i < |nodes| ==> Amid(at, nodes, i)
    ensures Chained(at, e, nodes)
  {
    forall i, j | 0 <= i < |nodes| && j == i + 1 && j < |nodes|
      ensures at[nodes[i]].next == nodes[j] && at[nodes[j]].prev == nodes[i]
    {
      assert Amid(at, nodes, i) && Amid(at, nodes, j);
    }
    if nodes != [] { assert Amid(at, nodes, 0) && Amid(at, nodes, |nodes| - 1); }
  }

  lemma EndsAre(at: seq<Link>, e: Ends, nodes: seq<nat>)
    requires Chained(at, e, nodes)
    ensures e == Ends(At(nodes, 0), At(nodes, |nodes| - 1))
    ensures forall i :: 0 <= i < |nodes| ==> nodes[i] < |at|
    ensures nodes != [] ==> at[nodes[0]].prev == NIL && at[nodes[|nodes| - 1]].next == NIL
  {
  }

  /** A node, the one before it and the one after it are three. */
  lemma Around(at: seq<Link>, e: Ends, nodes: seq<nat>, i: nat)
    requires Chained(at, e, nodes) && i < |nodes|
    ensures at[nodes[i]] == Link(At(nodes, i - 1), At(nodes, i + 1))
    ensures At(nodes, i - 1) < |at| && At(nodes, i + 1) < |at|
    ensures nodes[i] != At(nodes, i - 1) && nodes[i] != At(nodes, i + 1)
    ensures At(nodes, i - 1) == At(nodes, i + 1) ==> At(nodes, i - 1) == NIL
  {
  }

  /** The node's two neighbours now point at it, and nothing else changed. */
  ghost predicate Joins(before: seq<Link>, at: seq<Link>, nodes: seq<nat>, i: nat, node: nat) {
    && |at| == |before| && node < |at| && at[node] == Link(At(nodes, i - 1), At(nodes, i))
    && forall p :: 0 <= p < |at| && p != node ==>
      at[p] == Link(if p == At(nodes, i) then node else before[p].prev, if p == At(nodes, i - 1) then node else before[p].next)
  }

  function Put(nodes: seq<nat>, i: nat, node: nat): seq<nat>
    requires i <= |nodes|
  { nodes[..i] + [node] + nodes[i..] }

  lemma PutOf(nodes: seq<nat>, i: nat, node: nat)
    requires i <= |nodes|
    ensures |Put(nodes, i, node)| == |nodes| + 1
    ensures forall k :: 0 <= k <= |nodes| ==>
      Put(nodes, i, node)[k] == if k < i then nodes[k] else if k == i then node else nodes[k - 1]
    ensures forall p :: p in Put(nodes, i, node) <==> p == node || p in nodes
  {
    var r := Put(nodes, i, node);
    assert r[i] == node && nodes == nodes[..i] + nodes[i..];
  }

  lemma PutAt(nodes: seq<nat>, i: nat, node: nat, k: int)
    requires i <= |nodes|
    ensures At(Put(nodes, i, node), k) == if k < i then At(nodes, k) else if k == i then node else At(nodes, k - 1)
  {
  }

  lemma SplicedAt(before: seq<Link>, at: seq<Link>, e: Ends, nodes: seq<nat>, i: nat, node: nat, k: nat)
    requires Chained(before, e, nodes) && i <= |nodes| && node !in nodes && Joins(before, at, nodes, i, node) && k <= |nodes|
    ensures Put(nodes, i, node)[k] < |at| && Amid(at, Put(nodes, i, node), k)
  {
    hide Put, Chained;
    PutOf(nodes, i, node);
    PutAt(nodes, i, node, k - 1);
    PutAt(nodes, i, node, k + 1);
    if k == i { return; }
    var j := if k < i then k else k - 1;
    assert nodes[j] in nodes;
    Around(before, e, nodes, j);
    EndsAre(before, e, nodes);
    if 0 <= i - 1 != j { Apart(before, e, nodes, i - 1, j); }
    if j != i < |nodes| { Apart(before, e, nodes, i, j); }
  }

  lemma Apart(at: seq<Link>, e: Ends, nodes: seq<nat>, i: nat, j: nat)
    requires Chained(at, e, nodes) && i < |nodes| && j < |nodes| && i != j
    ensures nodes[i] != nodes[j]
  {
  }

  lemma PutDistinct(nodes: seq<nat>, i: nat, node: nat)
    requires Distinct(nodes) && i <= |nodes| && node !in nodes
    ensures Distinct(Put(nodes, i, node))
  {
  }

  lemma SplicedElsewhere(before: seq<Link>, at: seq<Link>, nodes: seq<nat>, i: nat, node: nat)
    requires i <= |nodes| && Joins(before, at, nodes, i, node)
    ensures Elsewhere(before, at, Put(nodes, i, node))
  {
    hide Put;
    PutOf(nodes, i, node);
    assert (i > 0 ==> nodes[i - 1] in nodes) && (i < |nodes| ==> nodes[i] in nodes);
  }

  lemma Spliced(before: seq<Link>, at: seq<Link>, e: Ends, nodes: seq<nat>, i: nat, node: nat)
    requires Chained(before, e, nodes) && i <= |nodes| && node !in nodes && Joins(before, at, nodes, i, node)
    ensures Chained(at, Ends(if i == 0 then node else e.head, if i == |nodes| then node else e.tail), Put(nodes, i, node))
    ensures Elsewhere(before, at, Put(nodes, i, node))
  {
    var r := Put(nodes, i, node);
    PutDistinct(nodes, i, node);
    hide Put, Chained, Distinct, Amid, Joins, Elsewhere;
    EndsAre(before, e, nodes);
    assert |r| == |nodes| + 1 by { PutOf(nodes, i, node); }
    PutAt(nodes, i, node, 0);
    PutAt(nodes, i, node, |nodes|);
    forall k | 0 <= k < |r| ensures r[k] < |at| && Amid(at, r, k) { SplicedAt(before, at, e, nodes, i, node, k); }
    Neighbours(at, Ends(if i == 0 then node else e.head, if i == |nodes| then node else e.tail), r);
    SplicedElsewhere(before, at, nodes, i, node);
  }

  /** The two neighbours of node i now point at each other. */
  ghost predicate Parts(before: seq<Link>, at: seq<Link>, nodes: seq<nat>, i: nat)
    requires i < |nodes|
  {
    && |at| == |before|
    && forall p :: 0 <= p < |at| && p != nodes[i] ==>
      at[p] == Link(if p == At(nodes, i + 1) then At(nodes, i - 1) else before[p].prev,
                    if p == At(nodes, i - 1) then At(nodes, i + 1) else before[p].next)
  }

  function Cut(nodes: seq<nat>, i: nat): seq<nat>
    requires i < |nodes|
  { nodes[..i] + nodes[i+1..] }

  lemma CutOf(nodes: seq<nat>, i: nat)
    requires i < |nodes|
    ensures |Cut(nodes, i)| == |nodes| - 1
    ensures forall k :: 0 <= k < |nodes| - 1 ==> Cut(nodes, i)[k] == nodes[if k < i then k else k + 1]
    ensures Distinct(nodes) ==> forall p :: p in Cut(nodes, i) <==> p in nodes && p != nodes[i]
  {
    var r := Cut(nodes, i);
    forall p | p in nodes && p != nodes[i] ensures p in r {
      var k :| 0 <= k < |nodes| && nodes[k] == p;
      assert r[if k < i then k else k - 1] == p;
    }
  }

  lemma CutAt(nodes: seq<nat>, i: nat, k: int)
    requires i < |nodes|
    ensures At(Cut(nodes, i), k) == if k < i then At(nodes, k) else At(nodes, k + 1)
  {
  }

  lemma CutDistinct(nodes: seq<nat>, i: nat)
    requires Distinct(nodes) && i < |nodes|
    ensures Distinct(Cut(nodes, i))
  {
  }

  lemma UnsplicedAt(before: seq<Link>, at: seq<Link>, e: Ends, nodes: seq<nat>, i: nat, k: nat)
    requires Chained(before, e, nodes) && i < |nodes| && Parts(before, at, nodes, i) && k < |nodes| - 1
    ensures Cut(nodes, i)[k] < |at| && Amid(at, Cut(nodes, i), k)
  {
    hide Cut, Chained;
    CutOf(nodes, i);
    CutAt(nodes, i, k - 1);
    CutAt(nodes, i, k + 1);
    EndsAre(before, e, nodes);
    var j := if k < i then k else k + 1;
    Around(before, e, nodes, j);
    Apart(before, e, nodes, i, j);
    if 0 <= i - 1 != j { Apart(before, e, nodes, i - 1, j); }
    if j != i + 1 < |nodes| { Apart(before, e, nodes, i + 1, j); }
  }

  lemma Unspliced(before: seq<Link>, at: seq<Link>, e: Ends, nodes: seq<nat>, i: nat)
    requires Chained(before, e, nodes) && i < |nodes| && Parts(before, at, nodes, i)
    ensures Chained(at, Ends(if i == 0 then At(nodes, 1) else e.head, if i == |nodes| - 1 then At(nodes, i - 1) else e.tail), Cut(nodes, i))
    ensures Elsewhere(before, at, nodes)
  {
    var r := Cut(nodes, i);
    CutDistinct(nodes, i);
    assert Elsewhere(before, at, nodes) by {
      assert nodes[i] in nodes && (i > 0 ==> nodes[i - 1] in nodes) && (i < |nodes| - 1 ==> nodes[i + 1] in nodes);
    }
    hide Cut, Chained, Distinct, Amid, Parts, Elsewhere;
    EndsAre(before, e, nodes);
    assert |r| == |nodes| - 1 by { CutOf(nodes, i); }
    CutAt(nodes, i, 0);
    CutAt(nodes, i, |nodes| - 2);
    forall k | 0 <= k < |r| ensures r[k] < |at| && Amid(at, r, k) { UnsplicedAt(before, at, e, nodes, i, k); }
    Neighbours(at, Ends(if i == 0 then At(nodes, 1) else e.head, if i == |nodes| - 1 then At(nodes, i - 1) else e.tail), r);
  }

  // ---------------------------------------------------------------- the list operations

  /** The links of every slot of a pool. */
  class Links {
    var at: seq<Link>

    constructor (n: nat)
      ensures |at| == n
    {
      at := seq(n, i => Link(NIL, NIL));
    }

    method PushBack(e: Ends, node: nat, ghost nodes: seq<nat>) returns (r: Ends)
      requires Chained(at, e, nodes) && node < |at| && node !in nodes
      modifies this
      ensures Chained(at, r, nodes + [node]) && Elsewhere(old(at), at, nodes + [node])
    {
      hide Chained, Elsewhere, Distinct;
      EndsAre(at, e, nodes);
      r := e;
      at := at[node := Link(e.tail, NIL)];
      if e.tail != NIL { at := at[e.tail := at[e.tail].(next := node)]; } else { r := r.(head := node); }
      r := r.(tail := node);
      Spliced(old(at), at, e, nodes, |nodes|, node);
      assert Put(nodes, |nodes|, node) == nodes + [node];
    }

    method PushFront(e: Ends, node: nat, ghost nodes: seq<nat>) returns (r: Ends)
      requires Chained(at, e, nodes) && node < |at| && node !in nodes
      modifies this
      ensures Chained(at, r, [node] + nodes) && Elsewhere(old(at), at, [node] + nodes)
    {
      hide Chained, Elsewhere, Distinct;
      EndsAre(at, e, nodes);
      r := e;
      at := at[node := Link(NIL, e.head)];
      if e.head != NIL { at := at[e.head := at[e.head].(prev := node)]; } else { r := r.(tail := node); }
      r := r.(head := node);
      Spliced(old(at), at, e, nodes, 0, node);
      assert Put(nodes, 0, node) == [node] + nodes;
    }

    method InsertBefore(e: Ends, before: nat, node: nat, ghost nodes: seq<nat>, ghost i: nat) returns (r: Ends)
      requires Chained(at, e, nodes) && node < |at| && node !in nodes && i < |nodes| && nodes[i] == before
      modifies this
      ensures Chained(at, r, Put(nodes, i, node)) && Elsewhere(old(at), at, Put(nodes, i, node))
    {
      hide Chained, Elsewhere, Distinct;
      EndsAre(at, e, nodes);
      Around(at, e, nodes, i);
      r := e;
      at := at[node := Link(at[before].prev, before)];
      var p := at[before].prev;
      if p != NIL { at := at[p := at[p].(next := node)]; } else { r := r.(head := node); }
      at := at[before := at[before].(prev := node)];
      Spliced(old(at), at, e, nodes, i, node);
    }

    method InsertAfter(e: Ends, after: nat, node: nat, ghost nodes: seq<nat>, ghost i: nat) returns (r: Ends)
      requires Chained(at, e, nodes) && node < |at| && node !in nodes && i < |nodes| && nodes[i] == after
      modifies this
      ensures Chained(at, r, Put(nodes, i + 1, node)) && Elsewhere(old(at), at, Put(nodes, i + 1, node))
    {
      hide Chained, Elsewhere, Distinct;
      EndsAre(at, e, nodes);
      Around(at, e, nodes, i);
      r := e;
      at := at[node := Link(after, at[after].next)];
      var n := at[after].next;
      if n != NIL { at := at[n := at[n].(prev := node)]; } else { r := r.(tail := node); }
      at := at[after := at[after].(next := node)];
      Spliced(old(at), at, e, nodes, i + 1, node);
    }

    /** Unlink a node; the others keep their order. */
    method Remove(e: Ends, node: nat, ghost nodes: seq<nat>, ghost i: nat) returns (r: Ends)
      requires Chained(at, e, nodes) && i < |nodes| && nodes[i] == node
      modifies this
      ensures Chained(at, r, Cut(nodes, i)) && Elsewhere(old(at), at, nodes)
      ensures at[node] == Link(NIL, NIL)
    {
      hide Chained, Elsewhere, Distinct;
      EndsAre(at, e, nodes);
      Around(at, e, nodes, i);
      r := e;
      var p, n := at[node].prev, at[node].next;
      if p != NIL { at := at[p := at[p].(next := n)]; } else { r := r.(head := n); }
      if n != NIL { at := at[n := at[n].(prev := p)]; } else { r := r.(tail := p); }
      at := at[node := Link(NIL, NIL)];
      Unspliced(old(at), at, e, nodes, i);
    }

    /** list_size. */
    method Size(e: Ends, ghost nodes: seq<nat>) returns (n: nat)
      requires Chained(at, e, nodes)
      ensures n == |nodes|
    {
      n := 0;
      var p := e.head;
      while p != NIL
        invariant n <= |nodes| && p == if n < |nodes| then nodes[n] else NIL
        decreases |nodes| - n
      {
        n := n + 1;
        p := at[p].next;
      }
    }
  }
}
