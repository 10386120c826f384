/**
  The lists a scheduler keeps over one table of control blocks (kernel/scheduler.c:27-40).

  Every control block contributes one node, every list has one head, and a node is on at most
  one list. The ghost field `q` says which blocks are on which list, in order, and `home` names
  the list of each block (-1 for none); `Valid` ties both to the pointers. Callers reason about
  `q` alone: that an operation on one list leaves every other ring untouched is settled here.
 */
module ListGroup {
  import opened IntrusiveList
  import opened KMath
  import opened Words

  /** `q` and `home` describe the same placement of blocks. */
  ghost predicate Placed(q: seq<seq<nat>>, home: seq<int>) {
    && (forall l, i :: 0 <= l < |q| && 0 <= i < |q[l]| ==> q[l][i] < |home| && home[q[l][i]] == l)
    && (forall l :: 0 <= l < |q| ==> Distinct(q[l]))
    && (forall t :: 0 <= t < |home| && home[t] >= 0 ==> home[t] < |q| && t in q[home[t]])
  }

  lemma PlacedRemove(q: seq<seq<nat>>, home: seq<int>, l: nat, k: nat)
    requires Placed(q, home) && l < |q| && k < |q[l]|
    ensures Placed(q[l := RemoveAt(q[l], k)], home[q[l][k] := -1])
  {
    var p, h := q[l := RemoveAt(q[l], k)], home[q[l][k] := -1];
    forall t | 0 <= t < |h| && h[t] >= 0
      ensures h[t] < |p| && t in p[h[t]]
    {
      if h[t] == l {
        var i :| 0 <= i < |q[l]| && q[l][i] == t;
        assert p[l][if i < k then i else i - 1] == t;
      }
    }
  }

  lemma PlacedInsert(q: seq<seq<nat>>, home: seq<int>, l: nat, k: nat, t: nat)
    requires Placed(q, home) && l < |q| && k <= |q[l]| && t < |home| && home[t] < 0
    ensures Placed(q[l := InsertAt(q[l], k, t)], home[t := l])
  {
    var p, h := q[l := InsertAt(q[l], k, t)], home[t := l];
    forall u | 0 <= u < |h| && h[u] >= 0
      ensures h[u] < |p| && u in p[h[u]]
    {
      if u == t {
        assert p[l][k] == t;
      } else if h[u] == l {
        var i :| 0 <= i < |q[l]| && q[l][i] == u;
        assert p[l][if i < k then i else i + 1] == u;
      }
    }
  }

  ghost function Members(s: seq<Node>): set<object> {
    set n | n in s
  }

  function UpTo(n: nat): (s: seq<nat>)
    ensures |s| == n && forall i :: 0 <= i < n ==> s[i] == i
  {
    seq(n, i requires 0 <= i => i)
  }

  lemma PlacedUpTo(q: seq<seq<nat>>, home: seq<int>, l: nat, n: nat)
    requires l < |q| && n <= |home| && q[l] == UpTo(n) && forall m :: 0 <= m < |q| && m != l ==> q[m] == []
    requires forall t :: 0 <= t < |home| ==> home[t] == if t < n then l else -1
    ensures Placed(q, home)
  {
    forall t | 0 <= t < |home| && home[t] >= 0
      ensures home[t] < |q| && t in q[home[t]]
    {
      assert q[l][t] == t;
    }
  }

  /** In a ring of `n` the next and the previous position are one cyclic step away. */
  lemma Neighbours(i: nat, n: nat)
    requires i < n
    ensures Cyclic(i + 1, 0, n) == After(i, n) && Cyclic(i - 1, 0, n) == Before(i, n)
  {
    CyclicLap(i + 1, 0, n);
    CyclicLap(i - 1, 0, n);
  }

  /** One turn of the loop of `scheduler_initialise`. */
  method LinkNode(nodes: seq<Node>, i: Word, n: Word)
    requires i < n <= |nodes|
    modifies nodes[i]
    ensures nodes[i].next == nodes[After(i, n)] && nodes[i].previous == nodes[Before(i, n)]
  {
    Neighbours(i, n);
    var before := ModuloSub(i, 1, 0, n);
    var after := ModuloAdd(i, 1, 0, n);
    nodes[i].previous := nodes[before];
    nodes[i].next := nodes[after];
  }

  /** The whole loop: the first `n` nodes become one ring. */
  method LinkRing(nodes: seq<Node>, n: Word)
    requires 0 < n <= |nodes| && forall t :: 0 <= t < |nodes| ==> nodes[t].block == t
    modifies nodes
    ensures Ring(nodes[..n])
    ensures forall t :: n <= t < |nodes| ==> unchanged(nodes[t])
  {
    ghost var s := nodes[..n];
    for i := 0 to n
      invariant forall j: nat :: j < i ==> nodes[j].next == s[After(j, n)] && nodes[j].previous == s[Before(j, n)]
      invariant forall t :: n <= t < |nodes| ==> unchanged(nodes[t])
    {
      LinkNode(nodes, i, n);
    }
    forall j: nat | j < n
      ensures LinkedAt(s, j)
    {
      assert Before(After(j, n), n) == j;
    }
  }

  lemma InsertedLast(q: seq<nat>, t: nat)
    ensures InsertAt(q, |q|, t) == q + [t]
  {
  }

  class Group {
    const heads: seq<Node>
    const nodes: seq<Node>
    ghost var q: seq<seq<nat>>
    ghost var home: seq<int>

    ghost predicate Layout() {
      && Distinct(heads)
      && (forall t :: 0 <= t < |nodes| ==> nodes[t].block == t)
      && (forall l :: 0 <= l < |heads| ==> heads[l] !in nodes)
    }

    ghost function NodesOf(ids: seq<nat>): (s: seq<Node>)
      requires forall i :: 0 <= i < |ids| ==> ids[i] < |nodes|
      ensures |s| == |ids| && forall i :: 0 <= i < |s| ==> s[i] == nodes[ids[i]]
    {
      seq(|ids|, i requires 0 <= i < |ids| => nodes[ids[i]])
    }

    ghost predicate Valid()
      reads this, heads, nodes
    {
      && Layout() && |q| == |heads| && |home| == |nodes| && Placed(q, home)
      && (forall l :: 0 <= l < |q| ==> IsList(heads[l], NodesOf(q[l])))
      && (forall t :: 0 <= t < |nodes| && home[t] < 0 ==> SelfLinked(nodes[t]))
    }

    /** Empty lists over nodes that are linked to themselves. */
    constructor (heads: seq<Node>, nodes: seq<Node>)
      requires Distinct(heads) && (forall l :: 0 <= l < |heads| ==> heads[l] !in nodes)
      requires forall t :: 0 <= t < |nodes| ==> nodes[t].block == t && SelfLinked(nodes[t])
      requires forall l :: 0 <= l < |heads| ==> IsList(heads[l], [])
      ensures Valid() && this.heads == heads && this.nodes == nodes
      ensures |q| == |heads| && forall l :: 0 <= l < |q| ==> q[l] == []
    {
      this.heads, this.nodes := heads, nodes;
      q := seq(|heads|, l => []);
      home := seq(|nodes|, t => -1);
      new;
      assert forall l :: 0 <= l < |q| ==> NodesOf(q[l]) == [];
    }

    /** The first `n` nodes become the ring of list `l`, whose head names the first of them. */
    method LinkAll(l: nat, n: Word)
      requires Valid() && l < |heads| && 0 < n <= |nodes| && forall m :: 0 <= m < |q| ==> q[m] == []
      modifies this`q, this`home, heads, nodes
      ensures Valid() && q == old(q)[l := UpTo(n)]
    {
      heads[l].next := nodes[0];
      LinkRing(nodes, n);
      q := q[l := UpTo(n)];
      home := seq(|nodes|, t => if t < n then l else -1);
      PlacedUpTo(q, home, l, n);
      hide Placed;
      assert NodesOf(q[l]) == nodes[..n];
      assert forall m :: 0 <= m < |q| && m != l ==> NodesOf(q[m]) == [] && old(IsList(heads[m], NodesOf(q[m])));
    }

    method Remove(l: nat, t: nat, ghost k: nat)
      requires Valid() && l < |q| && k < |q[l]| && q[l][k] == t
      modifies this`q, this`home, heads, nodes
      ensures Valid() && q == old(q)[l := RemoveAt(old(q[l]), k)]
    {
      ghost var s := NodesOf(q[l]);
      RemoveNode(heads[l], nodes[t], s, k);
      forall m | 0 <= m < |q| && m != l
        ensures IsList(heads[m], NodesOf(q[m]))
      {
        var r := NodesOf(q[m]);
        assert old(IsList(heads[m], r));
        forall i: nat | i < |r|
          ensures LinkedAt(r, i)
        {
          assert home[r[i].block] == m && home[r[After(i, |r|)].block] == m;
          assert old(LinkedAt(r, i));
        }
      }
      Displace(l, k, t);
    }

    /** Records that the ring of list `l` has lost block `t` from position `k`. */
    ghost method Displace(l: nat, k: nat, t: nat)
      requires Layout() && |q| == |heads| && |home| == |nodes| && Placed(q, home)
      requires l < |q| && k < |q[l]| && q[l][k] == t
      requires IsList(heads[l], RemoveAt(NodesOf(q[l]), k)) && SelfLinked(nodes[t])
      requires forall m :: 0 <= m < |q| && m != l ==> IsList(heads[m], NodesOf(q[m]))
      requires forall u :: 0 <= u < |nodes| && home[u] < 0 ==> SelfLinked(nodes[u])
      modifies this`q, this`home
      ensures Valid() && q == old(q)[l := RemoveAt(old(q[l]), k)]
    {
      PlacedRemove(q, home, l, k);
      ghost var s := RemoveAt(NodesOf(q[l]), k);
      q := q[l := RemoveAt(q[l], k)];
      home := home[t := -1];
      assert NodesOf(q[l]) == s;
    }

    /** Records that the ring of list `l` has gained block `t` at position `k`. */
    ghost method Place(l: nat, k: nat, t: nat)
      requires Layout() && |q| == |heads| && |home| == |nodes| && Placed(q, home)
      requires l < |q| && k <= |q[l]| && t < |nodes| && home[t] < 0
      requires IsList(heads[l], InsertAt(NodesOf(q[l]), k, nodes[t]))
      requires forall m :: 0 <= m < |q| && m != l ==> IsList(heads[m], NodesOf(q[m]))
      requires forall u :: 0 <= u < |nodes| && u != t && home[u] < 0 ==> SelfLinked(nodes[u])
      modifies this`q, this`home
      ensures Valid() && q == old(q)[l := InsertAt(old(q[l]), k, t)]
    {
      PlacedInsert(q, home, l, k, t);
      ghost var s := InsertAt(NodesOf(q[l]), k, nodes[t]);
      q := q[l := InsertAt(q[l], k, t)];
      home := home[t := l];
      assert NodesOf(q[l]) == s;
    }

    /** Links block `t` in behind `list`, which is the head of list `l` or its node number `k - 1`. */
    method Append(l: nat, list: Node, t: nat, ghost k: nat)
      requires Valid() && l < |q| && k <= |q[l]| && t < |nodes| && home[t] < 0
      requires list == (if k == 0 then heads[l] else nodes[q[l][k - 1]])
      modifies this`q, this`home, heads, nodes
      ensures Valid() && q == old(q)[l := InsertAt(old(q[l]), k, t)]
    {
      ghost var s := NodesOf(q[l]);
      AppendNode(list, nodes[t], heads[l], s, k);
      forall m | 0 <= m < |q| && m != l
        ensures IsList(heads[m], NodesOf(q[m]))
      {
        var r := NodesOf(q[m]);
        assert old(IsList(heads[m], r));
        forall i: nat | i < |r|
          ensures LinkedAt(r, i)
        {
          assert home[r[i].block] == m && home[r[After(i, |r|)].block] == m;
          assert old(LinkedAt(r, i));
        }
      }
      Place(l, k, t);
    }

    /** Appending to a list head puts the block first. */
    method AppendFirst(l: nat, t: nat)
      requires Valid() && l < |q| && t < |nodes| && (forall m :: 0 <= m < |q| ==> t !in q[m])
      modifies this`q, this`home, heads, nodes
      ensures Valid() && q == old(q)[l := [t] + old(q[l])]
    {
      Append(l, heads[l], t, 0);
      assert InsertAt(old(q[l]), 0, t) == [t] + old(q[l]);
    }

    /** Appending to the head of an empty list, or else to the last node, puts the block last. */
    method AppendLast(l: nat, t: nat)
      requires Valid() && l < |q| && t < |nodes| && (forall m :: 0 <= m < |q| ==> t !in q[m])
      modifies this`q, this`home, heads, nodes
      ensures Valid() && q == old(q)[l := old(q[l]) + [t]]
    {
      ghost var s := NodesOf(q[l]);
      InsertedLast(q[l], t);
      hide InsertAt;
      var empty := IsEmpty(heads[l], s);
      if empty {
        Append(l, heads[l], t, 0);
      } else {
        var last := LastNode(heads[l], s);
        Append(l, last, t, |q[l]|);
      }
    }

    method TransferFirst(from: nat, to: nat, t: nat, ghost k: nat)
      requires Valid() && from < |q| && to < |q| && from != to && k < |q[from]| && q[from][k] == t
      modifies this`q, this`home, heads, nodes
      ensures Valid() && q == old(q)[from := RemoveAt(old(q[from]), k)][to := [t] + old(q[to])]
    {
      UniqueBlock(from, k);
      Remove(from, t, k);
      AppendFirst(to, t);
    }

    method TransferLast(from: nat, to: nat, t: nat, ghost k: nat)
      requires Valid() && from < |q| && to < |q| && from != to && k < |q[from]| && q[from][k] == t
      modifies this`q, this`home, heads, nodes
      ensures Valid() && q == old(q)[from := RemoveAt(old(q[from]), k)][to := old(q[to]) + [t]]
    {
      UniqueBlock(from, k);
      Remove(from, t, k);
      AppendLast(to, t);
    }

    /** The block at position `k` of list `l` is nowhere else. */
    lemma UniqueBlock(l: nat, k: nat)
      requires Valid() && l < |q| && k < |q[l]|
      ensures q[l][k] !in RemoveAt(q[l], k)
      ensures forall m :: 0 <= m < |q| && m != l ==> q[l][k] !in q[m]
    {
      assert home[q[l][k]] == l;
    }

    method InsertInOrder(l: nat, t: nat, le: (nat, nat) -> bool)
      requires Valid() && l < |q| && t < |nodes| && (forall m :: 0 <= m < |q| ==> t !in q[m])
      modifies this`q, this`home, heads, nodes
      ensures Valid() && q == old(q)[l := SortedInsert(old(q[l]), t, le)]
    {
      ghost var s := NodesOf(q[l]);
      var cmp := (a: Node, b: Node) => le(a.block, b.block);
      InsertSorted(heads[l], nodes[t], cmp, s);
      forall m | 0 <= m < |q| && m != l
        ensures IsList(heads[m], NodesOf(q[m]))
      {
        var r := NodesOf(q[m]);
        assert old(IsList(heads[m], r));
        forall i: nat | i < |r|
          ensures LinkedAt(r, i)
        {
          assert home[r[i].block] == m && home[r[After(i, |r|)].block] == m;
          assert old(LinkedAt(r, i));
        }
      }
      ghost var k := SortedPosition(q[l], t, le);
      assert SortedPosition(s, nodes[t], cmp) == k;
      Place(l, k, t);
    }

    method IsEmptyList(l: nat) returns (empty: bool)
      requires Valid() && l < |q|
      ensures empty <==> q[l] == []
    {
      empty := IsEmpty(heads[l], NodesOf(q[l]));
    }

    method First(l: nat) returns (t: nat)
      requires Valid() && l < |q| && q[l] != []
      ensures t == q[l][0]
    {
      var n := FirstNode(heads[l], NodesOf(q[l]));
      t := n.block;
    }

    /** On a valid group no structural check of the list can fail. */
    method CheckRing(l: nat, checked: array<bool>) returns (ok: bool)
      requires Valid() && l < |q| && checked.Length == |nodes|
      requires forall i :: 0 <= i < |q[l]| ==> !checked[q[l][i]]
      modifies checked
      ensures ok
      ensures forall t :: 0 <= t < |nodes| ==> checked[t] == (old(checked[t]) || t in q[l])
    {
      ghost var s := NodesOf(q[l]);
      ok := CheckLinks(heads[l], checked, s, q[l]);
    }

    /** Whether the list is in the order `le`; this check can fail. */
    method CheckOrder(l: nat, le: (nat, nat) -> bool) returns (ok: bool)
      requires Valid() && l < |q|
      ensures ok <==> forall i :: 0 <= i < |q[l]| - 1 ==> le(q[l][i], q[l][i + 1])
    {
      ok := CheckSorted(heads[l], le, NodesOf(q[l]), q[l]);
    }
  }
}
