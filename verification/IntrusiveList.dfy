/**
  Circular doubly linked lists threaded through the objects they hold
  (kernel/lib/kintrusive_list.c).

  A list is a detached head plus a ring of nodes. The head never joins the ring: its
  `previous` is null and its `next` names the first node, or is null when the list is empty.
  A node that is on no list is linked to itself.
 */
module IntrusiveList {

  class Node {
    // The control block this node is embedded in; what `container_of` recovers.
    const block: nat
    var previous: Node?
    var next: Node?

    constructor Head()
      ensures previous == null && next == null
    {
      block, previous, next := 0, null, null;
    }

    constructor Detached(block: nat)
      ensures this.block == block && SelfLinked(this)
    {
      this.block, previous, next := block, this, this;
    }
  }

  ghost predicate SelfLinked(n: Node)
    reads n
  {
    n.previous == n && n.next == n
  }

  function After(i: nat, n: nat): nat
    requires i < n
  {
    if i + 1 == n then 0 else i + 1
  }

  function Before(i: nat, n: nat): nat
    requires i < n
  {
    if i == 0 then n - 1 else i - 1
  }

  ghost predicate Distinct<T>(s: seq<T>) {
    forall i, j :: 0 <= i < j < |s| ==> s[i] != s[j]
  }

  ghost predicate Linked(a: Node, b: Node)
    reads a, b
  {
    a.next == b && b.previous == a
  }

  /** Position `i` of `s` is linked to its successor, the last position to the first one. */
  ghost predicate LinkedAt(s: seq<Node>, i: nat)
    requires i < |s|
    reads s
  {
    Linked(s[i], s[After(i, |s|)])
  }

  ghost predicate Ring(s: seq<Node>)
    reads s
  {
    && Distinct(s)
    && forall i: nat :: i < |s| ==> LinkedAt(s, i)
  }

  /** `list` is a head whose ring holds exactly the nodes `s`, in order. */
  ghost predicate IsList(list: Node, s: seq<Node>)
    reads list, s
  {
    && list.previous == null
    && list !in s
    && list.next == (if s == [] then null else s[0])
    && Ring(s)
  }

  function RemoveAt<T>(s: seq<T>, k: nat): (r: seq<T>)
    requires k < |s|
    ensures |r| == |s| - 1
    ensures forall i :: 0 <= i < k ==> r[i] == s[i]
    ensures forall i :: k <= i < |r| ==> r[i] == s[i + 1]
  {
    s[..k] + s[k + 1..]
  }

  function InsertAt<T>(s: seq<T>, k: nat, x: T): (r: seq<T>)
    requires k <= |s|
    ensures |r| == |s| + 1 && r[k] == x
    ensures forall i :: 0 <= i < k ==> r[i] == s[i]
    ensures forall i :: k < i < |r| ==> r[i] == s[i - 1]
  {
    s[..k] + [x] + s[k..]
  }

  method ConnectNodes(from: Node, to: Node)
    modifies from`next, to`previous
    ensures from.next == to && to.previous == from
  {
    from.next := to;
    to.previous := from;
  }

  method IsEmpty(list: Node, ghost s: seq<Node>) returns (empty: bool)
    requires IsList(list, s)
    ensures empty <==> s == []
  {
    empty := list.next == null;
  }

  method FirstNode(list: Node, ghost s: seq<Node>) returns (n: Node)
    requires IsList(list, s) && s != []
    ensures n == s[0]
  {
    n := list.next;
  }

  method LastNode(list: Node, ghost s: seq<Node>) returns (n: Node)
    requires IsList(list, s) && s != []
    ensures n == s[|s| - 1]
  {
    assert LinkedAt(s, |s| - 1);
    n := list.next.previous;
  }

  /** A ring whose position `k` has been bypassed is the ring without that position. */
  lemma BypassRing(s: seq<Node>, k: nat)
    requires k < |s| && Distinct(s)
    requires |s| > 1 ==> Linked(s[Before(k, |s|)], s[After(k, |s|)])
    requires forall i: nat :: i < |s| && i != k && i != Before(k, |s|) ==> LinkedAt(s, i)
    ensures Ring(RemoveAt(s, k))
  {
    var r := RemoveAt(s, k);
    forall i: nat | i < |r|
      ensures LinkedAt(r, i)
    {
      var j := if i < k then i else i + 1;
      assert j != Before(k, |s|) ==> LinkedAt(s, j);
    }
  }

  /** Unlinks `n` and leaves it linked to itself. */
  method RemoveNode(list: Node, n: Node, ghost s: seq<Node>, ghost k: nat)
    requires IsList(list, s) && k < |s| && s[k] == n
    modifies list`next, s
    ensures IsList(list, RemoveAt(s, k)) && SelfLinked(n)
  {
    assert LinkedAt(s, k);
    assert LinkedAt(s, Before(k, |s|));
    if list.next == n {
      if n == n.previous && n == n.next {
        list.next := null;
      } else {
        list.next := n.next;
      }
    }
    ConnectNodes(n.previous, n.next);
    ConnectNodes(n, n);
    forall i: nat | i < |s| && i != k && i != Before(k, |s|)
      ensures LinkedAt(s, i)
    {
      assert old(LinkedAt(s, i));
    }
    BypassRing(s, k);
  }

  /** A ring with `n` linked in before position `k` is the ring with `n` inserted there. */
  lemma SpliceRing(s: seq<Node>, k: nat, n: Node)
    requires k <= |s| && s != [] && Distinct(s) && n !in s
    requires Linked(s[if k == 0 then |s| - 1 else k - 1], n)
    requires Linked(n, s[if k == |s| then 0 else k])
    requires forall i: nat :: i < |s| && i != (if k == 0 then |s| - 1 else k - 1) ==> LinkedAt(s, i)
    ensures Ring(InsertAt(s, k, n))
  {
    var r := InsertAt(s, k, n);
    forall i: nat | i < |r|
      ensures LinkedAt(r, i)
    {
      if i != k && After(i, |r|) != k {
        var j := if i < k then i else i - 1;
        assert LinkedAt(s, j);
      }
    }
  }

  /**
    Inserts `n` after `list`. When `list` is the head itself (`k == 0`) the node becomes the
    first one; when `list` is the node at position `k - 1`, it becomes the node at position `k`.
   */
  method AppendNode(list: Node, n: Node, ghost head: Node, ghost s: seq<Node>, ghost k: nat)
    requires IsList(head, s) && k <= |s|
    requires list == (if k == 0 then head else s[k - 1])
    requires SelfLinked(n) && n !in s && n != head
    modifies head`next, s, n
    ensures IsList(head, InsertAt(s, k, n))
  {
    var position := list;
    if k > 0 {
      assert LinkedAt(s, Before(k - 1, |s|));
    }
    if list.previous == null {
      if list.next == null {
        list.next := n;
        assert LinkedAt([n], 0);
        return;
      }
      position := LastNode(list, s);
      list.next := n;
    }
    ghost var b := if k == 0 then |s| - 1 else k - 1;
    assert old(LinkedAt(s, b));
    ConnectNodes(n, position.next);
    ConnectNodes(position, n);
    forall i: nat | i < |s| && i != b
      ensures LinkedAt(s, i)
    {
      assert old(LinkedAt(s, i));
    }
    SpliceRing(s, k, n);
  }

  /** How many leading elements of `s` are ordered before or level with `x`. */
  function LeadingCount<T>(s: seq<T>, x: T, cmp: (T, T) -> bool): (c: nat)
    ensures c <= |s|
    ensures forall i :: 0 <= i < c ==> cmp(s[i], x)
    ensures c < |s| ==> !cmp(s[c], x)
  {
    if s == [] || !cmp(s[0], x) then 0 else 1 + LeadingCount(s[1..], x, cmp)
  }

  /** Where the sorted walk puts `x`: a new least element goes to the end, not to the front. */
  function SortedPosition<T>(s: seq<T>, x: T, cmp: (T, T) -> bool): nat {
    var c := LeadingCount(s, x, cmp);
    if c == 0 then |s| else c
  }

  function SortedInsert<T>(s: seq<T>, x: T, cmp: (T, T) -> bool): seq<T> {
    InsertAt(s, SortedPosition(s, x, cmp), x)
  }

  /** The walk looks at every node at most once and stops after one lap. */
  method InsertSorted(list: Node, n: Node, cmp: (Node, Node) -> bool, ghost s: seq<Node>)
    requires IsList(list, s) && SelfLinked(n) && n !in s && n != list
    modifies list`next, s, n
    ensures IsList(list, SortedInsert(s, n, cmp))
  {
    if list.next == null {
      list.next := n;
      assert LinkedAt([n], 0);
      return;
    }
    var current := list.next;
    ghost var i: nat := 0;
    while cmp(current, n)
      invariant i < |s| && current == s[i]
      invariant i <= LeadingCount(s, n, cmp)
      decreases |s| - i
    {
      assert LinkedAt(s, i);
      current := current.next;
      i := i + 1;
      if current == list.next {
        break;
      }
    }
    ghost var k := if i == 0 then |s| else i;
    assert k == SortedPosition(s, n, cmp);
    assert LinkedAt(s, k - 1);
    current := current.previous;
    ConnectNodes(n, current.next);
    ConnectNodes(current, n);
    forall j: nat | j < |s| && j != k - 1
      ensures LinkedAt(s, j)
    {
      assert old(LinkedAt(s, j));
    }
    SpliceRing(s, k, n);
  }

  /** `s` are the nodes of the blocks `ids`. */
  ghost predicate NodesFor(s: seq<Node>, ids: seq<nat>) {
    |s| == |ids| && forall i :: 0 <= i < |s| ==> s[i].block == ids[i]
  }

  /**
    One list's part of `scheduler_verify_thread_list_integrity`: the ring is well linked and
    none of its blocks has been seen before.
   */
  method CheckLinks(list: Node, checked: array<bool>, ghost s: seq<Node>, ghost ids: seq<nat>) returns (ok: bool)
    requires IsList(list, s) && NodesFor(s, ids) && Distinct(ids)
    requires forall i :: 0 <= i < |ids| ==> ids[i] < checked.Length && !checked[ids[i]]
    modifies checked
    ensures ok
    ensures forall t :: 0 <= t < checked.Length ==> checked[t] == (old(checked[t]) || t in ids)
  {
    ok := true;
    if list.next == null {
      return;
    }
    var start := FirstNode(list, s);
    var current := start;
    ghost var i: nat := 0;
    while true
      invariant i < |s| && current == s[i] && ok
      invariant forall j :: 0 <= j < i ==> checked[ids[j]]
      invariant forall j :: i <= j < |ids| ==> !checked[ids[j]]
      invariant forall t :: 0 <= t < checked.Length && t !in ids ==> checked[t] == old(checked[t])
      decreases |s| - i
    {
      var linked := CheckNode(current, s, i);
      ok := ok && linked && current.block < checked.Length && !checked[current.block];
      checked[current.block] := true;
      assert LinkedAt(s, i);
      current := current.next;
      i := i + 1;
      if current == start {
        break;
      }
    }
  }

  method CheckNode(n: Node, ghost s: seq<Node>, ghost i: nat) returns (ok: bool)
    requires Ring(s) && i < |s| && n == s[i]
    ensures ok
  {
    assert LinkedAt(s, i);
    assert LinkedAt(s, Before(i, |s|));
    ok := n.previous != null && n.next != null && n == n.previous.next && n == n.next.previous;
  }

  /** The walk that checks the order of a list, neighbour by neighbour. */
  method CheckSorted(list: Node, le: (nat, nat) -> bool, ghost s: seq<Node>, ghost ids: seq<nat>) returns (ok: bool)
    requires IsList(list, s) && NodesFor(s, ids)
    ensures ok <==> forall i :: 0 <= i < |ids| - 1 ==> le(ids[i], ids[i + 1])
  {
    ok := true;
    if list.next == null {
      return;
    }
    var current := FirstNode(list, s);
    var last := LastNode(list, s);
    ghost var i: nat := 0;
    while current != last
      invariant i < |s| && current == s[i]
      invariant ok <==> forall j :: 0 <= j < i ==> le(ids[j], ids[j + 1])
      decreases |s| - i
    {
      assert LinkedAt(s, i);
      ok := ok && le(current.block, current.next.block);
      current := current.next;
      i := i + 1;
    }
  }
}
