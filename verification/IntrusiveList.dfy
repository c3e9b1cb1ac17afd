/**
 The doubly linked list with sentinels at both ends that every queue of threads is made of.
 A node carries only its two links, and the same node can be in one list at a time.
 */
module IntrusiveList {
  import opened Words

  class Node {
    var prev: Node?
    var next: Node?

    constructor ()
      ensures prev == null && next == null
    {
      prev, next := null, null;
    }
  }

  /** Neighbours point at each other. */
  ghost predicate Linked(c: seq<Node>)
    reads c
  {
    forall i, j | 0 <= i < j < |c| && j == i + 1 :: c[i].next == c[j] && c[j].prev == c[i]
  }

  ghost predicate Distinct(c: seq<Node>) {
    forall i, j | 0 <= i < j < |c| :: c[i] != c[j]
  }

  lemma DistinctInsert(c: seq<Node>, k: nat, x: Node)
    requires Distinct(c) && k <= |c| && x !in c
    ensures Distinct(c[..k] + [x] + c[k..])
  {
  }

  lemma DistinctRemove(c: seq<Node>, k: nat)
    requires Distinct(c) && k < |c|
    ensures Distinct(c[..k] + c[k + 1..]) && c[k] !in c[..k] + c[k + 1..]
  {
  }

  class List {
    const head: Node
    const tail: Node
    ghost var elems: seq<Node>

    /** All nodes in order, the sentinels included. */
    ghost function Chain(): (c: seq<Node>)
      reads this
      ensures |c| == |elems| + 2 && c[0] == head && c[|elems| + 1] == tail
      ensures forall i | 0 <= i < |elems| :: c[i + 1] == elems[i]
    {
      [head] + elems + [tail]
    }

    ghost function NodeAt(i: nat): Node
      requires i < |elems| + 2
      reads this
    {
      Chain()[i]
    }

    ghost predicate Valid()
      reads this, head, tail, Chain()
    {
      Distinct(Chain()) && Linked(Chain()) && head.prev == null && tail.next == null
    }

    constructor ()
      ensures Valid() && elems == [] && fresh(head) && fresh(tail)
      ensures head != tail && head.prev == null && head.next == tail && tail.prev == head && tail.next == null
    {
      var h := new Node();
      var t := new Node();
      h.prev, h.next := null, t;
      t.prev, t.next := h, null;
      head, tail, elems := h, t, [];
    }

    /** Link elem in front of node k of the list, the tail if k is its length. */
    method InsertBefore(before: Node, elem: Node, ghost k: nat)
      requires Valid() && k <= |elems| && before == Chain()[k + 1] && elem !in Chain()
      modifies `elems, elem, before`prev, NodeAt(k)`next
      ensures elems == old(elems[..k] + [elem] + elems[k..])
      ensures Valid()
    {
      ghost var c := Chain();
      assert c[k].next == c[k + 1] && before.prev == c[k];
      elem.prev := before.prev;
      elem.next := before;
      before.prev.next := elem;
      before.prev := elem;
      elems := elems[..k] + [elem] + elems[k..];
      assert Chain() == c[..k + 1] + [elem] + c[k + 1..];
      DistinctInsert(c, k + 1, elem);
      forall i, j | 0 <= i < j < |Chain()| && j == i + 1 ensures Chain()[i].next == Chain()[j] && Chain()[j].prev == Chain()[i] {
        if j <= k { assert c[i].next == c[j]; } else if i > k + 1 { assert c[i - 1].next == c[j - 1]; }
      }
    }

    method Push(elem: Node)
      requires Valid() && elem !in Chain()
      modifies `elems, elem, NodeAt(1)`prev, head`next
      ensures Valid() && elems == [elem] + old(elems)
    {
      assert head == Chain()[0] && head.next == Chain()[1];
      InsertBefore(head.next, elem, 0);
      assert old(elems)[..0] == [] && old(elems)[0..] == old(elems);
    }

    method Append(elem: Node)
      requires Valid() && elem !in Chain()
      modifies `elems, elem, tail`prev, NodeAt(|elems|)`next
      ensures Valid() && elems == old(elems) + [elem]
    {
      InsertBefore(tail, elem, |elems|);
      assert old(elems)[..|old(elems)|] == old(elems) && old(elems)[|old(elems)|..] == [];
    }

    /** Unlink node k; its own links keep their values. */
    method Remove(elem: Node, ghost k: nat)
      requires Valid() && k < |elems| && elem == elems[k]
      modifies `elems, NodeAt(k)`next, NodeAt(k + 2)`prev
      ensures elems == old(elems[..k] + elems[k + 1..]) && elem !in Chain()
      ensures Valid()
    {
      ghost var c := Chain();
      assert c[k + 1] == elem && c[k].next == c[k + 1] && c[k + 1].next == c[k + 2];
      elem.next.prev := elem.prev;
      elem.prev.next := elem.next;
      elems := elems[..k] + elems[k + 1..];
      assert Chain() == c[..k + 1] + c[k + 2..];
      DistinctRemove(c, k + 1);
      forall i, j | 0 <= i < j < |Chain()| && j == i + 1 ensures Chain()[i].next == Chain()[j] && Chain()[j].prev == Chain()[i] {
        if j <= k { assert c[i].next == c[j]; } else if i > k { assert c[i + 1].next == c[j + 1]; }
      }
    }

    method Pop() returns (elem: Node)
      requires Valid() && elems != []
      modifies `elems, head`next, NodeAt(2)`prev
      ensures Valid() && [elem] + elems == old(elems) && elem !in Chain()
    {
      assert head == Chain()[0] && head.next == Chain()[1];
      elem := head.next;
      Remove(elem, 0);
    }

    method ElemFind(obj: Node) returns (found: bool)
      requires Valid()
      ensures found <==> obj in elems
    {
      ghost var i := 0;
      var elem := head.next;
      assert head == Chain()[0] && elem == Chain()[1];
      while elem != tail
        invariant i <= |elems| && elem == Chain()[i + 1]
        invariant obj !in elems[..i]
        decreases |elems| - i
      {
        assert i < |elems|;
        if elem == obj { return true; }
        assert elem.next == Chain()[i + 2];
        elem := elem.next;
        i := i + 1;
      }
      assert Chain()[i + 1] == Chain()[|elems| + 1];
      return false;
    }

    /** The count is a 32-bit one. */
    method Len() returns (length: nat)
      requires Valid()
      ensures length == |elems| % U32
    {
      ghost var i := 0;
      var elem := head.next;
      assert head == Chain()[0] && elem == Chain()[1];
      length := 0;
      while elem != tail
        invariant i <= |elems| && elem == Chain()[i + 1] && length == i % U32
        decreases |elems| - i
      {
        assert i < |elems|;
        length := (length + 1) % U32;
        assert elem.next == Chain()[i + 2];
        elem := elem.next;
        i := i + 1;
      }
      assert Chain()[i + 1] == Chain()[|elems| + 1];
    }

    predicate IsEmpty()
      requires Valid()
      reads this, head, tail, Chain()
      ensures IsEmpty() <==> elems == []
    {
      assert head == Chain()[0] && head.next == Chain()[1];
      assert elems != [] ==> Chain()[1] != Chain()[|elems| + 1];
      head.next == tail
    }
  }

  lemma EmptyIsValid(l: List)
    requires l.elems == [] && l.head != l.tail
    requires l.head.prev == null && l.head.next == l.tail && l.tail.prev == l.head && l.tail.next == null
    ensures l.Valid()
  {
  }

  ghost predicate Apart(a: List, b: List)
    reads a, b
  {
    a != b && forall n | n in a.Chain() :: n !in b.Chain()
  }

  /** A list none of whose nodes changed is as it was. */
  twostate lemma StillValid(l: List)
    requires old(l.Valid()) && l.elems == old(l.elems)
    requires forall n | n in old(l.Chain()) :: n.prev == old(n.prev) && n.next == old(n.next)
    ensures l.Valid()
  {
    assert l.Chain() == old(l.Chain());
  }
}
