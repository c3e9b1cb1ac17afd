/**
 The ready list and the waiter lists of the locks, made of the threads' general_tag nodes.  There is
 one node per thread, so a thread can be in one of these lists at a time; inserting a node that is
 still linked elsewhere would damage both lists.
 */
module ThreadLists {
  import opened KernelState
  import opened IntrusiveList

  datatype Name = ReadyList | WaitersOf(l: LockId)

  datatype ListOp = AppendOp | PushOp | PopOp

  /** What an operation does to a sequence. */
  function Result<T>(op: ListOp, xs: seq<T>, x: T): seq<T>
    requires op == PopOp ==> xs != []
  {
    match op
    case AppendOp => xs + [x]
    case PushOp => [x] + xs
    case PopOp => xs[1..]
  }

  // ---------- which nodes are where ----------

  /** Each thread has its own tag. */
  ghost predicate TagsOk(tags: map<Tid, Node>, owner: map<Node, Tid>, nodes: set<Node>) {
    && (forall t | t in tags :: tags[t] in owner && owner[tags[t]] == t)
    && (forall n | n in owner :: n in nodes && owner[n] in tags && tags[owner[n]] == n)
  }

  /** The sentinels of a list are not tags, and its elements are. */
  ghost predicate ListOk(l: List, es: seq<Node>, owner: map<Node, Tid>, nodes: set<Node>) {
    && l.head in nodes && l.tail in nodes && l.head !in owner && l.tail !in owner
    && (forall n | n in es :: n in owner)
  }

  /** Two lists have no node in common. */
  ghost predicate Disjoint(l: List, es: seq<Node>, k: List, fs: seq<Node>) {
    && l != k && l.head != k.head && l.head != k.tail && l.tail != k.head && l.tail != k.tail
    && (forall n | n in es :: n !in fs)
  }

  ghost predicate Shape(lists: map<Name, List>, elems: map<Name, seq<Node>>, owner: map<Node, Tid>, nodes: set<Node>) {
    && lists.Keys == elems.Keys
    && (forall a | a in lists :: ListOk(lists[a], elems[a], owner, nodes))
    && (forall a, b | a in lists && b in lists && a != b :: Disjoint(lists[a], elems[a], lists[b], elems[b]))
  }

  lemma ShapeUpdate(lists: map<Name, List>, elems: map<Name, seq<Node>>, owner: map<Node, Tid>, nodes: set<Node>, a: Name, es: seq<Node>, n: Node)
    requires Shape(lists, elems, owner, nodes) && a in lists && n in owner
    requires forall x | x in es :: x in elems[a] || x == n
    requires forall b | b in lists && b != a :: n !in elems[b]
    ensures Shape(lists, elems[a := es], owner, nodes)
  {
    forall b, c | b in lists && c in lists && b != c ensures Disjoint(lists[b], elems[a := es][b], lists[c], elems[a := es][c]) {
      assert Disjoint(lists[b], elems[b], lists[c], elems[c]) && Disjoint(lists[c], elems[c], lists[b], elems[b]);
    }
  }

  /** The threads that nodes belong to. */
  ghost function TidsOf(ns: seq<Node>, owner: map<Node, Tid>): (ts: seq<Tid>)
    requires forall n | n in ns :: n in owner
    ensures |ts| == |ns| && forall i | 0 <= i < |ns| :: ts[i] == owner[ns[i]]
  {
    seq(|ns|, i requires 0 <= i < |ns| => owner[ns[i]])
  }

  ghost function ContentsOf(lists: map<Name, List>, elems: map<Name, seq<Node>>, owner: map<Node, Tid>, nodes: set<Node>): map<Name, seq<Tid>>
    requires Shape(lists, elems, owner, nodes)
  {
    map a | a in lists :: assert ListOk(lists[a], elems[a], owner, nodes); TidsOf(elems[a], owner)
  }

  lemma TagInList(es: seq<Node>, tags: map<Tid, Node>, owner: map<Node, Tid>, nodes: set<Node>, t: Tid)
    requires TagsOk(tags, owner, nodes) && t in tags && forall n | n in es :: n in owner
    ensures tags[t] in es <==> t in TidsOf(es, owner)
  {
    var ts := TidsOf(es, owner);
    if t in ts {
      var i :| 0 <= i < |ts| && ts[i] == t;
      assert es[i] in es;
    }
    if tags[t] in es {
      var i :| 0 <= i < |es| && es[i] == tags[t];
      assert ts[i] == t;
    }
  }

  lemma TidsOfResult(op: ListOp, es: seq<Node>, n: Node, owner: map<Node, Tid>)
    requires (forall x | x in es :: x in owner) && n in owner && (op == PopOp ==> es != [])
    ensures forall x | x in Result(op, es, n) :: x in owner
    ensures op == PopOp ==> TidsOf(es, owner) != []
    ensures TidsOf(Result(op, es, n), owner) == Result(op, TidsOf(es, owner), owner[n])
  {
    match op {
      case AppendOp => assert TidsOf(es + [n], owner) == TidsOf(es, owner) + [owner[n]];
      case PushOp => assert TidsOf([n] + es, owner) == [owner[n]] + TidsOf(es, owner);
      case PopOp => assert TidsOf(es[1..], owner) == TidsOf(es, owner)[1..];
    }
  }

  // ---------- the lists ----------

  class TagLists {
    var lists: map<Name, List>
    var tags: map<Tid, Node>          // the general_tag of a thread
    var owner: map<Node, Tid>         // and back, as elem2entry computes it
    ghost var nodes: set<Node>        // all tags and sentinels

    ghost function Elems(): map<Name, seq<Node>>
      reads this, lists.Values
    {
      map a | a in lists :: lists[a].elems
    }

    ghost predicate Laid()
      reads this, lists.Values
    {
      TagsOk(tags, owner, nodes) && Shape(lists, Elems(), owner, nodes)
    }

    lemma ChainInside(a: Name)
      requires Laid() && a in lists
      ensures forall n | n in lists[a].Chain() :: n in nodes
    {
      assert ListOk(lists[a], Elems()[a], owner, nodes);
    }

    /** All lists are well linked, and no two of them share a node. */
    ghost predicate Valid()
      reads this, lists.Values, nodes
    {
      Laid() && forall a | a in lists :: (ChainInside(a); lists[a].Valid())
    }

    /** The threads in each list, in order. */
    ghost function Contents(): map<Name, seq<Tid>>
      requires Valid()
      reads this, lists.Values, nodes
    {
      ContentsOf(lists, Elems(), owner, nodes)
    }

    lemma ContentsKeys()
      requires Valid()
      ensures Contents().Keys == lists.Keys
    {
    }

    lemma ContentsTagged(a: Name)
      requires Valid() && a in lists
      ensures forall t | t in Contents()[a] :: t in tags
    {
      assert ListOk(lists[a], Elems()[a], owner, nodes);
      forall i | 0 <= i < |Contents()[a]| ensures Contents()[a][i] in tags { assert lists[a].elems[i] in owner; }
    }

    /** The thread has a tag and it is in no list. */
    ghost predicate Free(t: Tid)
      requires Valid()
      reads this, lists.Values, nodes
    {
      t in tags && forall a | a in lists :: t !in Contents()[a]
    }

    lemma FreeTag(t: Tid, a: Name)
      requires Valid() && t in tags && a in lists && t !in Contents()[a]
      ensures tags[t] !in lists[a].Chain() && tags[t] !in lists[a].elems
    {
      assert ListOk(lists[a], Elems()[a], owner, nodes);
      TagInList(lists[a].elems, tags, owner, nodes, t);
    }

    lemma ChainsApart(a: Name, b: Name)
      requires Laid() && a in lists && b in lists && a != b
      ensures Apart(lists[a], lists[b])
    {
      assert Disjoint(lists[a], Elems()[a], lists[b], Elems()[b]);
      assert ListOk(lists[a], Elems()[a], owner, nodes) && ListOk(lists[b], Elems()[b], owner, nodes);
    }

    constructor ()
      ensures Valid() && fresh(nodes) && fresh(lists.Values)
      ensures lists.Keys == {ReadyList} && Contents() == map[ReadyList := []] && tags == map[]
    {
      hide List.Valid, Linked, Distinct, TidsOf;
      var l := new List();
      lists := map[ReadyList := l];
      tags, owner, nodes := map[], map[], {l.head, l.tail};
      new;
      EmptyIsValid(l);
      assert Elems() == map[ReadyList := []];
      OneEmptyList(lists, l, nodes);
    }

    /** list_init of a new lock's waiter list. */
    method AddList(a: Name)
      requires Valid() && a !in lists
      modifies this
      ensures Valid() && fresh(nodes - old(nodes)) && fresh(lists.Values - old(lists.Values))
      ensures lists.Keys == old(lists.Keys) + {a} && tags == old(tags) && Contents() == old(Contents())[a := []]
    {
      hide List.Valid, Linked, Distinct, Shape, TagsOk, ListOk, TidsOf, ContentsOf;
      var l := new List();
      ghost var es := Elems();
      lists := lists[a := l];
      nodes := nodes + {l.head, l.tail};
      assert Elems() == es[a := []];
      ShapeAdd(old(lists), es, tags, owner, old(nodes), a, l, nodes);
      forall b | b in lists ensures lists[b].Valid() {
        if b != a { StillValid(lists[b]); } else { EmptyIsValid(l); }
      }
    }

    /** A new thread gets its tag. */
    method AddThread(t: Tid)
      requires Valid() && t !in tags
      modifies this
      ensures Valid() && lists == old(lists) && fresh(nodes - old(nodes))
      ensures tags.Keys == old(tags.Keys) + {t} && Contents() == old(Contents()) && Free(t)
    {
      hide List.Valid, Linked, Distinct, Shape, TagsOk, ListOk, TidsOf, ContentsOf;
      var n := new Node();
      ghost var es := Elems();
      tags := tags[t := n];
      owner := owner[n := t];
      nodes := nodes + {n};
      assert Elems() == es;
      ShapeOwner(lists, es, old(tags), old(owner), old(nodes), t, n, owner, nodes);
      forall b | b in lists ensures lists[b].Valid() { StillValid(lists[b]); }
    }

    /** One operation on one list; the other lists have none of the nodes it touches. */
    method Apply(a: Name, op: ListOp, x: Tid) returns (t: Tid)
      requires Valid() && a in lists && (if op == PopOp then Contents()[a] != [] else Free(x))
      modifies lists.Values, nodes
      ensures Valid() && t in tags && Contents() == old(Contents())[a := Result(op, old(Contents())[a], x)]
      ensures t == if op == PopOp then old(Contents())[a][0] else x
    {
      hide List.Valid, Linked, Distinct, Shape, Disjoint, TidsOf, ContentsOf, TagsOk, ListOk, Apart;
      ghost var es := Elems();
      ghost var n := Target(a, op, x);
      t := Touch(a, op, x, n);
      assert Elems() == es[a := Result(op, es[a], n)];
      ShapeUpdate(lists, es, owner, nodes, a, Result(op, es[a], n), n);
      ResultContents(lists, es, owner, nodes, a, op, n);
    }

    /** The operation itself. */
    method Touch(a: Name, op: ListOp, x: Tid, ghost n: Node) returns (t: Tid)
      requires a in lists && lists[a].Valid() && (forall y | y in lists[a].Chain() :: y in nodes) && lists[a] in lists.Values
      requires if op == PopOp then lists[a].elems != [] && n == lists[a].elems[0] && n in owner else x in tags && n == tags[x] && n !in lists[a].Chain()
      requires n in nodes && forall b | b in lists && b != a :: lists[b].Valid() && n !in lists[b].Chain() && Apart(lists[b], lists[a])
      modifies lists.Values, nodes
      ensures lists[a].Valid() && lists[a].elems == Result(op, old(lists[a].elems), n)
      ensures forall b | b in lists && b != a :: lists[b].Valid() && lists[b].elems == old(lists[b].elems)
      ensures t == if op == PopOp then owner[n] else x
    {
      hide List.Valid, Linked, Distinct;
      var l := lists[a];
      match op {
        case AppendOp => l.Append(tags[x]); t := x;
        case PushOp => l.Push(tags[x]); t := x;
        case PopOp => var first := l.Pop(); t := owner[first];
      }
      forall b | b in lists && b != a ensures lists[b].Valid() && lists[b].elems == old(lists[b].elems) { StillValid(lists[b]); }
    }

    /** The node an operation links or unlinks: no other list has it. */
    lemma Target(a: Name, op: ListOp, x: Tid) returns (n: Node)
      requires Valid() && a in lists && (if op == PopOp then Contents()[a] != [] else Free(x))
      ensures if op == PopOp then lists[a].elems != [] && n == lists[a].elems[0] else n == tags[x] && n !in lists[a].Chain()
      ensures n in owner && n in nodes && owner[n] in tags && (op != PopOp ==> owner[n] == x)
      ensures lists[a].Valid() && forall y | y in lists[a].Chain() :: y in nodes
      ensures forall b | b in lists && b != a :: n !in lists[b].elems && n !in lists[b].Chain() && Apart(lists[b], lists[a])
      ensures forall b | b in lists :: lists[b] in lists.Values
    {
      var l := lists[a];
      ChainInside(a);
      assert ListOk(l, Elems()[a], owner, nodes);
      forall b | b in lists && b != a ensures Apart(lists[b], l) && Apart(l, lists[b]) { ChainsApart(b, a); ChainsApart(a, b); }
      if op == PopOp {
        n := l.elems[0];
        assert n == l.Chain()[1];
        forall b | b in lists && b != a ensures n !in lists[b].elems {
          assert Disjoint(l, Elems()[a], lists[b], Elems()[b]) && n in Elems()[a];
        }
      } else {
        n := tags[x];
        forall b | b in lists ensures n !in lists[b].Chain() && n !in lists[b].elems { FreeTag(x, b); }
      }
    }

    method Find(a: Name, t: Tid) returns (found: bool)
      requires Valid() && a in lists && t in tags
      ensures found <==> t in Contents()[a]
    {
      assert ListOk(lists[a], Elems()[a], owner, nodes);
      TagInList(lists[a].elems, tags, owner, nodes, t);
      found := lists[a].ElemFind(tags[t]);
    }

    method IsEmpty(a: Name) returns (empty: bool)
      requires Valid() && a in lists
      ensures empty <==> Contents()[a] == []
    {
      assert ListOk(lists[a], Elems()[a], owner, nodes);
      empty := lists[a].IsEmpty();
    }
  }

  lemma ResultContents(lists: map<Name, List>, elems: map<Name, seq<Node>>, owner: map<Node, Tid>, nodes: set<Node>, a: Name, op: ListOp, n: Node)
    requires Shape(lists, elems, owner, nodes) && a in lists && n in owner && (op == PopOp ==> elems[a] != [])
    requires Shape(lists, elems[a := Result(op, elems[a], n)], owner, nodes)
    ensures var c := ContentsOf(lists, elems, owner, nodes);
      && (op == PopOp ==> c[a] != [] && c[a][0] == owner[elems[a][0]])
      && ContentsOf(lists, elems[a := Result(op, elems[a], n)], owner, nodes) == c[a := Result(op, c[a], owner[n])]
  {
    hide Disjoint, Result, TidsOf;
    assert ListOk(lists[a], elems[a], owner, nodes);
    TidsOfResult(op, elems[a], n, owner);
    ContentsUpdate(lists, elems, owner, nodes, a, Result(op, elems[a], n));
  }

  lemma ContentsUpdate(lists: map<Name, List>, elems: map<Name, seq<Node>>, owner: map<Node, Tid>, nodes: set<Node>, a: Name, es: seq<Node>)
    requires Shape(lists, elems, owner, nodes) && a in lists && Shape(lists, elems[a := es], owner, nodes) && (forall x | x in es :: x in owner)
    ensures ContentsOf(lists, elems[a := es], owner, nodes) == ContentsOf(lists, elems, owner, nodes)[a := TidsOf(es, owner)]
    ensures (forall x | x in elems[a] :: x in owner) && ContentsOf(lists, elems, owner, nodes)[a] == TidsOf(elems[a], owner)
  {
    hide Disjoint, TidsOf, ListOk;
    ContentsAt(lists, elems, owner, nodes, a);
    forall b | b in lists ensures ContentsOf(lists, elems[a := es], owner, nodes)[b] == ContentsOf(lists, elems, owner, nodes)[a := TidsOf(es, owner)][b] {
      ContentsAt(lists, elems, owner, nodes, b);
      ContentsAt(lists, elems[a := es], owner, nodes, b);
    }
  }

  lemma ContentsAt(lists: map<Name, List>, elems: map<Name, seq<Node>>, owner: map<Node, Tid>, nodes: set<Node>, a: Name)
    requires Shape(lists, elems, owner, nodes) && a in lists
    ensures a in ContentsOf(lists, elems, owner, nodes) && forall x | x in elems[a] :: x in owner
    ensures ContentsOf(lists, elems, owner, nodes)[a] == TidsOf(elems[a], owner)
  {
    hide Disjoint, TidsOf;
    assert ListOk(lists[a], elems[a], owner, nodes);
  }

  lemma OneEmptyList(lists: map<Name, List>, l: List, nodes: set<Node>)
    requires lists == map[ReadyList := l] && nodes == {l.head, l.tail}
    ensures Shape(lists, map[ReadyList := []], map[], nodes) && TagsOk(map[], map[], nodes)
    ensures ContentsOf(lists, map[ReadyList := []], map[], nodes) == map[ReadyList := []]
  {
    assert ListOk(l, [], map[], nodes);
    assert TidsOf([], map[]) == [];
  }

  lemma ShapeAdd(lists: map<Name, List>, elems: map<Name, seq<Node>>, tags: map<Tid, Node>, owner: map<Node, Tid>, nodes: set<Node>, a: Name, l: List, nodes': set<Node>)
    requires Shape(lists, elems, owner, nodes) && TagsOk(tags, owner, nodes) && a !in lists && nodes' == nodes + {l.head, l.tail}
    requires l !in lists.Values && l.head !in nodes && l.tail !in nodes && l.head !in owner && l.tail !in owner
    ensures Shape(lists[a := l], elems[a := []], owner, nodes') && TagsOk(tags, owner, nodes')
    ensures ContentsOf(lists[a := l], elems[a := []], owner, nodes') == ContentsOf(lists, elems, owner, nodes)[a := []]
  {
    ShapeJoins(lists, elems, owner, nodes, a, l, nodes');
    hide Disjoint;
  }

  lemma ShapeJoins(lists: map<Name, List>, elems: map<Name, seq<Node>>, owner: map<Node, Tid>, nodes: set<Node>, a: Name, l: List, nodes': set<Node>)
    requires Shape(lists, elems, owner, nodes) && a !in lists && nodes' == nodes + {l.head, l.tail}
    requires l !in lists.Values && l.head !in nodes && l.tail !in nodes && l.head !in owner && l.tail !in owner
    ensures Shape(lists[a := l], elems[a := []], owner, nodes')
  {
    var ls, es := lists[a := l], elems[a := []];
    forall b | b in ls ensures ListOk(ls[b], es[b], owner, nodes') {
      if b != a { assert ListOk(lists[b], elems[b], owner, nodes); }
    }
    forall b, c | b in ls && c in ls && b != c ensures Disjoint(ls[b], es[b], ls[c], es[c]) {
      if b != a { assert ListOk(lists[b], elems[b], owner, nodes) && lists[b] in lists.Values; }
      if c != a { assert ListOk(lists[c], elems[c], owner, nodes) && lists[c] in lists.Values; }
      if b != a && c != a { assert Disjoint(lists[b], elems[b], lists[c], elems[c]); }
    }
  }

  lemma ShapeOwner(lists: map<Name, List>, elems: map<Name, seq<Node>>, tags: map<Tid, Node>, owner: map<Node, Tid>, nodes: set<Node>,
                   t: Tid, n: Node, owner': map<Node, Tid>, nodes': set<Node>)
    requires Shape(lists, elems, owner, nodes) && TagsOk(tags, owner, nodes) && t !in tags && n !in nodes
    requires owner' == owner[n := t] && nodes' == nodes + {n}
    ensures TagsOk(tags[t := n], owner', nodes') && Shape(lists, elems, owner', nodes')
    ensures ContentsOf(lists, elems, owner', nodes') == ContentsOf(lists, elems, owner, nodes)
    ensures forall a | a in lists :: t !in ContentsOf(lists, elems, owner, nodes)[a]
  {
    forall b | b in lists ensures ListOk(lists[b], elems[b], owner', nodes') && TidsOf(elems[b], owner') == TidsOf(elems[b], owner) && t !in TidsOf(elems[b], owner) {
      assert ListOk(lists[b], elems[b], owner, nodes);
    }
    forall b, c | b in lists && c in lists && b != c ensures Disjoint(lists[b], elems[b], lists[c], elems[c]) {}
  }
}
