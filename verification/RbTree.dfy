/**
 What the schedulers share: two directions, request pointers, and the
 sector-sorted tree of elevator.c as its nodes in ascending position.
 */
module RbTree {

  datatype Dir = Read | Write

  datatype Node = Node(id: nat, pos: nat)

  /** A request pointer that may be null. */
  datatype Ref = Null | To(id: nat)

  datatype Pair<T> = Pair(read: T, write: T) {
    function At(d: Dir): T { if d == Read then read else write }

    function Put(d: Dir, x: T): Pair<T> { if d == Read then this.(read := x) else this.(write := x) }
  }

  function Other(d: Dir): Dir { if d == Read then Write else Read }

  function TreeIds(t: seq<Node>): set<nat> { set n | n in t :: n.id }

  predicate Ascending(t: seq<Node>) { forall i, j :: 0 <= i < j < |t| ==> t[i].pos < t[j].pos }

  predicate DistinctNodes(t: seq<Node>) { forall i, j :: 0 <= i < j < |t| ==> t[i].id != t[j].id }

  /** Where a request is. */
  function NodeAt(t: seq<Node>, id: nat): (i: nat)
    requires id in TreeIds(t)
    ensures i < |t| && t[i].id == id
  {
    if t[0].id == id then 0 else 1 + NodeAt(t[1..], id)
  }

  /** rb_next. */
  function Latter(t: seq<Node>, id: nat): Ref
    requires id in TreeIds(t)
  {
    var i := NodeAt(t, id);
    if i + 1 < |t| then To(t[i + 1].id) else Null
  }

  function Without<T>(s: seq<T>, i: nat): seq<T>
    requires i < |s|
  {
    s[..i] + s[i + 1..]
  }

  /** The first index whose position is at least pos. */
  function Place(t: seq<Node>, pos: nat): (i: nat)
    ensures i <= |t| && (forall k :: 0 <= k < i ==> t[k].pos < pos) && (i < |t| ==> t[i].pos >= pos)
  {
    if t == [] || t[0].pos >= pos then 0 else 1 + Place(t[1..], pos)
  }

  predicate Taken(t: seq<Node>, pos: nat) { Place(t, pos) < |t| && t[Place(t, pos)].pos == pos }

  function Insert(t: seq<Node>, n: Node): seq<Node> { t[..Place(t, n.pos)] + [n] + t[Place(t, n.pos)..] }

  // ---------------------------------------------------------------- laws

  lemma {:induction false} WithoutNodeIds(t: seq<Node>, i: nat)
    requires DistinctNodes(t) && i < |t|
    ensures TreeIds(Without(t, i)) == TreeIds(t) - {t[i].id}
  {
  }

  lemma {:induction false} WithoutNode(t: seq<Node>, i: nat)
    requires Ascending(t) && DistinctNodes(t) && i < |t|
    ensures Ascending(Without(t, i)) && DistinctNodes(Without(t, i)) && TreeIds(Without(t, i)) == TreeIds(t) - {t[i].id}
  {
  }

  /** The request behind another one is a different one. */
  lemma {:induction false} LatterIsOther(t: seq<Node>, id: nat)
    requires DistinctNodes(t) && id in TreeIds(t)
    ensures Latter(t, id) == Null || (Latter(t, id).id in TreeIds(t) && Latter(t, id).id != id)
  {
  }

  lemma {:induction false} InsertIds(t: seq<Node>, n: Node)
    ensures TreeIds(Insert(t, n)) == TreeIds(t) + {n.id}
  {
  }

  lemma {:induction false} InsertAscends(t: seq<Node>, n: Node)
    requires Ascending(t) && !Taken(t, n.pos)
    ensures Ascending(Insert(t, n))
  {
  }

  lemma {:induction false} InsertDistinct(t: seq<Node>, n: Node)
    requires DistinctNodes(t) && n.id !in TreeIds(t)
    ensures DistinctNodes(Insert(t, n))
  {
  }

  lemma {:induction false} InsertOk(t: seq<Node>, n: Node)
    requires Ascending(t) && DistinctNodes(t) && !Taken(t, n.pos) && n.id !in TreeIds(t)
    ensures Ascending(Insert(t, n)) && DistinctNodes(Insert(t, n)) && TreeIds(Insert(t, n)) == TreeIds(t) + {n.id}
  {
    InsertIds(t, n);
    InsertAscends(t, n);
    InsertDistinct(t, n);
  }

  /** With a request moved away its position is free. */
  lemma {:induction false} FreedPlace(t: seq<Node>, pos: nat)
    requires Ascending(t) && DistinctNodes(t) && Taken(t, pos)
    ensures var w := Without(t, NodeAt(t, t[Place(t, pos)].id)); !Taken(w, pos)
  {
  }
}
