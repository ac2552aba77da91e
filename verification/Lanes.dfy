/**
 A lane: the sorted tree, the FIFO and the next request of one direction
 (anticipatory) or of one process (CFQ), and how the next request is chosen.
 */
module Lanes {
  import opened RbTree

  /** sort_list, fifo_list and next_rq. */
  datatype Lane = Lane(sort: seq<Node>, fifo: seq<nat>, next: Ref)

  type Chooser = (Node, Node) -> Node

  // ---------------------------------------------------------------- choosing a request

  /** The head position, how far back a seek may go, and what it costs. */
  datatype Seek = Seek(last: nat, backMax: nat, penalty: nat)

  /** Behind the head and too far for a backward seek. */
  predicate Wraps(k: Seek, pos: nat) { pos < k.last && pos + k.backMax < k.last }

  function Distance(k: Seek, pos: nat): nat { if pos >= k.last then pos - k.last else (k.last - pos) * k.penalty }

  /** The comparison as_choose_req and cfq_choose_req share. */
  function SeekChoice(k: Seek, a: Node, b: Node): Node {
    if a == b then b
    else if !Wraps(k, a.pos) && Wraps(k, b.pos) then a
    else if !Wraps(k, b.pos) && Wraps(k, a.pos) then b
    else if Wraps(k, a.pos) && Wraps(k, b.pos) then (if a.pos <= b.pos then a else b)
    else if Distance(k, a.pos) < Distance(k, b.pos) then a
    else if Distance(k, b.pos) < Distance(k, a.pos) then b
    else if a.pos >= b.pos then a else b
  }

  /** The preference it implements: without wrapping first, then by cost; ties
      go forward. */
  predicate NoWorse(k: Seek, a: Node, b: Node) {
    if Wraps(k, a.pos) != Wraps(k, b.pos) then !Wraps(k, a.pos)
    else if Wraps(k, a.pos) then a.pos <= b.pos
    else Distance(k, a.pos) < Distance(k, b.pos) || (Distance(k, a.pos) == Distance(k, b.pos) && a.pos >= b.pos)
  }

  /** The choice is the better one, whatever the order of the arguments. */
  lemma {:induction false} SeekChoiceIsBest(k: Seek, a: Node, b: Node)
    ensures var c := SeekChoice(k, a, b); (c == a || c == b) && NoWorse(k, c, a) && NoWorse(k, c, b)
    ensures a.pos != b.pos ==> SeekChoice(k, a, b) == SeekChoice(k, b, a)
  {
  }

  /** And it is transitive, so the cached next request can be compared step by step. */
  lemma {:induction false} NoWorseTransitive(k: Seek, a: Node, b: Node, c: Node)
    requires NoWorse(k, a, b) && NoWorse(k, b, c)
    ensures NoWorse(k, a, c)
  {
  }

  /** A chooser returns one of its arguments. */
  ghost predicate Picks(f: Chooser) { forall a, b :: f(a, b) == a || f(a, b) == b }

  function ChooseRef(t: seq<Node>, a: Ref, b: Ref, f: Chooser): Ref
    requires (a == Null || a.id in TreeIds(t)) && (b == Null || b.id in TreeIds(t))
  {
    if a == Null then b
    else if b == Null then a
    else To(f(t[NodeAt(t, a.id)], t[NodeAt(t, b.id)]).id)
  }

  /** as_find_next_rq and cfq_find_next_rq: the neighbours in the tree, the far
      end wrapping to the start. */
  function FindNext(t: seq<Node>, id: nat, f: Chooser): Ref
    requires id in TreeIds(t)
  {
    var i := NodeAt(t, id);
    var prev := if i > 0 then To(t[i - 1].id) else Null;
    var next := if i + 1 < |t| then To(t[i + 1].id) else if i > 0 then To(t[0].id) else Null;
    ChooseRef(t, next, prev, f)
  }

  // ---------------------------------------------------------------- operations

  function FifoSet(f: seq<nat>): set<nat> { set x | x in f }

  function Index(f: seq<nat>, id: nat): (i: nat)
    requires id in f
    ensures i < |f| && f[i] == id
  {
    if f[0] == id then 0 else 1 + Index(f[1..], id)
  }

  predicate Queued(l: Lane, id: nat) { id in TreeIds(l.sort) && id in l.fifo }

  /** as_remove_queued_request and cfq_remove_request. */
  function RemoveQueued(l: Lane, id: nat, f: Chooser): Lane
    requires Queued(l, id)
  {
    Lane(Without(l.sort, NodeAt(l.sort, id)), Without(l.fifo, Index(l.fifo, id)),
         if l.next == To(id) then FindNext(l.sort, id, f) else l.next)
  }

  /** A new request at a free position, compared with the cached next one. */
  function AddQueued(l: Lane, n: Node, f: Chooser): Lane
    requires l.next == Null || l.next.id in TreeIds(l.sort)
  {
    var best := if l.next == Null then n else f(n, l.sort[NodeAt(l.sort, l.next.id)]);
    Lane(Insert(l.sort, n), l.fifo + [n.id], To(best.id))
  }

  /** next merged into req: next leaves, and may leave its place in the FIFO to req. */
  function MergeQueued(l: Lane, req: nat, next: nat, earlier: bool, f: Chooser): Lane
    requires Queued(l, req) && Queued(l, next) && req != next
  {
    var i, j := Index(l.fifo, req), Index(l.fifo, next);
    var g := if earlier then l.fifo[i := next][j := req] else l.fifo;
    assert next in g by { assert g[if earlier then i else j] == next; }
    RemoveQueued(l.(fifo := g), next, f)
  }

  // ---------------------------------------------------------------- the invariant of a lane

  predicate DistinctIds(f: seq<nat>) { forall i, j :: 0 <= i < j < |f| ==> f[i] != f[j] }

  /** Tree and FIFO hold the same requests, and next is null or one of them. */
  predicate LaneFit(l: Lane) {
    && Ascending(l.sort) && DistinctNodes(l.sort) && DistinctIds(l.fifo) && TreeIds(l.sort) == FifoSet(l.fifo)
    && (l.next != Null ==> l.next.id in TreeIds(l.sort))
  }

  /** And next is null only when there is none. */
  predicate LaneOk(l: Lane) { LaneFit(l) && (l.next == Null ==> l.sort == []) }

  lemma {:induction false} WithoutId(f: seq<nat>, i: nat)
    requires DistinctIds(f) && i < |f|
    ensures DistinctIds(Without(f, i)) && FifoSet(Without(f, i)) == FifoSet(f) - {f[i]}
  {
  }

  /** The next request is another one, and there is one unless id is alone. */
  lemma {:induction false} FindNextOk(t: seq<Node>, id: nat, f: Chooser)
    requires DistinctNodes(t) && id in TreeIds(t) && Picks(f)
    ensures var r := FindNext(t, id, f); (r == Null <==> |t| == 1) && (r != Null ==> r.id in TreeIds(t) && r.id != id)
  {
  }

  // ---------------------------------------------------------------- the next request is the best one

  lemma {:induction false} MulMono(a: nat, b: nat, c: nat)
    requires a <= b
    ensures a * c <= b * c
  {
  }

  /** Behind the head, the nearer one is no worse unless both wrap. */
  lemma {:induction false} NearerBehind(k: Seek, a: Node, b: Node)
    requires b.pos <= a.pos < k.last && !Wraps(k, a.pos)
    ensures NoWorse(k, a, b)
  {
    MulMono(k.last - a.pos, k.last - b.pos, k.penalty);
  }

  /** The candidates of FindNext beat everything on their own side. */
  lemma {:induction false} SideBest(k: Seek, t: seq<Node>, i: nat, j: nat)
    requires Ascending(t) && i < |t| && j < |t| && j != i
    requires t[i].pos <= k.last && (i + 1 < |t| ==> k.last <= t[i + 1].pos)
    ensures j > i ==> NoWorse(k, t[i + 1], t[j])
    ensures j < i && !Wraps(k, t[i - 1].pos) ==> NoWorse(k, t[i - 1], t[j])
    ensures j < i && Wraps(k, t[i - 1].pos) ==> NoWorse(k, if i + 1 < |t| then t[i + 1] else t[0], t[j])
  {
    if j < i {
      assert t[j].pos <= t[i - 1].pos < t[i].pos;
      if !Wraps(k, t[i - 1].pos) { NearerBehind(k, t[i - 1], t[j]); }
    }
  }

  /** When no request starts inside the one just dispatched, which ends where
      the head is now, the neighbours are enough: what as_find_next_rq and
      cfq_find_next_rq return is no worse than any other request of the tree. */
  lemma {:induction false} FindNextIsBest(k: Seek, t: seq<Node>, id: nat, j: nat)
    requires Ascending(t) && DistinctNodes(t) && id in TreeIds(t) && j < |t| && t[j].id != id
    requires var i := NodeAt(t, id); t[i].pos <= k.last && (i + 1 < |t| ==> k.last <= t[i + 1].pos)
    ensures var r := FindNext(t, id, (a: Node, b: Node) => SeekChoice(k, a, b));
            r != Null && r.id in TreeIds(t) && NoWorse(k, t[NodeAt(t, r.id)], t[j])
  {
    hide Wraps, Distance, SeekChoice, NoWorse;
    var i := NodeAt(t, id);
    SideBest(k, t, i, j);
    var next := if i + 1 < |t| then t[i + 1] else t[0];
    AtItself(t, if i + 1 < |t| then i + 1 else 0);
    if i > 0 {
      var prev := t[i - 1];
      AtItself(t, i - 1);
      var c := SeekChoice(k, next, prev);
      SeekChoiceIsBest(k, next, prev);
      if j > i || Wraps(k, prev.pos) {
        NoWorseTransitive(k, c, next, t[j]);
      } else {
        NoWorseTransitive(k, c, prev, t[j]);
      }
    }
  }

  lemma {:induction false} AtItself(t: seq<Node>, i: nat)
    requires DistinctNodes(t) && i < |t|
    ensures t[i].id in TreeIds(t) && NodeAt(t, t[i].id) == i
  {
    assert t[i] in t;
    var k := NodeAt(t, t[i].id);
    assert t[k].id == t[i].id;
  }

  /** If next is another request, id is not alone. */
  lemma {:induction false} AloneOrNot(l: Lane, id: nat)
    requires LaneOk(l) && id in TreeIds(l.sort)
    ensures l.next != To(id) ==> |l.sort| > 1
    ensures l.sort != [] && l.next != Null
  {
  }

  lemma {:induction false} RemoveQueuedOk(l: Lane, id: nat, f: Chooser)
    requires LaneFit(l) && id in TreeIds(l.sort) && Picks(f)
    ensures Queued(l, id) && LaneFit(RemoveQueued(l, id, f)) && (LaneOk(l) ==> LaneOk(RemoveQueued(l, id, f)))
    ensures TreeIds(RemoveQueued(l, id, f).sort) == TreeIds(l.sort) - {id}
  {
    assert id in FifoSet(l.fifo);
    WithoutNode(l.sort, NodeAt(l.sort, id));
    WithoutId(l.fifo, Index(l.fifo, id));
    FindNextOk(l.sort, id, f);
    if LaneOk(l) { AloneOrNot(l, id); }
  }

  lemma {:induction false} AddQueuedOk(l: Lane, n: Node, f: Chooser)
    requires LaneFit(l) && !Taken(l.sort, n.pos) && n.id !in TreeIds(l.sort) && Picks(f)
    ensures LaneOk(AddQueued(l, n, f)) && TreeIds(AddQueued(l, n, f).sort) == TreeIds(l.sort) + {n.id}
  {
    InsertOk(l.sort, n);
    assert FifoSet(l.fifo + [n.id]) == FifoSet(l.fifo) + {n.id};
    assert n.id !in FifoSet(l.fifo);
  }

  lemma {:induction false} SwapIds(f: seq<nat>, i: nat, j: nat)
    requires DistinctIds(f) && i < |f| && j < |f| && i != j
    ensures DistinctIds(f[i := f[j]][j := f[i]]) && FifoSet(f[i := f[j]][j := f[i]]) == FifoSet(f)
  {
    var g := f[i := f[j]][j := f[i]];
    forall x | x in FifoSet(f) ensures x in FifoSet(g) {
      var k :| 0 <= k < |f| && f[k] == x;
      assert g[if k == i then j else if k == j then i else k] == x;
    }
  }

  lemma {:induction false} MergeQueuedOk(l: Lane, req: nat, next: nat, earlier: bool, f: Chooser)
    requires LaneFit(l) && Queued(l, req) && Queued(l, next) && req != next && Picks(f)
    ensures var m := MergeQueued(l, req, next, earlier, f);
            LaneFit(m) && (LaneOk(l) ==> LaneOk(m)) && TreeIds(m.sort) == TreeIds(l.sort) - {next}
  {
    var i, j := Index(l.fifo, req), Index(l.fifo, next);
    SwapIds(l.fifo, i, j);
    var l1 := l.(fifo := if earlier then l.fifo[i := next][j := req] else l.fifo);
    assert LaneFit(l1);
    RemoveQueuedOk(l1, next, f);
  }

  lemma {:induction false} NextInLane(l: Lane)
    requires LaneFit(l)
    ensures l.next == Null || l.next.id in TreeIds(l.sort)
  {
  }

  /** What a lane in order offers to a dispatch call. */
  lemma {:induction false} LaneOffers(l: Lane)
    requires LaneFit(l)
    ensures (l.fifo == [] <==> l.sort == []) && (LaneOk(l) ==> (l.fifo == [] <==> l.next == Null))
    ensures l.next != Null ==> Queued(l, l.next.id)
    ensures forall x :: x in l.fifo ==> x in TreeIds(l.sort) && Queued(l, x)
  {
    assert forall x :: x in l.fifo <==> x in FifoSet(l.fifo);
    if l.sort != [] {
      assert l.sort[0] in l.sort && l.sort[0].id in TreeIds(l.sort);
    }
    if l.fifo != [] {
      assert l.fifo[0] in FifoSet(l.fifo);
    }
  }
}
