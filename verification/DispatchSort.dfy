/** elv_dispatch_sort, and the noop scheduler that is nothing but a queue in front of it. */
module DispatchSort {

  /** A request as the dispatch list sees it; stop stands for the barrier and started flags. */
  datatype Rq = Rq(id: nat, pos: nat, write: bool, discard: bool, stop: bool)

  /** Requests of the same direction and discard flag may pass each other. */
  predicate SameKind(a: Rq, b: Rq) { a.write == b.write && a.discard == b.discard }

  /** One-way elevator order from the boundary: what lies ahead comes first. */
  predicate Less(boundary: nat, a: Rq, b: Rq) {
    if a.pos >= boundary && b.pos < boundary then true
    else if a.pos < boundary && b.pos >= boundary then false
    else a.pos < b.pos
  }

  /** The loop goes on past p. */
  predicate Passes(boundary: nat, rq: Rq, p: Rq) { SameKind(rq, p) && !p.stop && Less(boundary, rq, p) }

  /** Where the loop stops. */
  function Place(list: seq<Rq>, boundary: nat, rq: Rq): (i: nat)
    ensures i <= |list|
    ensures forall k :: i <= k < |list| ==> Passes(boundary, rq, list[k])
    ensures i > 0 ==> !Passes(boundary, rq, list[i - 1])
  {
    if list == [] || !Passes(boundary, rq, list[|list| - 1]) then |list| else Place(list[..|list| - 1], boundary, rq)
  }

  function Sorted(list: seq<Rq>, boundary: nat, rq: Rq): seq<Rq> {
    list[..Place(list, boundary, rq)] + [rq] + list[Place(list, boundary, rq)..]
  }

  // ---------------------------------------------------------------- the tail run

  /** list[t..] is a run rq may be sorted into. */
  predicate Run(list: seq<Rq>, t: nat, rq: Rq) {
    t <= |list| && forall k :: t <= k < |list| ==> SameKind(rq, list[k]) && !list[k].stop
  }

  /** In elevator order: nobody is behind somebody it should precede. */
  predicate InOrder(s: seq<Rq>, boundary: nat) { forall i, j :: 0 <= i < j < |s| ==> !Less(boundary, s[j], s[i]) }

  /** Everything in the run before the place is not to be preceded. */
  lemma {:induction false} BehindItsEquals(list: seq<Rq>, boundary: nat, rq: Rq, t: nat, k: nat)
    requires Run(list, t, rq) && InOrder(list[t..], boundary) && t <= k < Place(list, boundary, rq)
    ensures !Less(boundary, rq, list[k])
  {
  }

  /** The request is sorted into the run, behind its equals, and the rest of the
      list is left alone. */
  lemma {:induction false} SortKeepsOrder(list: seq<Rq>, boundary: nat, rq: Rq, t: nat)
    requires Run(list, t, rq) && InOrder(list[t..], boundary)
             && (t > 0 ==> !SameKind(rq, list[t - 1]) || list[t - 1].stop)
    ensures t <= Place(list, boundary, rq) && Sorted(list, boundary, rq)[..t] == list[..t]
    ensures InOrder(Sorted(list, boundary, rq)[t..], boundary)
    ensures forall k :: t <= k < Place(list, boundary, rq) ==> !Less(boundary, rq, list[k])
  {
    hide InOrder, Less, Place;
    var p, run := Place(list, boundary, rq), list[t..];
    if t > 0 {
      NeverPassesOthers(list, boundary, rq, t - 1);
    }
    forall k | t <= k < p ensures !Less(boundary, rq, list[k]) {
      BehindItsEquals(list, boundary, rq, t, k);
    }
    InsertedInside(list, rq, t, p);
    OrderedInsert(run, boundary, rq, p - t);
  }

  lemma {:induction false} InsertedInside(list: seq<Rq>, rq: Rq, t: nat, p: nat)
    requires t <= p <= |list|
    ensures (list[..p] + [rq] + list[p..])[..t] == list[..t]
    ensures (list[..p] + [rq] + list[p..])[t..] == list[t..][..p - t] + [rq] + list[t..][p - t..]
  {
  }

  lemma {:induction false} OrderedInsert(run: seq<Rq>, boundary: nat, rq: Rq, p: nat)
    requires InOrder(run, boundary) && p <= |run|
    requires forall k :: 0 <= k < p ==> !Less(boundary, rq, run[k])
    requires forall k :: p <= k < |run| ==> Less(boundary, rq, run[k])
    ensures InOrder(run[..p] + [rq] + run[p..], boundary)
  {
  }

  /** A barrier, a started request, or one of another direction or discard flag
      is never passed. */
  lemma {:induction false} NeverPassesOthers(list: seq<Rq>, boundary: nat, rq: Rq, k: nat)
    requires k < |list| && (!SameKind(rq, list[k]) || list[k].stop)
    ensures k < Place(list, boundary, rq)
  {
  }

  // ---------------------------------------------------------------- draining noop

  /** noop_dispatch until the queue is empty. */
  function Drained(queue: seq<Rq>, list: seq<Rq>, boundary: nat): seq<Rq>
    decreases |queue|
  {
    if queue == [] then list else Drained(queue[1..], Sorted(list, boundary, queue[0]), boundary)
  }

  lemma {:induction false} SortedMultiset(list: seq<Rq>, boundary: nat, rq: Rq)
    ensures multiset(Sorted(list, boundary, rq)) == multiset(list) + multiset{rq}
  {
    var p := Place(list, boundary, rq);
    assert list == list[..p] + list[p..];
  }

  /** Nothing is lost or made up. */
  lemma {:induction false} DrainedMultiset(queue: seq<Rq>, list: seq<Rq>, boundary: nat)
    ensures multiset(Drained(queue, list, boundary)) == multiset(queue) + multiset(list)
    decreases |queue|
  {
    if queue != [] {
      SortedMultiset(list, boundary, queue[0]);
      DrainedMultiset(queue[1..], Sorted(list, boundary, queue[0]), boundary);
      assert queue == [queue[0]] + queue[1..];
    }
  }

  predicate OneKind(s: seq<Rq>) { forall a, b :: a in s && b in s ==> SameKind(a, b) && !a.stop && !b.stop }

  lemma {:induction false} DrainSorts(queue: seq<Rq>, list: seq<Rq>, boundary: nat)
    requires OneKind(queue + list) && InOrder(list, boundary)
    ensures InOrder(Drained(queue, list, boundary), boundary)
    decreases |queue|
  {
    if queue != [] {
      var rq, s := queue[0], Sorted(list, boundary, queue[0]);
      assert rq in queue + list && forall x :: x in list ==> x in queue + list;
      assert list[0..] == list && s[0..] == s;
      SortKeepsOrder(list, boundary, rq, 0);
      assert forall x :: x in queue[1..] + s ==> x in queue + list;
      DrainSorts(queue[1..], s, boundary);
    }
  }

  /** Draining a noop queue of one kind into an empty dispatch list is sorting it. */
  lemma {:induction false} NoopDrainSorts(queue: seq<Rq>, boundary: nat)
    requires OneKind(queue)
    ensures InOrder(Drained(queue, [], boundary), boundary) && multiset(Drained(queue, [], boundary)) == multiset(queue)
  {
    assert queue + [] == queue;
    DrainSorts(queue, [], boundary);
    DrainedMultiset(queue, [], boundary);
  }

  // ---------------------------------------------------------------- mixed queues

  /** x stands before y. */
  predicate Precedes(s: seq<Rq>, x: Rq, y: Rq) { exists i, j :: 0 <= i < j < |s| && s[i] == x && s[j] == y }

  lemma {:induction false} SortKeepsPairs(list: seq<Rq>, boundary: nat, rq: Rq, x: Rq, y: Rq)
    requires Precedes(list, x, y)
    ensures Precedes(Sorted(list, boundary, rq), x, y)
  {
    var i, j :| 0 <= i < j < |list| && list[i] == x && list[j] == y;
    var p, s := Place(list, boundary, rq), Sorted(list, boundary, rq);
    var i1, j1 := if i < p then i else i + 1, if j < p then j else j + 1;
    assert s[i1] == x && s[j1] == y;
  }

  lemma {:induction false} SortComesAfter(list: seq<Rq>, boundary: nat, rq: Rq, x: Rq)
    requires x in list && (!SameKind(rq, x) || x.stop)
    ensures Precedes(Sorted(list, boundary, rq), x, rq)
  {
    var k :| 0 <= k < |list| && list[k] == x;
    NeverPassesOthers(list, boundary, rq, k);
    var p, s := Place(list, boundary, rq), Sorted(list, boundary, rq);
    assert s[k] == x && s[p] == rq;
  }

  lemma {:induction false} DrainKeepsPairs(queue: seq<Rq>, list: seq<Rq>, boundary: nat, x: Rq, y: Rq)
    requires Precedes(list, x, y)
    ensures Precedes(Drained(queue, list, boundary), x, y)
    decreases |queue|
  {
    if queue != [] {
      SortKeepsPairs(list, boundary, queue[0], x, y);
      DrainKeepsPairs(queue[1..], Sorted(list, boundary, queue[0]), boundary, x, y);
    }
  }

  /** What was dispatched stays in front of what may not pass it. */
  lemma {:induction false} DrainComesAfter(queue: seq<Rq>, list: seq<Rq>, boundary: nat, x: Rq, y: Rq)
    requires x in list && y in queue && (!SameKind(y, x) || x.stop)
    ensures Precedes(Drained(queue, list, boundary), x, y)
    decreases |queue|
  {
    var s := Sorted(list, boundary, queue[0]);
    if y == queue[0] {
      SortComesAfter(list, boundary, y, x);
      DrainKeepsPairs(queue[1..], s, boundary, x, y);
    } else {
      SortedMultiset(list, boundary, queue[0]);
      assert x in multiset(s);
      DrainComesAfter(queue[1..], s, boundary, x, y);
    }
  }

  /** In any queue, requests that may not pass each other leave in the order
      they came, whatever lies between them. */
  lemma {:induction false} DrainKeepsArrival(queue: seq<Rq>, list: seq<Rq>, boundary: nat, i: nat, j: nat)
    requires i < j < |queue| && (!SameKind(queue[j], queue[i]) || queue[i].stop)
    ensures Precedes(Drained(queue, list, boundary), queue[i], queue[j])
    decreases |queue|
  {
    var s := Sorted(list, boundary, queue[0]);
    if i == 0 {
      SortedMultiset(list, boundary, queue[0]);
      assert queue[0] in multiset(s);
      assert queue[j] == queue[1..][j - 1];
      DrainComesAfter(queue[1..], s, boundary, queue[0], queue[j]);
    } else {
      DrainKeepsArrival(queue[1..], s, boundary, i - 1, j - 1);
    }
  }

  // ---------------------------------------------------------------- the code

  lemma {:induction false} PlaceStep(list: seq<Rq>, boundary: nat, rq: Rq, i: nat)
    requires 0 < i <= |list|
    ensures Place(list[..i], boundary, rq) ==
              if Passes(boundary, rq, list[i - 1]) then Place(list[..i - 1], boundary, rq) else i
  {
  }

  lemma {:induction false} PlaceOfNone(boundary: nat, rq: Rq)
    ensures Place([], boundary, rq) == 0
  {
  }

  class Noop {
    var queue: seq<Rq>
    var dispatch: seq<Rq>
    var endSector: nat
    var nrSorted: int

    constructor ()
      ensures queue == [] && dispatch == [] && endSector == 0 && nrSorted == 0
    {
      queue, dispatch, endSector, nrSorted := [], [], 0, 0;
    }

    /** noop_add_request, with the count elv_insert keeps. */
    method Add(rq: Rq)
      modifies this`queue, this`nrSorted
      ensures queue == old(queue) + [rq] && nrSorted == old(nrSorted) + 1
    {
      queue := queue + [rq];
      nrSorted := nrSorted + 1;
    }

    /** elv_dispatch_sort. */
    method Sort(rq: Rq)
      modifies this`dispatch, this`nrSorted
      ensures dispatch == Sorted(old(dispatch), endSector, rq) && nrSorted == old(nrSorted) - 1
    {
      hide Place;
      nrSorted := nrSorted - 1;
      var list, boundary, i := dispatch, endSector, |dispatch|;
      assert list[..i] == list;
      PlaceOfNone(boundary, rq);
      while i > 0
        invariant 0 <= i <= |list| && Place(list, boundary, rq) == Place(list[..i], boundary, rq)
        invariant dispatch == list && nrSorted == old(nrSorted) - 1
      {
        var pos := list[i - 1];
        PlaceStep(list, boundary, rq, i);
        if rq.discard != pos.discard || rq.write != pos.write || pos.stop {
          break;
        }
        if rq.pos >= boundary {
          if pos.pos < boundary {
            i := i - 1;
            continue;
          }
        } else {
          if pos.pos >= boundary {
            break;
          }
        }
        if rq.pos >= pos.pos {
          break;
        }
        i := i - 1;
      }
      assert list[..0] == [];
      dispatch := list[..i] + [rq] + list[i..];
    }

    /** noop_dispatch. */
    method Dispatch() returns (n: nat)
      modifies this
      ensures endSector == old(endSector)
      ensures if old(queue) == [] then n == 0 && queue == [] && dispatch == old(dispatch) && nrSorted == old(nrSorted)
              else
                && n == 1 && queue == old(queue)[1..] && nrSorted == old(nrSorted) - 1
                && dispatch == Sorted(old(dispatch), endSector, old(queue)[0])
    {
      if queue == [] {
        return 0;
      }
      var rq := queue[0];
      queue := queue[1..];
      Sort(rq);
      n := 1;
    }

    /** elv_drain_elevator over noop. */
    method Drain()
      requires nrSorted == |queue|
      modifies this
      ensures queue == [] && nrSorted == 0 && endSector == old(endSector)
      ensures dispatch == Drained(old(queue), old(dispatch), endSector)
    {
      var n := 1;
      while n != 0
        invariant nrSorted == |queue| && endSector == old(endSector) && (n == 0 ==> queue == [])
        invariant Drained(queue, dispatch, endSector) == Drained(old(queue), old(dispatch), endSector)
        decreases |queue|, n
      {
        n := Dispatch();
      }
    }
  }
}
