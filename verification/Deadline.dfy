/**
 The deadline scheduler: two sector-sorted trees, two FIFOs, a batch and a
 starvation counter.

 Requests are known by number.  A tree is its nodes in ascending position; a
 FIFO is its entries in list order, each with its expiry time.
 */
module Deadline {
  import opened RbTree

  datatype Timed = Timed(id: nat, expire: nat)

  datatype Tunables = Tunables(expire: Pair<nat>, fifoBatch: nat, writesStarved: nat)

  /** One direction: sort_list, fifo_list and next_rq. */
  datatype Side = Side(sort: seq<Node>, fifo: seq<Timed>, next: Ref)

  /** deadline_data, with the dispatch list and the elevator's request count. */
  datatype State = State(side: Pair<Side>, batching: nat, starved: nat, now: nat, dispatched: seq<nat>, nrSorted: int)

  // ---------------------------------------------------------------- trees and lists

  function FifoIds(f: seq<Timed>): set<nat> { set e | e in f :: e.id }

  predicate DistinctEntries(f: seq<Timed>) { forall i, j :: 0 <= i < j < |f| ==> f[i].id != f[j].id }

  predicate ByExpiry(f: seq<Timed>) { forall i, j :: 0 <= i < j < |f| ==> f[i].expire <= f[j].expire }

  function EntryAt(f: seq<Timed>, id: nat): (i: nat)
    requires id in FifoIds(f)
    ensures i < |f| && f[i].id == id
  {
    if f[0].id == id then 0 else 1 + EntryAt(f[1..], id)
  }

  // ---------------------------------------------------------------- the handlers

  predicate Has(s: Side, id: nat) { id in TreeIds(s.sort) && id in FifoIds(s.fifo) }

  /** deadline_del_rq_rb. */
  function DelFromTree(s: Side, id: nat): Side
    requires id in TreeIds(s.sort)
  {
    s.(next := if s.next == To(id) then Latter(s.sort, id) else s.next, sort := Without(s.sort, NodeAt(s.sort, id)))
  }

  /** deadline_remove_request: off the tree and the FIFO. */
  function RemoveRequest(s: Side, id: nat): Side
    requires Has(s, id)
  {
    DelFromTree(s, id).(fifo := Without(s.fifo, EntryAt(s.fifo, id)))
  }

  function NoNext(s: Side): Side { s.(next := Null) }

  /** deadline_move_request: to the tail of the dispatch list; the next request
      of a batch is the one behind it. */
  function MoveRequest(st: State, d: Dir, id: nat): State
    requires Has(st.side.At(d), id)
  {
    var s := st.side.At(d);
    var all := Pair(NoNext(st.side.read), NoNext(st.side.write));
    st.(side := all.Put(d, RemoveRequest(s.(next := Latter(s.sort, id)), id)),
        dispatched := st.dispatched + [id], nrSorted := st.nrSorted - 1)
  }

  function PutSide(st: State, d: Dir, s: Side): State { st.(side := st.side.Put(d, s)) }

  /** deadline_add_rq_rb: a request already at that position is moved out of the way. */
  function AddToTree(st: State, d: Dir, n: Node): State
    requires TreeIds(st.side.At(d).sort) <= FifoIds(st.side.At(d).fifo)
  {
    var t := st.side.At(d).sort;
    var s := if Taken(t, n.pos) then MoveRequest(st, d, t[Place(t, n.pos)].id) else st;
    PutSide(s, d, s.side.At(d).(sort := Insert(s.side.At(d).sort, n)))
  }

  /** deadline_add_request, with the count elv_insert keeps. */
  function AddRequest(tn: Tunables, st: State, d: Dir, n: Node): State
    requires TreeIds(st.side.At(d).sort) <= FifoIds(st.side.At(d).fifo)
  {
    var s := AddToTree(st, d, n);
    PutSide(s, d, s.side.At(d).(fifo := s.side.At(d).fifo + [Timed(n.id, st.now + tn.expire.At(d))]))
    .(nrSorted := s.nrSorted + 1)
  }

  /** deadline_merged_request after a front merge: the request starts at pos now. */
  function FrontMerged(st: State, d: Dir, id: nat, pos: nat): State
    requires id in TreeIds(st.side.At(d).sort) && TreeIds(st.side.At(d).sort) <= FifoIds(st.side.At(d).fifo)
  {
    var s := st.side.At(d);
    AddToTree(PutSide(st, d, s.(sort := Without(s.sort, NodeAt(s.sort, id)))), d, Node(id, pos))
  }

  /** The FIFO after next was merged into req: req inherits an earlier expiry and its place. */
  function FifoMerged(f: seq<Timed>, req: nat, next: nat): seq<Timed>
    requires req in FifoIds(f) && next in FifoIds(f)
  {
    var i, j := EntryAt(f, req), EntryAt(f, next);
    if f[j].expire < f[i].expire then Without(f[j := Timed(req, f[j].expire)], i) else Without(f, j)
  }

  /** deadline_merged_requests, with the count elv_merge_requests keeps. */
  function MergedRequests(st: State, d: Dir, req: nat, next: nat): State
    requires Has(st.side.At(d), req) && Has(st.side.At(d), next)
  {
    var s := st.side.At(d);
    PutSide(st, d, DelFromTree(s, next).(fifo := FifoMerged(s.fifo, req, next))).(nrSorted := st.nrSorted - 1)
  }

  // ---------------------------------------------------------------- dispatching

  /** What one call of deadline_dispatch_requests decides. */
  datatype Choice = Idle | Chosen(dir: Dir, id: nat, batching: nat, starved: nat)

  /** The request to continue a batch with. */
  function BatchNext(st: State): Ref { if st.side.write.next != Null then st.side.write.next else st.side.read.next }

  /** deadline_check_fifo: the head has expired. */
  predicate Expired(st: State, d: Dir)
    requires st.side.At(d).fifo != []
  {
    st.now > st.side.At(d).fifo[0].expire
  }

  /** Start of a batch in direction d. */
  function Fresh(st: State, d: Dir): nat
    requires st.side.At(d).fifo != []
  {
    if Expired(st, d) || st.side.At(d).next == Null then st.side.At(d).fifo[0].id else st.side.At(d).next.id
  }

  function Choose(tn: Tunables, st: State): Choice {
    var someReads, someWrites := st.side.read.fifo != [], st.side.write.fifo != [];
    if BatchNext(st) != Null && st.batching < tn.fifoBatch then
      Chosen(if st.side.write.next != Null then Write else Read, BatchNext(st).id, st.batching + 1, st.starved)
    else if someReads && !(someWrites && st.starved >= tn.writesStarved) then
      Chosen(Read, Fresh(st, Read), 1, if someWrites then st.starved + 1 else st.starved)
    else if someWrites then Chosen(Write, Fresh(st, Write), 1, 0)
    else Idle
  }

  function Dispatch(tn: Tunables, st: State): State
    requires var c := Choose(tn, st); c.Chosen? ==> Has(st.side.At(c.dir), c.id)
  {
    var c := Choose(tn, st);
    if c.Idle? then st else MoveRequest(st.(batching := c.batching, starved := c.starved), c.dir, c.id)
  }

  // ---------------------------------------------------------------- the representation invariant

  /** The tree and the FIFO of a direction agree, except for the requests in
      off, which are off the tree for the moment. */
  predicate Loose(s: Side, latest: nat, off: set<nat>) {
    && Ascending(s.sort) && DistinctNodes(s.sort) && DistinctEntries(s.fifo) && ByExpiry(s.fifo)
    && TreeIds(s.sort) == FifoIds(s.fifo) - off
    && (s.next == Null || s.next.id in TreeIds(s.sort) + off)
    && forall e :: e in s.fifo ==> e.expire <= latest
  }

  predicate SideOk(s: Side, latest: nat) { Loose(s, latest, {}) }

  /** Every request is in one place: a direction, or the dispatch list. */
  ghost predicate Apart(st: State) {
    && TreeIds(st.side.read.sort) !! TreeIds(st.side.write.sort)
    && (forall i, j :: 0 <= i < j < |st.dispatched| ==> st.dispatched[i] != st.dispatched[j])
    && forall x :: x in st.dispatched ==> x !in TreeIds(st.side.read.sort) && x !in TreeIds(st.side.write.sort)
  }

  ghost predicate Inv(tn: Tunables, st: State) {
    && SideOk(st.side.read, st.now + tn.expire.read) && SideOk(st.side.write, st.now + tn.expire.write)
    && (st.side.read.next == Null || st.side.write.next == Null)
    && st.nrSorted == |st.side.read.fifo| + |st.side.write.fifo|
    && Apart(st)
  }
}
