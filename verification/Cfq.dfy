/**
 CFQ: one queue per process, a service tree of the busy ones with its leftmost
 node cached, and the counters that go with it.

 Slices, idling, cooperating queues and preemption only move a queue within
 the service tree; the key they compute is a parameter here.  The priority of
 a queue does not change while it is on the tree.
 */
module Cfq {
  import opened RbTree
  import opened Lanes

  datatype Class = Rt | Be | Idle

  function Rank(c: Class): int { match c case Rt => 0 case Be => 1 case Idle => 2 }

  /** cfq_queue: its requests, whether it is on the round-robin list, and its service key. */
  datatype Cfqq = Cfqq(cls: Class, lane: Lane, onRr: bool, key: int, dispatched: nat)

  /** cfq_data: the queues, the service tree in order with its cached leftmost
      node, the counts, and the requests moved to the dispatch list. */
  datatype State = State(queues: map<nat, Cfqq>, tree: seq<nat>, left: Ref, busy: int, busyRt: int, out: seq<nat>)

  /** What is known about requests, the queue each belongs to, and the seek tunables. */
  datatype Config = Config(sync: nat -> bool, meta: nat -> bool, owner: nat -> nat, backMax: nat, penalty: nat)

  const IDLE_DELAY := 200

  /** cfq_choose_req: sync before async, metadata before data, then by seek. */
  function Choice(cfg: Config, last: nat): Chooser {
    (a: Node, b: Node) =>
      if a == b then b
      else if cfg.sync(a.id) && !cfg.sync(b.id) then a
      else if cfg.sync(b.id) && !cfg.sync(a.id) then b
      else if cfg.meta(a.id) && !cfg.meta(b.id) then a
      else if cfg.meta(b.id) && !cfg.meta(a.id) then b
      else SeekChoice(Seek(last, 2 * cfg.backMax, cfg.penalty), a, b)
  }

  function Flip(f: Chooser): Chooser { (a: Node, b: Node) => f(b, a) }

  // ---------------------------------------------------------------- the service tree

  /** Strictly to the left: real-time first, idle last, then by key. */
  predicate Before(r1: int, k1: int, r2: int, k2: int) { r1 < r2 || (r1 == r2 && k1 < k2) }

  ghost predicate Known(queues: map<nat, Cfqq>, tree: seq<nat>) { forall c :: c in tree ==> c in queues }

  /** Behind everything that is not strictly after. */
  function TreePlace(queues: map<nat, Cfqq>, tree: seq<nat>, cls: Class, key: int): (i: nat)
    requires Known(queues, tree)
    ensures i <= |tree|
    ensures i < |tree| ==> Before(Rank(cls), key, Rank(queues[tree[i]].cls), queues[tree[i]].key)
    ensures forall k :: 0 <= k < i ==> !Before(Rank(cls), key, Rank(queues[tree[k]].cls), queues[tree[k]].key)
  {
    if tree == [] then 0
    else
      assert tree[0] in tree && forall c :: c in tree[1..] ==> c in tree;
      if Before(Rank(cls), key, Rank(queues[tree[0]].cls), queues[tree[0]].key) then 0
      else 1 + TreePlace(queues, tree[1..], cls, key)
  }

  /** cfq_rb_erase. */
  function TreeErase(st: State, c: nat): State
    requires c in st.tree
  {
    st.(tree := Without(st.tree, Index(st.tree, c)), left := if st.left == To(c) then Null else st.left)
  }

  /** The walk and the link of cfq_service_tree_add. */
  function TreeInsert(st: State, c: nat, key: int): State
    requires c in st.queues && Known(st.queues, st.tree)
  {
    var i := TreePlace(st.queues, st.tree, st.queues[c].cls, key);
    st.(tree := st.tree[..i] + [c] + st.tree[i..], left := if i == 0 then To(c) else st.left,
        queues := st.queues[c := st.queues[c].(key := key)])
  }

  /** The key an idle queue gets: behind the last one. */
  function ServiceKey(st: State, c: nat, key: int, now: int): int
    requires c in st.queues && Known(st.queues, st.tree)
  {
    if st.queues[c].cls != Idle then key
    else if st.tree != [] && st.tree[|st.tree| - 1] != c then IDLE_DELAY + st.queues[st.tree[|st.tree| - 1]].key
    else IDLE_DELAY + now
  }

  /** cfq_service_tree_add. */
  function ServiceAdd(st: State, c: nat, key: int, now: int): State
    requires c in st.queues && Known(st.queues, st.tree)
  {
    var k := ServiceKey(st, c, key, now);
    if c in st.tree then
      (if k == st.queues[c].key then st else TreeInsert(TreeErase(st, c), c, k))
    else TreeInsert(st, c, k)
  }

  function RtOne(c: Class): int { if c == Rt then 1 else 0 }

  function SetQueue(st: State, c: nat, x: Cfqq): State { st.(queues := st.queues[c := x]) }

  /** cfq_add_cfqq_rr. */
  function AddRr(st: State, c: nat, key: int, now: int): State
    requires c in st.queues && Known(st.queues, st.tree)
  {
    var x := st.queues[c];
    ServiceAdd(SetQueue(st, c, x.(onRr := true)).(busy := st.busy + 1, busyRt := st.busyRt + RtOne(x.cls)), c, key, now)
  }

  /** cfq_del_cfqq_rr. */
  function DelRr(st: State, c: nat): (r: State)
    requires c in st.queues
    ensures c in r.queues && (Known(st.queues, st.tree) ==> Known(r.queues, r.tree))
  {
    var x := st.queues[c];
    var s := if c in st.tree then TreeErase(st, c) else st;
    SetQueue(s, c, x.(onRr := false)).(busy := st.busy - 1, busyRt := st.busyRt - RtOne(x.cls))
  }

  /** cfq_rb_first: fill the cache. */
  function First(st: State): State {
    if st.left == Null && st.tree != [] then st.(left := To(st.tree[0])) else st
  }

  // ---------------------------------------------------------------- requests

  /** The queue left the list if it has no request any more (cfq_del_rq_rb). */
  function MaybeDel(st: State, c: nat): State
    requires c in st.queues
  {
    if st.queues[c].onRr && st.queues[c].lane.sort == [] then DelRr(st, c) else st
  }

  /** cfq_remove_request, and one more request on its way. */
  function Dispatched(cfg: Config, x: Cfqq, id: nat, last: nat): Cfqq
    requires Queued(x.lane, id)
  {
    x.(lane := RemoveQueued(x.lane, id, Choice(cfg, last)), dispatched := x.dispatched + 1)
  }

  /** cfq_dispatch_insert. */
  function DispatchInsert(cfg: Config, st: State, c: nat, id: nat, last: nat): State
    requires c in st.queues && Queued(st.queues[c].lane, id)
  {
    MaybeDel(SetQueue(st, c, Dispatched(cfg, st.queues[c], id, last)).(out := st.out + [id]), c)
  }

  /** A request in the way of n goes to the dispatch list. */
  function Clear(cfg: Config, st: State, c: nat, n: Node, last: nat): State
    requires c in st.queues && forall m :: m in st.queues[c].lane.sort ==> m.id in st.queues[c].lane.fifo
  {
    var t := st.queues[c].lane.sort;
    if Taken(t, n.pos) then
      assert t[Place(t, n.pos)] in t;
      DispatchInsert(cfg, st, c, t[Place(t, n.pos)].id, last)
    else st
  }

  /** cfq_add_rq_rb and the FIFO of cfq_insert_request. */
  function InsertRequest(cfg: Config, st: State, c: nat, n: Node, last: nat, key: int, now: int): State
    requires c in st.queues && (forall m :: m in st.queues[c].lane.sort ==> m.id in st.queues[c].lane.fifo)
    requires var s := Clear(cfg, st, c, n, last);
             c in s.queues && Known(s.queues, s.tree)
             && (var l := s.queues[c].lane; l.next == Null || l.next.id in TreeIds(l.sort))
  {
    var s := Clear(cfg, st, c, n, last);
    var x := s.queues[c];
    var s1 := SetQueue(s, c, x.(lane := AddQueued(x.lane, n, Flip(Choice(cfg, last)))));
    if x.onRr then s1 else AddRr(s1, c, key, now)
  }

  /** A lane whose request id starts at pos now (cfq_reposition_rq_rb): the
      tree loses it, a request at pos is moved out of the way, and it comes back. */
  datatype Moved = Moved(lane: Lane, alias: Ref)

  function Cleared(l: Lane, id: nat, pos: nat, f: Chooser): Moved
    requires Queued(l, id) && forall m :: m in l.sort ==> m.id in l.fifo
  {
    var t := Without(l.sort, NodeAt(l.sort, id));
    if Taken(t, pos) then
      var a := t[Place(t, pos)].id;
      assert t[Place(t, pos)] in t && t[Place(t, pos)] in l.sort;
      Moved(Lane(Without(t, NodeAt(t, a)), Without(l.fifo, Index(l.fifo, a)),
                 if l.next == To(a) then FindNext(t, a, f) else l.next), To(a))
    else Moved(l.(sort := t), Null)
  }

  function Restored(l: Lane, id: nat, pos: nat, f: Chooser): Lane
    requires l.next == Null || l.next == To(id) || l.next.id in TreeIds(l.sort)
  {
    var n := Node(id, pos);
    l.(sort := Insert(l.sort, n),
       next := if l.next == Null || l.next == To(id) then To(id) else To(f(l.sort[NodeAt(l.sort, l.next.id)], n).id))
  }

  /** The queue with its request at the new place. */
  function Repositioned(cfg: Config, x: Cfqq, id: nat, pos: nat, last: nat, m: Moved): Cfqq
    requires m.lane.next == Null || m.lane.next == To(id) || m.lane.next.id in TreeIds(m.lane.sort)
  {
    x.(lane := Restored(m.lane, id, pos, Choice(cfg, last)),
       dispatched := if m.alias == Null then x.dispatched else x.dispatched + 1)
  }

  function OutWith(out: seq<nat>, alias: Ref): seq<nat> { if alias == Null then out else out + [alias.id] }

  /** A queue that was emptied on the way has left the list and comes back. */
  function Relisted(st: State, c: nat, emptied: bool, key: int, now: int): State
    requires c in st.queues && Known(st.queues, st.tree)
  {
    if !st.queues[c].onRr then AddRr(st, c, key, now)
    else if emptied then AddRr(DelRr(st, c), c, key, now)
    else st
  }

  /** cfq_merged_request after a front merge. */
  function Reposition(cfg: Config, st: State, c: nat, id: nat, pos: nat, last: nat, key: int, now: int): State
    requires c in st.queues && Queued(st.queues[c].lane, id)
             && (forall m :: m in st.queues[c].lane.sort ==> m.id in st.queues[c].lane.fifo)
    requires Known(st.queues, st.tree)
    requires var l := Cleared(st.queues[c].lane, id, pos, Choice(cfg, last)).lane;
             l.next == Null || l.next == To(id) || l.next.id in TreeIds(l.sort)
  {
    var m := Cleared(st.queues[c].lane, id, pos, Choice(cfg, last));
    var s := SetQueue(st, c, Repositioned(cfg, st.queues[c], id, pos, last, m)).(out := OutWith(st.out, m.alias));
    Relisted(s, c, m.alias != Null && m.lane.sort == [], key, now)
  }

  /** cfq_merged_requests. */
  function MergedRequests(cfg: Config, st: State, c: nat, req: nat, next: nat, earlier: bool, last: nat): State
    requires c in st.queues && Queued(st.queues[c].lane, req) && Queued(st.queues[c].lane, next) && req != next
  {
    var x := st.queues[c];
    MaybeDel(SetQueue(st, c, x.(lane := MergeQueued(x.lane, req, next, earlier, Choice(cfg, last)))), c)
  }

  /** cfq_resort_rr_list. */
  function Resort(st: State, c: nat, key: int, now: int): State
    requires c in st.queues && Known(st.queues, st.tree)
  {
    if st.queues[c].onRr then ServiceAdd(st, c, key, now) else st
  }
}
