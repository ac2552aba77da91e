/** CFQ: the service tree, the flags, the counters and the lanes agree, and a
    forced dispatch drains them. */
module CfqProofs {
  import opened RbTree
  import opened Lanes
  import opened Cfq

  // ---------------------------------------------------------------- the service tree

  predicate NotAfter(x: Cfqq, y: Cfqq) { !Before(Rank(y.cls), y.key, Rank(x.cls), x.key) }

  /** In order of service, each queue once, and the cache null or right. */
  ghost predicate Shape(queues: map<nat, Cfqq>, tree: seq<nat>, left: Ref) {
    && Known(queues, tree) && DistinctIds(tree)
    && (forall i, j :: 0 <= i < j < |tree| ==>
          tree[i] in queues && tree[j] in queues && NotAfter(queues[tree[i]], queues[tree[j]]))
    && (left == Null || (tree != [] && left == To(tree[0])))
  }

  /** Queues that differ in what the tree does not look at. */
  lemma {:induction false} ShapeSame(queues: map<nat, Cfqq>, other: map<nat, Cfqq>, tree: seq<nat>, left: Ref)
    requires Shape(queues, tree, left)
    requires forall c :: c in tree ==> c in other && other[c].cls == queues[c].cls && other[c].key == queues[c].key
    ensures Shape(other, tree, left)
  {
  }

  lemma {:induction false} ShapeSet(queues: map<nat, Cfqq>, tree: seq<nat>, left: Ref, c: nat, x: Cfqq)
    requires Shape(queues, tree, left) && c in queues && x.cls == queues[c].cls && x.key == queues[c].key
    ensures Shape(queues[c := x], tree, left)
  {
  }

  lemma {:induction false} EraseShape(st: State, c: nat)
    requires Shape(st.queues, st.tree, st.left) && c in st.tree
    ensures var s := TreeErase(st, c);
            Shape(s.queues, s.tree, s.left) && FifoSet(s.tree) == FifoSet(st.tree) - {c} && |s.tree| == |st.tree| - 1
  {
    var i := Index(st.tree, c);
    WithoutId(st.tree, i);
    var w := Without(st.tree, i);
    assert forall k :: 0 <= k < |w| ==> w[k] == st.tree[if k < i then k else k + 1];
    assert st.left != To(c) && st.left != Null ==> i > 0;
  }

  lemma {:induction false} InsertedIds(f: seq<nat>, i: nat, c: nat)
    requires DistinctIds(f) && i <= |f| && c !in f
    ensures var g := f[..i] + [c] + f[i..]; DistinctIds(g) && FifoSet(g) == FifoSet(f) + {c} && |g| == |f| + 1
  {
  }

  lemma {:induction false} InsertShape(st: State, c: nat, key: int)
    requires Shape(st.queues, st.tree, st.left) && c in st.queues && c !in st.tree
    ensures var s := TreeInsert(st, c, key);
            Shape(s.queues, s.tree, s.left) && FifoSet(s.tree) == FifoSet(st.tree) + {c} && |s.tree| == |st.tree| + 1
  {
    var s := TreeInsert(st, c, key);
    var i := TreePlace(st.queues, st.tree, st.queues[c].cls, key);
    InsertedIds(st.tree, i, c);
    PlaceSorts(st, c, key, i);
  }

  lemma {:induction false} PlaceSorts(st: State, c: nat, key: int, i: nat)
    requires Shape(st.queues, st.tree, st.left) && c in st.queues && c !in st.tree
    requires i == TreePlace(st.queues, st.tree, st.queues[c].cls, key)
    ensures var s := TreeInsert(st, c, key);
            forall a, b :: 0 <= a < b < |s.tree| ==>
              s.tree[a] in s.queues && s.tree[b] in s.queues && NotAfter(s.queues[s.tree[a]], s.queues[s.tree[b]])
  {
  }

  // ---------------------------------------------------------------- the counters

  function RtSet(queues: map<nat, Cfqq>, ids: set<nat>): set<nat> {
    set c | c in ids && c in queues && queues[c].cls == Rt
  }

  ghost predicate TreeInv(st: State) {
    Shape(st.queues, st.tree, st.left) && st.busy == |st.tree| && st.busyRt == |RtSet(st.queues, FifoSet(st.tree))|
  }

  lemma {:induction false} ServiceAddOk(st: State, c: nat, key: int, now: int)
    requires Shape(st.queues, st.tree, st.left) && c in st.queues
    ensures var s := ServiceAdd(st, c, key, now);
            && Shape(s.queues, s.tree, s.left) && FifoSet(s.tree) == FifoSet(st.tree) + {c}
            && |s.tree| == (if c in st.tree then |st.tree| else |st.tree| + 1)
            && s.queues == st.queues[c := st.queues[c].(key := s.queues[c].key)]
            && s.busy == st.busy && s.busyRt == st.busyRt && s.out == st.out
  {
    var k := ServiceKey(st, c, key, now);
    assert st.queues == st.queues[c := st.queues[c]];
    if c in st.tree {
      EraseShape(st, c);
      var e := TreeErase(st, c);
      assert c !in FifoSet(e.tree);
      InsertShape(e, c, k);
    } else {
      InsertShape(st, c, k);
    }
  }

  lemma {:induction false} RtMore(queues: map<nat, Cfqq>, other: map<nat, Cfqq>, ids: set<nat>, c: nat)
    requires c !in ids && c in queues && other.Keys == queues.Keys
             && forall x :: x in queues ==> other[x].cls == queues[x].cls
    ensures |RtSet(other, ids + {c})| == |RtSet(queues, ids)| + RtOne(queues[c].cls)
  {
    if queues[c].cls == Rt {
      assert RtSet(other, ids + {c}) == RtSet(queues, ids) + {c};
    } else {
      assert RtSet(other, ids + {c}) == RtSet(queues, ids);
    }
  }

  /** A queue that is not on the tree joins it. */
  lemma {:induction false} AddRrOk(st: State, c: nat, key: int, now: int)
    requires TreeInv(st) && c in st.queues && c !in st.tree
    ensures Known(st.queues, st.tree)
    ensures var s := AddRr(st, c, key, now);
            && TreeInv(s) && FifoSet(s.tree) == FifoSet(st.tree) + {c} && s.out == st.out
            && s.queues == st.queues[c := st.queues[c].(onRr := true, key := s.queues[c].key)]
  {
    hide Shape, ServiceAdd, RtSet, Known;
    ShapeKnown(st.queues, st.tree, st.left);
    var x := st.queues[c];
    var m := SetQueue(st, c, x.(onRr := true)).(busy := st.busy + 1, busyRt := st.busyRt + RtOne(x.cls));
    ShapeSet(st.queues, st.tree, st.left, c, x.(onRr := true));
    ShapeKnown(m.queues, m.tree, m.left);
    ServiceAddOk(m, c, key, now);
    assert c !in FifoSet(st.tree);
    RtMore(st.queues, AddRr(st, c, key, now).queues, FifoSet(st.tree), c);
  }

  lemma {:induction false} ShapeKnown(queues: map<nat, Cfqq>, tree: seq<nat>, left: Ref)
    requires Shape(queues, tree, left)
    ensures Known(queues, tree)
  {
  }

  /** A queue on the tree leaves it. */
  lemma {:induction false} DelRrOk(st: State, c: nat)
    requires TreeInv(st) && c in st.queues && c in st.tree
    ensures var s := DelRr(st, c);
            TreeInv(s) && FifoSet(s.tree) == FifoSet(st.tree) - {c}
            && s.queues == st.queues[c := st.queues[c].(onRr := false)] && s.out == st.out
  {
    hide Shape, RtSet;
    var s := DelRr(st, c);
    EraseShape(st, c);
    var e := TreeErase(st, c);
    ShapeSet(e.queues, e.tree, e.left, c, st.queues[c].(onRr := false));
    assert c !in FifoSet(s.tree);
    RtMore(s.queues, st.queues, FifoSet(s.tree), c);
    assert FifoSet(s.tree) + {c} == FifoSet(st.tree);
  }

  // ---------------------------------------------------------------- the invariant

  /** On the tree, on the list, with requests, with a next request: all one. */
  ghost predicate QueueOk(x: Cfqq, inTree: bool) {
    LaneOk(x.lane) && (inTree <==> x.onRr) && (x.onRr <==> x.lane.sort != [])
  }

  /** Requests stay with their queue, and what was dispatched is in no queue. */
  ghost predicate Owned(cfg: Config, st: State) {
    && (forall c, n :: c in st.queues && n in st.queues[c].lane.sort ==> cfg.owner(n.id) == c && n.id !in st.out)
    && DistinctIds(st.out)
  }

  /** Everything but the flag of queue c. */
  ghost predicate InvBut(cfg: Config, st: State, c: nat) {
    && TreeInv(st) && Owned(cfg, st) && c in st.queues && LaneOk(st.queues[c].lane)
    && (c in st.tree <==> st.queues[c].onRr)
    && forall d :: d in st.queues && d != c ==> QueueOk(st.queues[d], d in st.tree)
  }

  ghost predicate Inv(cfg: Config, st: State) {
    TreeInv(st) && Owned(cfg, st) && forall d :: d in st.queues ==> QueueOk(st.queues[d], d in st.tree)
  }

  lemma {:induction false} OwnedSame(cfg: Config, st: State, s: State)
    requires Owned(cfg, st) && s.out == st.out && s.queues.Keys == st.queues.Keys
    requires forall c :: c in st.queues ==> s.queues[c].lane == st.queues[c].lane
    ensures Owned(cfg, s)
  {
  }

  /** A tree that gained or lost queue c only. */
  lemma {:induction false} OthersSame(st: State, s: State, c: nat, on: bool)
    requires c in st.queues && s.queues.Keys == st.queues.Keys
             && forall d :: d in st.queues && d != c ==> s.queues[d] == st.queues[d]
    requires FifoSet(s.tree) == if on then FifoSet(st.tree) + {c} else FifoSet(st.tree) - {c}
    requires forall d :: d in st.queues && d != c ==> QueueOk(st.queues[d], d in st.tree)
    ensures (c in s.tree <==> on) && forall d :: d in s.queues && d != c ==> QueueOk(s.queues[d], d in s.tree)
  {
    hide QueueOk;
    assert forall d :: d in s.tree <==> d in FifoSet(s.tree);
    assert forall d :: d in st.tree <==> d in FifoSet(st.tree);
  }

  lemma {:induction false} MaybeDelOk(cfg: Config, st: State, c: nat)
    requires InvBut(cfg, st, c) && (st.queues[c].lane.sort != [] ==> st.queues[c].onRr)
    ensures Inv(cfg, MaybeDel(st, c))
  {
    hide LaneOk, TreeInv, Owned, DelRr;
    if st.queues[c].onRr && st.queues[c].lane.sort == [] {
      DelRrOk(st, c);
      var s := DelRr(st, c);
      OwnedSame(cfg, st, s);
      OthersSame(st, s, c, false);
    }
  }

  lemma {:induction false} MaybeAddOk(cfg: Config, st: State, c: nat, key: int, now: int)
    requires InvBut(cfg, st, c) && st.queues[c].lane.sort != []
    ensures Known(st.queues, st.tree)
    ensures Inv(cfg, if st.queues[c].onRr then st else AddRr(st, c, key, now))
  {
    assert Known(st.queues, st.tree);
    hide LaneOk, TreeInv, AddRr, Known, Owned;
    if !st.queues[c].onRr {
      AddRrOk(st, c, key, now);
      var s := AddRr(st, c, key, now);
      OwnedSame(cfg, st, s);
      OthersSame(st, s, c, true);
    }
  }

  // ---------------------------------------------------------------- the handlers

  lemma {:induction false} ChoicePicks(cfg: Config, last: nat)
    ensures Picks(Choice(cfg, last)) && Picks(Flip(Choice(cfg, last)))
  {
    forall a, b ensures SeekChoice(Seek(last, 2 * cfg.backMax, cfg.penalty), a, b) in {a, b} {
      SeekChoiceIsBest(Seek(last, 2 * cfg.backMax, cfg.penalty), a, b);
    }
  }

  /** The choice of CFQ: sync first, then metadata, then the better seek. */
  lemma {:induction false} ChoiceIsBest(cfg: Config, last: nat, a: Node, b: Node)
    ensures var c := Choice(cfg, last)(a, b);
            && (c == a || c == b)
            && (cfg.sync(a.id) || cfg.sync(b.id) ==> cfg.sync(c.id))
            && (cfg.sync(a.id) == cfg.sync(b.id) && (cfg.meta(a.id) || cfg.meta(b.id)) ==> cfg.meta(c.id))
            && (cfg.sync(a.id) == cfg.sync(b.id) && cfg.meta(a.id) == cfg.meta(b.id) ==>
                  var k := Seek(last, 2 * cfg.backMax, cfg.penalty); NoWorse(k, c, a) && NoWorse(k, c, b))
  {
    SeekChoiceIsBest(Seek(last, 2 * cfg.backMax, cfg.penalty), a, b);
  }

  /** Replacing the lane of a queue, with requests moved to the dispatch list. */
  lemma {:induction false} SetLane(cfg: Config, st: State, c: nat, y: Cfqq, out: seq<nat>)
    requires InvBut(cfg, st, c) && LaneOk(y.lane) && y.cls == st.queues[c].cls && y.key == st.queues[c].key
             && y.onRr == st.queues[c].onRr
    requires forall n :: n in y.lane.sort ==> cfg.owner(n.id) == c && n.id !in out
    requires DistinctIds(out) && forall x :: x in out ==> x in st.out || cfg.owner(x) == c
    ensures InvBut(cfg, SetQueue(st, c, y).(out := out), c)
  {
    hide Shape, LaneOk;
    var s := SetQueue(st, c, y).(out := out);
    ShapeSet(st.queues, st.tree, st.left, c, y);
    assert RtSet(s.queues, FifoSet(s.tree)) == RtSet(st.queues, FifoSet(st.tree));
  }

  lemma {:induction false} InIsBut(cfg: Config, st: State, c: nat)
    requires Inv(cfg, st) && c in st.queues
    ensures InvBut(cfg, st, c) && Known(st.queues, st.tree) && LaneOk(st.queues[c].lane)
    ensures forall n :: n in st.queues[c].lane.sort ==> n.id in st.queues[c].lane.fifo
  {
    var l := st.queues[c].lane;
    assert QueueOk(st.queues[c], c in st.tree);
    forall n | n in l.sort ensures n.id in l.fifo {
      assert n.id in TreeIds(l.sort);
      assert n.id in FifoSet(l.fifo);
    }
  }

  /** A removed request is one less. */
  lemma {:induction false} RemovedNodes(l: Lane, id: nat, f: Chooser)
    requires LaneOk(l) && id in TreeIds(l.sort) && Picks(f)
    ensures Queued(l, id) && LaneOk(RemoveQueued(l, id, f))
    ensures forall n :: n in RemoveQueued(l, id, f).sort ==> n in l.sort && n.id != id
  {
    RemoveQueuedOk(l, id, f);
    var r := RemoveQueued(l, id, f);
    forall n | n in r.sort ensures n in l.sort && n.id != id {
      assert n.id in TreeIds(r.sort);
    }
  }

  lemma {:induction false} OutMore(out: seq<nat>, id: nat)
    requires DistinctIds(out) && id !in out
    ensures DistinctIds(out + [id])
  {
  }

  lemma {:induction false} OwnedBy(cfg: Config, st: State, c: nat, id: nat)
    requires InvBut(cfg, st, c) && id in TreeIds(st.queues[c].lane.sort)
    ensures cfg.owner(id) == c && id !in st.out && DistinctIds(st.out)
    ensures forall n :: n in st.queues[c].lane.sort ==> cfg.owner(n.id) == c && n.id !in st.out
  {
  }

  /** cfq_dispatch_insert, whatever the state of the list. */
  lemma {:induction false} DispatchBut(cfg: Config, st: State, c: nat, id: nat, last: nat)
    requires InvBut(cfg, st, c) && id in TreeIds(st.queues[c].lane.sort)
    ensures Queued(st.queues[c].lane, id)
            && InvBut(cfg, SetQueue(st, c, Dispatched(cfg, st.queues[c], id, last)).(out := st.out + [id]), c)
  {
    ChoicePicks(cfg, last);
    var x := st.queues[c];
    RemovedNodes(x.lane, id, Choice(cfg, last));
    OwnedBy(cfg, st, c, id);
    hide Choice, RemoveQueued, LaneOk, TreeInv, InvBut, TreeIds, Queued;
    OutMore(st.out, id);
    SetLane(cfg, st, c, Dispatched(cfg, x, id, last), st.out + [id]);
  }

  lemma {:induction false} DispatchOk(cfg: Config, st: State, c: nat, id: nat, last: nat)
    requires Inv(cfg, st) && c in st.queues && id in TreeIds(st.queues[c].lane.sort)
    ensures Queued(st.queues[c].lane, id) && Inv(cfg, DispatchInsert(cfg, st, c, id, last))
  {
    hide Choice, RemoveQueued, LaneOk, InvBut, Inv, MaybeDel, TreeIds, Queued, Known;
    InIsBut(cfg, st, c);
    DispatchBut(cfg, st, c, id, last);
    OnList(cfg, st, c, id);
    MaybeDelOk(cfg, SetQueue(st, c, Dispatched(cfg, st.queues[c], id, last)).(out := st.out + [id]), c);
  }

  /** A queue with a request is on the list. */
  lemma {:induction false} OnList(cfg: Config, st: State, c: nat, id: nat)
    requires Inv(cfg, st) && c in st.queues && id in TreeIds(st.queues[c].lane.sort)
    ensures st.queues[c].onRr
  {
  }

  lemma {:induction false} MaybeDelLane(st: State, c: nat)
    requires c in st.queues
    ensures var s := MaybeDel(st, c); c in s.queues && s.queues[c].lane == st.queues[c].lane && s.out == st.out
  {
  }

  /** After a request in the way is dispatched, the position is free. */
  lemma {:induction false} ClearOk(cfg: Config, st: State, c: nat, n: Node, last: nat)
    requires Inv(cfg, st) && c in st.queues && n.id !in TreeIds(st.queues[c].lane.sort) && n.id !in st.out
    ensures forall m :: m in st.queues[c].lane.sort ==> m.id in st.queues[c].lane.fifo
    ensures var s := Clear(cfg, st, c, n, last);
            && Inv(cfg, s) && c in s.queues && !Taken(s.queues[c].lane.sort, n.pos)
            && n.id !in TreeIds(s.queues[c].lane.sort) && n.id !in s.out
  {
    InIsBut(cfg, st, c);
    var t := st.queues[c].lane.sort;
    if Taken(t, n.pos) {
      var a := t[Place(t, n.pos)];
      assert a in t && a.id in TreeIds(t);
      FreedPlace(t, n.pos);
      WithoutNodeIds(t, NodeAt(t, a.id));
      hide Inv, InvBut, LaneOk, Choice, MaybeDel, Taken, TreeIds, Known;
      DispatchOk(cfg, st, c, a.id, last);
      MaybeDelLane(SetQueue(st, c, Dispatched(cfg, st.queues[c], a.id, last)).(out := st.out + [a.id]), c);
    }
  }

  /** The nodes of a lane with one more request. */
  lemma {:induction false} AddedNodes(l: Lane, n: Node, f: Chooser)
    requires LaneOk(l) && !Taken(l.sort, n.pos) && n.id !in TreeIds(l.sort) && Picks(f)
    ensures (l.next == Null || l.next.id in TreeIds(l.sort)) && LaneOk(AddQueued(l, n, f))
            && AddQueued(l, n, f).sort != []
    ensures forall m :: m in AddQueued(l, n, f).sort ==> m == n || m in l.sort
  {
    AddQueuedOk(l, n, f);
  }

  lemma {:induction false} InsertRequestOk(cfg: Config, st: State, c: nat, n: Node, last: nat, key: int, now: int)
    requires Inv(cfg, st) && c in st.queues && cfg.owner(n.id) == c && n.id !in TreeIds(st.queues[c].lane.sort)
             && n.id !in st.out
    ensures forall m :: m in st.queues[c].lane.sort ==> m.id in st.queues[c].lane.fifo
    ensures var s := Clear(cfg, st, c, n, last);
            c in s.queues && Known(s.queues, s.tree)
            && (var l := s.queues[c].lane; l.next == Null || l.next.id in TreeIds(l.sort))
    ensures Inv(cfg, InsertRequest(cfg, st, c, n, last, key, now))
  {
    ClearOk(cfg, st, c, n, last);
    var s := Clear(cfg, st, c, n, last);
    InIsBut(cfg, s, c);
    ChoicePicks(cfg, last);
    hide Inv, InvBut, LaneOk, Choice, Taken, TreeIds, Clear, AddQueued, Known;
    AddStep(cfg, s, c, n, last, key, now);
  }

  lemma {:induction false} AddStep(cfg: Config, s: State, c: nat, n: Node, last: nat, key: int, now: int)
    requires InvBut(cfg, s, c) && cfg.owner(n.id) == c && n.id !in TreeIds(s.queues[c].lane.sort) && n.id !in s.out
             && !Taken(s.queues[c].lane.sort, n.pos)
    ensures var l := s.queues[c].lane; l.next == Null || l.next.id in TreeIds(l.sort)
    ensures var x := s.queues[c];
            var s1 := SetQueue(s, c, x.(lane := AddQueued(x.lane, n, Flip(Choice(cfg, last)))));
            Known(s1.queues, s1.tree) && Inv(cfg, if x.onRr then s1 else AddRr(s1, c, key, now))
  {
    ChoicePicks(cfg, last);
    var x, f := s.queues[c], Flip(Choice(cfg, last));
    AddedNodes(x.lane, n, f);
    OwnedAll(cfg, s, c);
    hide Inv, InvBut, LaneOk, Choice, Taken, TreeIds, AddQueued, Known;
    var y := x.(lane := AddQueued(x.lane, n, f));
    SetLane(cfg, s, c, y, s.out);
    assert SetQueue(s, c, y).(out := s.out) == SetQueue(s, c, y);
    MaybeAddOk(cfg, SetQueue(s, c, y), c, key, now);
  }

  lemma {:induction false} OwnedAll(cfg: Config, st: State, c: nat)
    requires InvBut(cfg, st, c)
    ensures DistinctIds(st.out) && forall n :: n in st.queues[c].lane.sort ==> cfg.owner(n.id) == c && n.id !in st.out
  {
  }

  lemma {:induction false} MergedOk(cfg: Config, st: State, c: nat, req: nat, next: nat, earlier: bool, last: nat)
    requires Inv(cfg, st) && c in st.queues && Queued(st.queues[c].lane, req) && Queued(st.queues[c].lane, next)
             && req != next
    ensures Inv(cfg, MergedRequests(cfg, st, c, req, next, earlier, last))
  {
    InIsBut(cfg, st, c);
    ChoicePicks(cfg, last);
    OwnedAll(cfg, st, c);
    OnList(cfg, st, c, req);
    var x := st.queues[c];
    MergedNodes(x.lane, req, next, earlier, Choice(cfg, last));
    hide Inv, InvBut, LaneOk, Choice, TreeIds, MergeQueued, Known, MaybeDel, Queued;
    var y := x.(lane := MergeQueued(x.lane, req, next, earlier, Choice(cfg, last)));
    SetLane(cfg, st, c, y, st.out);
    assert SetQueue(st, c, y).(out := st.out) == SetQueue(st, c, y);
    MaybeDelOk(cfg, SetQueue(st, c, y), c);
  }

  lemma {:induction false} MergedNodes(l: Lane, req: nat, next: nat, earlier: bool, f: Chooser)
    requires LaneOk(l) && Queued(l, req) && Queued(l, next) && req != next && Picks(f)
    ensures LaneOk(MergeQueued(l, req, next, earlier, f))
            && forall n :: n in MergeQueued(l, req, next, earlier, f).sort ==> n in l.sort
  {
    MergeQueuedOk(l, req, next, earlier, f);
  }

  lemma {:induction false} ResortTree(st: State, c: nat, key: int, now: int)
    requires TreeInv(st) && c in st.queues && c in st.tree
    ensures Known(st.queues, st.tree)
    ensures var s := ServiceAdd(st, c, key, now);
            && TreeInv(s) && FifoSet(s.tree) == FifoSet(st.tree) && s.out == st.out
            && s.queues == st.queues[c := st.queues[c].(key := s.queues[c].key)]
  {
    ServiceAddOk(st, c, key, now);
    ShapeKnown(st.queues, st.tree, st.left);
    hide Shape, ServiceAdd, Known;
    var s := ServiceAdd(st, c, key, now);
    assert FifoSet(s.tree) == FifoSet(st.tree);
    assert RtSet(s.queues, FifoSet(s.tree)) == RtSet(st.queues, FifoSet(st.tree));
  }

  lemma {:induction false} ResortOk(cfg: Config, st: State, c: nat, key: int, now: int)
    requires Inv(cfg, st) && c in st.queues
    ensures Known(st.queues, st.tree) && Inv(cfg, Resort(st, c, key, now))
  {
    InIsBut(cfg, st, c);
    if st.queues[c].onRr {
      hide TreeInv, LaneOk, Owned, ServiceAdd, Known;
      ResortTree(st, c, key, now);
      var s := ServiceAdd(st, c, key, now);
      OwnedSame(cfg, st, s);
      OthersSame(st, s, c, true);
      assert QueueOk(st.queues[c], c in st.tree);
    }
  }

  /** The cache is null or right, so the first queue is the first in order. */
  lemma {:induction false} FirstOk(cfg: Config, st: State)
    requires Inv(cfg, st)
    ensures Inv(cfg, First(st))
    ensures First(st).left == if st.tree == [] then Null else To(st.tree[0])
    ensures forall c ::
              c in st.tree ==>
                st.tree[0] in st.queues && c in st.queues && NotAfter(st.queues[st.tree[0]], st.queues[c])
  {
  }

  // ---------------------------------------------------------------- front merges

  /** A lane without request id in its tree, and with the position free. */
  ghost predicate Open(l: Lane, m: Moved, id: nat, pos: nat) {
    && Ascending(m.lane.sort) && DistinctNodes(m.lane.sort) && DistinctIds(m.lane.fifo) && !Taken(m.lane.sort, pos)
    && id !in TreeIds(m.lane.sort) && FifoSet(m.lane.fifo) == TreeIds(m.lane.sort) + {id}
    && (m.lane.next == Null || m.lane.next == To(id) || m.lane.next.id in TreeIds(m.lane.sort))
    && (forall n :: n in m.lane.sort ==> n in l.sort && m.alias != To(n.id))
    && (m.alias != Null ==> m.alias.id in TreeIds(l.sort) && m.alias.id != id)
  }

  lemma {:induction false} WithoutSub(t: seq<Node>, i: nat)
    requires i < |t|
    ensures forall n :: n in Without(t, i) ==> n in t
  {
  }

  /** The tree without id, nobody at the position. */
  lemma {:induction false} ClearedFree(l: Lane, id: nat, pos: nat, t: seq<Node>)
    requires LaneOk(l) && id in TreeIds(l.sort) && t == Without(l.sort, NodeAt(l.sort, id)) && !Taken(t, pos)
    ensures Open(l, Moved(l.(sort := t), Null), id, pos)
  {
    WithoutNode(l.sort, NodeAt(l.sort, id));
    WithoutSub(l.sort, NodeAt(l.sort, id));
    hide Ascending, DistinctNodes, DistinctIds, Taken, FifoSet;
  }

  /** The tree without the request at the position. */
  lemma {:induction false} AliasTree(t: seq<Node>, pos: nat, a: nat)
    requires Ascending(t) && DistinctNodes(t) && Taken(t, pos) && a == t[Place(t, pos)].id
    ensures a in TreeIds(t)
    ensures var u := Without(t, NodeAt(t, a));
            && Ascending(u) && DistinctNodes(u) && !Taken(u, pos) && TreeIds(u) == TreeIds(t) - {a}
            && forall n :: n in u ==> n in t && n.id != a
  {
    assert t[Place(t, pos)] in t;
    FreedPlace(t, pos);
    WithoutNode(t, NodeAt(t, a));
    WithoutSub(t, NodeAt(t, a));
    var u := Without(t, NodeAt(t, a));
    assert forall n :: n in u ==> n.id in TreeIds(u);
  }

  /** The tree without id and without the request at the position. */
  lemma {:induction false} ClearedAlias(l: Lane, id: nat, pos: nat, t: seq<Node>, a: nat, f: Chooser)
    requires LaneOk(l) && id in TreeIds(l.sort) && t == Without(l.sort, NodeAt(l.sort, id)) && Taken(t, pos)
             && a == t[Place(t, pos)].id && Picks(f)
    ensures a in TreeIds(t) && a in l.fifo
    ensures Open(l,
                 Moved(Lane(Without(t, NodeAt(t, a)), Without(l.fifo, Index(l.fifo, a)),
                            if l.next == To(a) then FindNext(t, a, f) else l.next),
                       To(a)), id, pos)
  {
    hide Ascending, DistinctNodes, DistinctIds, Taken, TreeIds, FifoSet, FindNext, Without, Place, Picks, NodeAt, Index;
    WithoutNode(l.sort, NodeAt(l.sort, id));
    WithoutSub(l.sort, NodeAt(l.sort, id));
    PlaceInTree(t, pos);
    AliasTree(t, pos, a);
    InFifo(l, a);
    WithoutId(l.fifo, Index(l.fifo, a));
    FindNextOk(t, a, f);
  }

  lemma {:induction false} PlaceInTree(t: seq<Node>, pos: nat)
    requires Taken(t, pos)
    ensures Place(t, pos) < |t|
  {
  }

  lemma {:induction false} InFifo(l: Lane, a: nat)
    requires LaneOk(l) && a in TreeIds(l.sort)
    ensures a in l.fifo
  {
  }

  lemma {:induction false} ClearedOk(l: Lane, id: nat, pos: nat, f: Chooser)
    requires LaneOk(l) && id in TreeIds(l.sort) && Picks(f)
    ensures Queued(l, id) && (forall m :: m in l.sort ==> m.id in l.fifo) && Open(l, Cleared(l, id, pos, f), id, pos)
  {
    assert forall m :: m in l.sort ==> m.id in TreeIds(l.sort) && m.id in FifoSet(l.fifo);
    assert id in FifoSet(l.fifo);
    hide LaneOk, Open, Taken, TreeIds;
    var t := Without(l.sort, NodeAt(l.sort, id));
    if Taken(t, pos) {
      ClearedAlias(l, id, pos, t, t[Place(t, pos)].id, f);
    } else {
      ClearedFree(l, id, pos, t);
    }
  }

  lemma {:induction false} RestoredOk(l: Lane, m: Moved, id: nat, pos: nat, f: Chooser)
    requires Open(l, m, id, pos) && Picks(f)
    ensures LaneOk(Restored(m.lane, id, pos, f)) && Restored(m.lane, id, pos, f).sort != []
    ensures forall n ::
              n in Restored(m.lane, id, pos, f).sort ==> n == Node(id, pos) || (n in l.sort && m.alias != To(n.id))
  {
    InsertOk(m.lane.sort, Node(id, pos));
    if m.lane.next != Null && m.lane.next != To(id) {
      var x := m.lane.sort[NodeAt(m.lane.sort, m.lane.next.id)];
      assert f(x, Node(id, pos)) == x || f(x, Node(id, pos)) == Node(id, pos);
    }
    hide Ascending, DistinctNodes, DistinctIds, Taken;
  }

  /** A queue taken off the list, about to come back. */
  lemma {:induction false} DelBut(cfg: Config, st: State, c: nat)
    requires InvBut(cfg, st, c) && c in st.tree
    ensures var s := DelRr(st, c); InvBut(cfg, s, c) && !s.queues[c].onRr && s.queues[c].lane == st.queues[c].lane
  {
    hide LaneOk, TreeInv, Owned, DelRr;
    DelRrOk(st, c);
    OwnedSame(cfg, st, DelRr(st, c));
    OthersSame(st, DelRr(st, c), c, false);
  }

  lemma {:induction false} RelistedOk(cfg: Config, st: State, c: nat, emptied: bool, key: int, now: int)
    requires InvBut(cfg, st, c) && st.queues[c].lane.sort != []
    ensures Known(st.queues, st.tree) && Inv(cfg, Relisted(st, c, emptied, key, now))
  {
    MaybeAddOk(cfg, st, c, key, now);
    if st.queues[c].onRr && emptied {
      DelBut(cfg, st, c);
      hide InvBut, Inv, AddRr, DelRr, Known;
      MaybeAddOk(cfg, DelRr(st, c), c, key, now);
    }
  }

  lemma {:induction false} RepositionedBut(cfg: Config, st: State, c: nat, id: nat, pos: nat, last: nat, m: Moved)
    requires InvBut(cfg, st, c) && id in TreeIds(st.queues[c].lane.sort) && Open(st.queues[c].lane, m, id, pos)
    ensures m.lane.next == Null || m.lane.next == To(id) || m.lane.next.id in TreeIds(m.lane.sort)
    ensures var s := SetQueue(st, c, Repositioned(cfg, st.queues[c], id, pos, last, m))
                    .(out := OutWith(st.out, m.alias));
            InvBut(cfg, s, c) && s.queues[c].lane.sort != []
  {
    ChoicePicks(cfg, last);
    OwnedBy(cfg, st, c, id);
    RestoredOk(st.queues[c].lane, m, id, pos, Choice(cfg, last));
    if m.alias != Null {
      OwnedBy(cfg, st, c, m.alias.id);
      OutMore(st.out, m.alias.id);
    }
    hide InvBut, LaneOk, Choice, TreeIds, Restored;
    SetLane(cfg, st, c, Repositioned(cfg, st.queues[c], id, pos, last, m), OutWith(st.out, m.alias));
  }

  lemma {:induction false} RepositionOk(cfg: Config, st: State, c: nat, id: nat, pos: nat, last: nat, key: int,
                                        now: int)
    requires Inv(cfg, st) && c in st.queues && id in TreeIds(st.queues[c].lane.sort)
    ensures Queued(st.queues[c].lane, id)
            && (forall m :: m in st.queues[c].lane.sort ==> m.id in st.queues[c].lane.fifo)
    ensures Known(st.queues, st.tree)
    ensures var l := Cleared(st.queues[c].lane, id, pos, Choice(cfg, last)).lane;
            l.next == Null || l.next == To(id) || l.next.id in TreeIds(l.sort)
    ensures Inv(cfg, Reposition(cfg, st, c, id, pos, last, key, now))
  {
    hide Inv, InvBut, LaneOk, Choice, TreeIds, Cleared, Restored, Known, Open, Relisted, Queued, Repositioned;
    ChoicePicks(cfg, last);
    InIsBut(cfg, st, c);
    ClearedOk(st.queues[c].lane, id, pos, Choice(cfg, last));
    var m := Cleared(st.queues[c].lane, id, pos, Choice(cfg, last));
    RepositionedBut(cfg, st, c, id, pos, last, m);
    RelistedOk(cfg,
               SetQueue(st, c, Repositioned(cfg, st.queues[c], id, pos, last, m)).(out := OutWith(st.out, m.alias)),
               c, m.alias != Null && m.lane.sort == [], key, now);
  }

  // ---------------------------------------------------------------- runs

  datatype Step =
    | NewQueue(c: nat, cls: Class)
    | Inserting(c: nat, node: Node, last: nat, key: int, now: int)
    | Fronting(c: nat, id: nat, pos: nat, last: nat, key: int, now: int)
    | Merging(c: nat, req: nat, next: nat, earlier: bool, last: nat)
    | Dispatching(c: nat, id: nat, last: nat)
    | Resorting(c: nat, key: int, now: int)
    | Looking

  ghost predicate Enabled(cfg: Config, st: State, s: Step) {
    match s
    case NewQueue(c, _) => c !in st.queues
    case Inserting(c, n, _, _, _) =>
      c in st.queues && cfg.owner(n.id) == c && n.id !in TreeIds(st.queues[c].lane.sort) && n.id !in st.out
    case Fronting(c, id, _, _, _, _) => c in st.queues && id in TreeIds(st.queues[c].lane.sort)
    case Merging(c, a, b, _, _) =>
      c in st.queues && Queued(st.queues[c].lane, a) && Queued(st.queues[c].lane, b) && a != b
    case Dispatching(c, id, _) => c in st.queues && id in TreeIds(st.queues[c].lane.sort)
    case Resorting(c, _, _) => c in st.queues
    case Looking => true
  }

  function Apply(cfg: Config, st: State, s: Step): State
    requires Inv(cfg, st) && Enabled(cfg, st, s)
  {
    match s
    case NewQueue(c, cls) => SetQueue(st, c, Cfqq(cls, Lane([], [], Null), false, 0, 0))
    case Inserting(c, n, last, key, now) =>
      InsertRequestOk(cfg, st, c, n, last, key, now); InsertRequest(cfg, st, c, n, last, key, now)
    case Fronting(c, id, pos, last, key, now) =>
      RepositionOk(cfg, st, c, id, pos, last, key, now);
      Reposition(cfg, st, c, id, pos, last, key, now)
    case Merging(c, a, b, earlier, last) => MergedRequests(cfg, st, c, a, b, earlier, last)
    case Dispatching(c, id, last) => DispatchOk(cfg, st, c, id, last); DispatchInsert(cfg, st, c, id, last)
    case Resorting(c, key, now) => ResortOk(cfg, st, c, key, now); Resort(st, c, key, now)
    case Looking => First(st)
  }

  lemma {:induction false} NewQueueOk(cfg: Config, st: State, c: nat, cls: Class)
    requires Inv(cfg, st) && c !in st.queues
    ensures Inv(cfg, SetQueue(st, c, Cfqq(cls, Lane([], [], Null), false, 0, 0)))
  {
    var s := SetQueue(st, c, Cfqq(cls, Lane([], [], Null), false, 0, 0));
    ShapeSame(st.queues, s.queues, st.tree, st.left);
    assert RtSet(s.queues, FifoSet(s.tree)) == RtSet(st.queues, FifoSet(st.tree));
    assert LaneOk(s.queues[c].lane);
  }

  /** Every step keeps the agreement. */
  lemma {:induction false} StepOk(cfg: Config, st: State, s: Step)
    requires Inv(cfg, st) && Enabled(cfg, st, s)
    ensures Inv(cfg, Apply(cfg, st, s))
  {
    hide Inv, InsertRequest, Reposition, MergedRequests, DispatchInsert, Resort, First, TreeIds,
         Clear, Cleared, Known, Choice;
    match s
    case NewQueue(c, cls) => NewQueueOk(cfg, st, c, cls);
    case Inserting(c, n, last, key, now) => InsertRequestOk(cfg, st, c, n, last, key, now);
    case Fronting(c, id, pos, last, key, now) => RepositionOk(cfg, st, c, id, pos, last, key, now);
    case Merging(c, a, b, earlier, last) => MergedOk(cfg, st, c, a, b, earlier, last);
    case Dispatching(c, id, last) => DispatchOk(cfg, st, c, id, last);
    case Resorting(c, key, now) => ResortOk(cfg, st, c, key, now);
    case Looking => FirstOk(cfg, st);
  }

  ghost predicate Runs(cfg: Config, st: State, steps: seq<Step>)
    requires Inv(cfg, st)
    decreases |steps|
  {
    steps == []
    || (Enabled(cfg, st, steps[0]) && (StepOk(cfg, st, steps[0]); Runs(cfg, Apply(cfg, st, steps[0]), steps[1..])))
  }

  function Exec(cfg: Config, st: State, steps: seq<Step>): State
    requires Inv(cfg, st) && Runs(cfg, st, steps)
    decreases |steps|
  {
    if steps == [] then st else StepOk(cfg, st, steps[0]); Exec(cfg, Apply(cfg, st, steps[0]), steps[1..])
  }

  lemma {:induction false} RunOk(cfg: Config, st: State, steps: seq<Step>)
    requires Inv(cfg, st) && Runs(cfg, st, steps)
    ensures Inv(cfg, Exec(cfg, st, steps))
    decreases |steps|
  {
    hide Inv, Apply, Enabled;
    if steps != [] {
      StepOk(cfg, st, steps[0]);
      RunOk(cfg, Apply(cfg, st, steps[0]), steps[1..]);
    }
  }

  const EMPTY := State(map[], [], Null, 0, 0, [])

  lemma {:induction false} EmptyOk(cfg: Config)
    ensures Inv(cfg, EMPTY)
  {
  }

  /** The agreement, spelled out: after any run a queue is in the service tree
      iff it is on the list iff it has requests iff it has a next request; the
      counters count; the cache is null or the true first; real-time queues
      come first and idle ones last. */
  lemma {:induction false} Agreement(cfg: Config, steps: seq<Step>)
    requires Inv(cfg, EMPTY) && Runs(cfg, EMPTY, steps)
    ensures var st := Exec(cfg, EMPTY, steps);
            && (forall c :: c in st.queues ==>
                  && (c in st.tree <==> st.queues[c].onRr)
                  && (c in st.tree <==> st.queues[c].lane.sort != [])
                  && (c in st.tree <==> st.queues[c].lane.next != Null))
            && st.busy == |st.tree| && DistinctIds(st.tree) && st.busyRt == |RtSet(st.queues, FifoSet(st.tree))|
            && (st.left != Null ==> st.tree != [] && st.left == To(st.tree[0]))
            && (forall i, j :: 0 <= i < j < |st.tree| ==>
                  && st.tree[i] in st.queues && st.tree[j] in st.queues
                  && Rank(st.queues[st.tree[i]].cls) <= Rank(st.queues[st.tree[j]].cls)
                  && NotAfter(st.queues[st.tree[i]], st.queues[st.tree[j]]))
  {
    RunOk(cfg, EMPTY, steps);
    var st := Exec(cfg, EMPTY, steps);
    forall c | c in st.queues
      ensures (c in st.tree <==> st.queues[c].onRr) && (c in st.tree <==> st.queues[c].lane.sort != [])
              && (c in st.tree <==> st.queues[c].lane.next != Null)
    {
      assert QueueOk(st.queues[c], c in st.tree);
    }
  }

  // ---------------------------------------------------------------- draining

  /** The requests still queued. */
  function Pending(st: State): set<nat> {
    set c, n | c in st.queues && n in st.queues[c].lane.sort :: n.id
  }

  /** A dispatched request leaves exactly one place and enters another. */
  lemma {:induction false} DispatchDrains(cfg: Config, st: State, c: nat, id: nat, last: nat)
    requires Inv(cfg, st) && c in st.queues && id in TreeIds(st.queues[c].lane.sort)
    ensures Queued(st.queues[c].lane, id)
    ensures var s := DispatchInsert(cfg, st, c, id, last);
            && Pending(s) == Pending(st) - {id} && id in Pending(st) && s.out == st.out + [id]
            && c in s.queues && TreeIds(s.queues[c].lane.sort) == TreeIds(st.queues[c].lane.sort) - {id}
            && s.queues.Keys == st.queues.Keys && forall d :: d in st.queues && d != c ==> s.queues[d] == st.queues[d]
  {
    DispatchOk(cfg, st, c, id, last);
    InIsBut(cfg, st, c);
    OwnedBy(cfg, st, c, id);
    ChoicePicks(cfg, last);
    RemoveQueuedOk(st.queues[c].lane, id, Choice(cfg, last));
    var y := Dispatched(cfg, st.queues[c], id, last);
    var m := SetQueue(st, c, y).(out := st.out + [id]);
    MaybeDelLanes(m, c);
    PendingLess(cfg, st, m, c, id);
  }

  lemma {:induction false} MaybeDelLanes(st: State, c: nat)
    requires c in st.queues
    ensures var s := MaybeDel(st, c);
            && s.out == st.out && s.queues.Keys == st.queues.Keys && s.queues[c].lane == st.queues[c].lane
            && (forall d :: d in st.queues && d != c ==> s.queues[d] == st.queues[d]) && Pending(s) == Pending(st)
  {
  }

  lemma {:induction false} PendingLess(cfg: Config, st: State, s: State, c: nat, id: nat)
    requires Owned(cfg, st) && c in st.queues && s.queues.Keys == st.queues.Keys
             && id in TreeIds(st.queues[c].lane.sort)
    requires TreeIds(s.queues[c].lane.sort) == TreeIds(st.queues[c].lane.sort) - {id}
    requires forall d :: d in st.queues && d != c ==> s.queues[d] == st.queues[d]
    ensures Pending(s) == Pending(st) - {id} && id in Pending(st)
  {
    forall x ensures x in Pending(s) <==> x in Pending(st) && x != id {
      if x in Pending(s) {
        var d, n :| d in s.queues && n in s.queues[d].lane.sort && n.id == x;
        assert x in TreeIds(s.queues[d].lane.sort);
      }
      if x in Pending(st) && x != id {
        var d, n :| d in st.queues && n in st.queues[d].lane.sort && n.id == x;
        assert x in TreeIds(st.queues[d].lane.sort);
        if d == c {
          assert x in TreeIds(s.queues[c].lane.sort);
        }
      }
    }
  }
}
