/** cfq_data as an object: the service tree, the handlers and the forced
    dispatch of cfq-iosched.c in place. */
module CfqCode {
  import opened RbTree
  import opened Lanes
  import opened Cfq
  import opened CfqProofs

  class CfqData {
    const cfg: Config
    var queues: map<nat, Cfqq>
    var tree: seq<nat>
    var left: Ref
    var busy: int
    var busyRt: int
    var out: seq<nat>

    constructor (c: Config)
      ensures cfg == c && View() == EMPTY && Inv(cfg, View())
    {
      cfg := c;
      queues, tree, left, busy, busyRt, out := map[], [], Null, 0, 0, [];
      new;
      EmptyOk(cfg);
    }

    function View(): State
      reads this
    {
      State(queues, tree, left, busy, busyRt, out)
    }

    /** cfq_rb_first. */
    method RbFirst() returns (c: Ref)
      modifies this`left
      ensures View() == First(old(View())) && c == left
    {
      if left == Null {
        if tree != [] {
          left := To(tree[0]);
        }
      }
      c := left;
    }

    /** cfq_rb_erase. */
    method RbErase(c: nat)
      requires c in tree
      modifies this`left, this`tree
      ensures View() == TreeErase(old(View()), c)
    {
      if left == To(c) {
        left := Null;
      }
      tree := Without(tree, Index(tree, c));
    }

    /** The walk of cfq_service_tree_add: it goes right past every queue that
        is not strictly after the new one, and remembers whether it ever did. */
    method Walk(c: nat, key: int)
      requires c in queues && Known(queues, tree)
      modifies this`queues, this`tree, this`left
      ensures View() == TreeInsert(old(View()), c, key)
    {
      var leftmost, i := true, 0;
      while i < |tree| && !Before(Rank(queues[c].cls), key, Rank(queues[tree[i]].cls), queues[tree[i]].key)
        invariant i <= |tree| && (leftmost <==> i == 0) && Known(queues, tree[i..])
        invariant TreePlace(queues, tree, queues[c].cls, key) == i + TreePlace(queues, tree[i..], queues[c].cls, key)
      {
        assert tree[i..][1..] == tree[i + 1..];
        leftmost := false;
        i := i + 1;
      }
      if leftmost {
        left := To(c);
      }
      tree := tree[..i] + [c] + tree[i..];
      queues := queues[c := queues[c].(key := key)];
    }

    /** cfq_service_tree_add. */
    method ServiceTreeAdd(c: nat, key: int, now: int)
      requires c in queues && Known(queues, tree)
      modifies this`queues, this`tree, this`left
      ensures View() == ServiceAdd(old(View()), c, key, now)
    {
      var k := key;
      if queues[c].cls == Idle {
        k := IDLE_DELAY;
        if tree != [] && tree[|tree| - 1] != c {
          k := k + queues[tree[|tree| - 1]].key;
        } else {
          k := k + now;
        }
      }
      if c in tree {
        if k == queues[c].key {
          return;
        }
        RbErase(c);
      }
      Walk(c, k);
    }

    /** cfq_add_cfqq_rr. */
    method AddCfqqRr(c: nat, key: int, now: int)
      requires c in queues && Known(queues, tree)
      modifies this
      ensures View() == AddRr(old(View()), c, key, now)
    {
      queues := queues[c := queues[c].(onRr := true)];
      busy := busy + 1;
      if queues[c].cls == Rt {
        busyRt := busyRt + 1;
      }
      ServiceTreeAdd(c, key, now);
    }

    /** cfq_del_cfqq_rr. */
    method DelCfqqRr(c: nat)
      requires c in queues
      modifies this
      ensures View() == DelRr(old(View()), c)
    {
      queues := queues[c := queues[c].(onRr := false)];
      if c in tree {
        RbErase(c);
      }
      busy := busy - 1;
      if queues[c].cls == Rt {
        busyRt := busyRt - 1;
      }
    }

    /** cfq_dispatch_insert. */
    method DispatchInsertRq(c: nat, id: nat, last: nat)
      requires c in queues && Queued(queues[c].lane, id)
      modifies this
      ensures View() == DispatchInsert(cfg, old(View()), c, id, last)
    {
      hide RemoveQueued, Choice, DelRr, TreeIds;
      var x := queues[c];
      x := x.(lane := RemoveQueued(x.lane, id, Choice(cfg, last)));
      queues := queues[c := x.(dispatched := x.dispatched + 1)];
      out := out + [id];
      if queues[c].onRr && queues[c].lane.sort == [] {
        DelCfqqRr(c);
      }
    }

    /** cfq_add_rq_rb and cfq_insert_request: the loop ends after at most one dispatch. */
    method Insert(c: nat, n: Node, last: nat, key: int, now: int)
      requires Inv(cfg, View()) && Enabled(cfg, View(), Inserting(c, n, last, key, now))
      modifies this
      ensures View() == Apply(cfg, old(View()), Inserting(c, n, last, key, now)) && Inv(cfg, View())
    {
      hide Inv, Choice, TreeIds, AddQueued, AddRr, DispatchInsert, Taken, Place;
      ghost var v := View();
      InsertRequestOk(cfg, v, c, n, last, key, now);
      ClearOk(cfg, v, c, n, last);
      var t := queues[c].lane.sort;
      while Taken(queues[c].lane.sort, n.pos)
        invariant c in queues && (View() == v || View() == Clear(cfg, v, c, n, last))
        invariant Taken(queues[c].lane.sort, n.pos) ==> View() == v
        decreases if Taken(queues[c].lane.sort, n.pos) then 1 else 0
      {
        TakenPlace(t, n.pos);
        DispatchInsertRq(c, t[Place(t, n.pos)].id, last);
      }
      var x := queues[c];
      queues := queues[c := x.(lane := AddQueued(x.lane, n, Flip(Choice(cfg, last))))];
      if !x.onRr {
        AddCfqqRr(c, key, now);
      }
    }

    /** __cfq_forced_dispatch_cfqq: the queue runs empty, FIFO included. */
    method ForcedDispatchCfqq(c: nat, last: nat) returns (dispatched: nat)
      requires Inv(cfg, View()) && c in queues
      modifies this
      ensures Inv(cfg, View()) && queues.Keys == old(queues.Keys) && queues[c].lane.sort == []
              && queues[c].lane.fifo == []
      ensures old(out) <= out && |out| == |old(out)| + dispatched
      ensures Pending(View()) <= old(Pending(View()))
              && Pending(View()) + FifoSet(out) == old(Pending(View()) + FifoSet(out))
      ensures old(queues[c].lane.sort) != [] ==> |Pending(View())| < |old(Pending(View()))|
    {
      hide Inv, Choice, TreeIds, DispatchInsert, Pending;
      dispatched := 0;
      while queues[c].lane.next != Null
        invariant Inv(cfg, View()) && c in queues && queues.Keys == old(queues.Keys)
        invariant old(out) <= out && |out| == |old(out)| + dispatched
        invariant Pending(View()) <= old(Pending(View()))
                  && Pending(View()) + FifoSet(out) == old(Pending(View()) + FifoSet(out))
        invariant queues[c].lane == old(queues[c].lane) || |Pending(View())| < |old(Pending(View()))|
        decreases |Pending(View())|
      {
        ghost var v := View();
        var id := queues[c].lane.next.id;
        NextQueued(cfg, v, c);
        DispatchOk(cfg, v, c, id, last);
        DispatchDrains(cfg, v, c, id, last);
        DispatchInsertRq(c, id, last);
        MovedOver(Pending(v), v.out, id);
        dispatched := dispatched + 1;
      }
      QueueEmpty(cfg, View(), c);
      if old(queues[c].lane.sort) != [] {
        NonEmptyHasNext(cfg, old(View()), c);
      }
    }

    /** cfq_forced_dispatch: it ends, and nothing is left on any queue. */
    method ForcedDispatch(last: nat) returns (dispatched: nat)
      requires Inv(cfg, View())
      modifies this
      ensures Inv(cfg, View()) && busy == 0 && tree == []
      ensures forall c ::
                c in queues ==> queues[c].lane.sort == [] && queues[c].lane.fifo == [] && queues[c].lane.next == Null
      ensures old(out) <= out && |out| == |old(out)| + dispatched && FifoSet(out) == old(Pending(View()) + FifoSet(out))
    {
      hide Inv, Pending, TreeIds, Choice, NotAfter;
      dispatched := 0;
      FirstOk(cfg, View());
      SamePending(View());
      var c := RbFirst();
      while c != Null
        invariant Inv(cfg, View()) && left == c && (c == Null <==> tree == []) && (c != Null ==> c.id in tree)
        invariant old(out) <= out && |out| == |old(out)| + dispatched
        invariant Pending(View()) + FifoSet(out) == old(Pending(View()) + FifoSet(out))
        decreases |Pending(View())|
      {
        TreeQueue(cfg, View(), c.id);
        var n := ForcedDispatchCfqq(c.id, last);
        dispatched := dispatched + n;
        FirstOk(cfg, View());
        SamePending(View());
        c := RbFirst();
      }
      NothingLeft(cfg, View());
    }
  }

  lemma {:induction false} TakenPlace(t: seq<Node>, pos: nat)
    requires Taken(t, pos)
    ensures Place(t, pos) < |t| && t[Place(t, pos)] in t && t[Place(t, pos)].id in TreeIds(t)
  {
  }

  lemma {:induction false} NextQueued(cfg: Config, st: State, c: nat)
    requires Inv(cfg, st) && c in st.queues && st.queues[c].lane.next != Null
    ensures st.queues[c].lane.next.id in TreeIds(st.queues[c].lane.sort)
  {
  }

  lemma {:induction false} QueueEmpty(cfg: Config, st: State, c: nat)
    requires Inv(cfg, st) && c in st.queues && st.queues[c].lane.next == Null
    ensures st.queues[c].lane.sort == [] && st.queues[c].lane.fifo == []
  {
    assert QueueOk(st.queues[c], c in st.tree);
    LaneOffers(st.queues[c].lane);
  }

  lemma {:induction false} NonEmptyHasNext(cfg: Config, st: State, c: nat)
    requires Inv(cfg, st) && c in st.queues && st.queues[c].lane.sort != []
    ensures st.queues[c].lane.next != Null
  {
  }

  lemma {:induction false} TreeQueue(cfg: Config, st: State, c: nat)
    requires Inv(cfg, st) && c in st.tree
    ensures c in st.queues && st.queues[c].lane.sort != []
  {
  }

  lemma {:induction false} MovedOver(pending: set<nat>, out: seq<nat>, id: nat)
    requires id in pending
    ensures (pending - {id}) + FifoSet(out + [id]) == pending + FifoSet(out) && |pending - {id}| == |pending| - 1
  {
  }

  lemma {:induction false} SamePending(st: State)
    ensures Pending(First(st)) == Pending(st)
  {
  }

  lemma {:induction false} NothingLeft(cfg: Config, st: State)
    requires Inv(cfg, st) && st.tree == []
    ensures st.busy == 0 && Pending(st) == {}
    ensures forall c ::
              c in st.queues ==>
                st.queues[c].lane.sort == [] && st.queues[c].lane.fifo == [] && st.queues[c].lane.next == Null
  {
    forall c | c in st.queues
      ensures st.queues[c].lane.sort == [] && st.queues[c].lane.fifo == [] && st.queues[c].lane.next == Null
    {
      assert QueueOk(st.queues[c], c in st.tree);
      LaneOffers(st.queues[c].lane);
    }
  }
}
