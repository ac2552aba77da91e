/** deadline_data as an object: the handlers of deadline-iosched.c in place. */
module DeadlineCode {
  import opened RbTree
  import opened Deadline
  import opened DeadlineProofs

  /** list_move of req behind next with its expiry, then the removal of next. */
  lemma {:induction false} MoveThenRemove(f: seq<Timed>, i: nat, j: nat, req: nat)
    requires j < i < |f|
    ensures var g := Without(f, i);
            var m := g[..j + 1] + [Timed(req, f[j].expire)] + g[j + 1..];
            Without(m, j) == Without(f[j := Timed(req, f[j].expire)], i)
  {
  }

  lemma {:induction false} EarlierComesFirst(f: seq<Timed>, i: nat, j: nat)
    requires ByExpiry(f) && i < |f| && j < |f| && f[j].expire < f[i].expire
    ensures j < i
  {
  }

  lemma {:induction false} FifoSorted(tn: Tunables, st: State, d: Dir)
    requires Inv(tn, st)
    ensures ByExpiry(st.side.At(d).fifo)
  {
  }

  class DeadlineData {
    const tn: Tunables
    var sortList: Pair<seq<Node>>
    var fifoList: Pair<seq<Timed>>
    var nextRq: Pair<Ref>
    var batching: nat
    var starved: nat
    var jiffies: nat
    var dispatched: seq<nat>
    var nrSorted: int

    /** deadline_init_queue. */
    constructor (t: Tunables)
      ensures View() == EMPTY && tn == t && Inv(tn, View())
    {
      tn := t;
      sortList, fifoList, nextRq := Pair([], []), Pair([], []), Pair(Null, Null);
      batching, starved, jiffies, dispatched, nrSorted := 0, 0, 0, [], 0;
    }

    function View(): State
      reads this
    {
      State(Pair(Side(sortList.read, fifoList.read, nextRq.read), Side(sortList.write, fifoList.write, nextRq.write)),
            batching, starved, jiffies, dispatched, nrSorted)
    }

    method DelRqRb(d: Dir, id: nat)
      requires id in TreeIds(sortList.At(d))
      modifies this`sortList, this`nextRq
      ensures View() == PutSide(old(View()), d, DelFromTree(old(View().side.At(d)), id))
    {
      if nextRq.At(d) == To(id) {
        nextRq := nextRq.Put(d, Latter(sortList.At(d), id));
      }
      sortList := sortList.Put(d, Without(sortList.At(d), NodeAt(sortList.At(d), id)));
    }

    method Remove(d: Dir, id: nat)
      requires Has(View().side.At(d), id)
      modifies this`sortList, this`fifoList, this`nextRq
      ensures View() == PutSide(old(View()), d, RemoveRequest(old(View().side.At(d)), id))
    {
      fifoList := fifoList.Put(d, Without(fifoList.At(d), EntryAt(fifoList.At(d), id)));
      DelRqRb(d, id);
    }

    method Move(d: Dir, id: nat)
      requires Has(View().side.At(d), id)
      modifies this
      ensures View() == MoveRequest(old(View()), d, id)
    {
      nextRq := Pair(Null, Null);
      nextRq := nextRq.Put(d, Latter(sortList.At(d), id));
      Remove(d, id);
      dispatched := dispatched + [id];
      nrSorted := nrSorted - 1;
    }

    /** elv_rb_add: insert, or report the request already at that position. */
    method RbAdd(d: Dir, n: Node) returns (alias: Ref)
      modifies this`sortList
      ensures var t := old(sortList.At(d));
              if Taken(t, n.pos) then alias == To(t[Place(t, n.pos)].id) && View() == old(View())
              else alias == Null && View() == PutSide(old(View()), d, old(View().side.At(d)).(sort := Insert(t, n)))
    {
      var t := sortList.At(d);
      var i := 0;
      while i < |t| && t[i].pos < n.pos
        invariant i <= |t| && Place(t, n.pos) == i + Place(t[i..], n.pos)
      {
        assert t[i..][1..] == t[i + 1..];
        i := i + 1;
      }
      if i < |t| && t[i].pos == n.pos {
        return To(t[i].id);
      }
      sortList := sortList.Put(d, t[..i] + [n] + t[i..]);
      alias := Null;
    }

    /** deadline_add_rq_rb: the loop ends after at most one move. */
    method AddRqRb(d: Dir, n: Node)
      requires Near(tn, View(), d, {n.id})
      modifies this
      ensures TreeIds(old(View()).side.At(d).sort) <= FifoIds(old(View()).side.At(d).fifo)
      ensures View() == AddToTree(old(View()), d, n)
    {
      ghost var v := View();
      NearSubset(tn, v, d, {n.id});
      ClearedOk(tn, v, d, n);
      var t := sortList.At(d);
      var alias := RbAdd(d, n);
      while alias != Null
        invariant if alias == Null then View() == AddToTree(v, d, n)
                  else View() == v && Taken(t, n.pos) && alias == To(t[Place(t, n.pos)].id)
        decreases if alias == Null then 0 else 1
      {
        assert t[Place(t, n.pos)] in t;
        Move(d, alias.id);
        alias := RbAdd(d, n);
      }
    }

    method Add(d: Dir, n: Node)
      requires Inv(tn, View()) && Enabled(View(), Step.Add(d, n))
      modifies this
      ensures View() == Apply(tn, old(View()), Step.Add(d, n)) && Inv(tn, View())
    {
      ghost var v := View();
      hide Inv, Near, TreeIds, FifoIds, RemoveRequest, Insert, Taken;
      AddOk(tn, v, d, n);
      NearFresh(tn, v, d, n.id);
      AddRqRb(d, n);
      fifoList := fifoList.Put(d, fifoList.At(d) + [Timed(n.id, jiffies + tn.expire.At(d))]);
      nrSorted := nrSorted + 1;
    }

    method Front(d: Dir, id: nat, pos: nat)
      requires Inv(tn, View()) && Enabled(View(), Step.Front(d, id, pos))
      modifies this
      ensures View() == Apply(tn, old(View()), Step.Front(d, id, pos)) && Inv(tn, View())
    {
      ghost var v := View();
      FrontOk(tn, v, d, id, pos);
      NearWithout(tn, v, d, id);
      sortList := sortList.Put(d, Without(sortList.At(d), NodeAt(sortList.At(d), id)));
      AddRqRb(d, Node(id, pos));
    }

    /** deadline_merged_requests and the count of elv_merge_requests. */
    method MergeRequests(d: Dir, req: nat, next: nat)
      requires Inv(tn, View()) && Enabled(View(), Step.Merge(d, req, next))
      modifies this
      ensures View() == Apply(tn, old(View()), Step.Merge(d, req, next)) && Inv(tn, View())
    {
      hide Inv, TreeIds, FifoIds;
      MergeOk(tn, View(), d, req, next);
      FifoSorted(tn, View(), d);
      var f := fifoList.At(d);
      var i, j := EntryAt(f, req), EntryAt(f, next);
      if f[j].expire < f[i].expire {
        EarlierComesFirst(f, i, j);
        MoveThenRemove(f, i, j, req);
        f := Without(f, i);
        f := f[..j + 1] + [Timed(req, f[j].expire)] + f[j + 1..];
      }
      fifoList := fifoList.Put(d, Without(f, j));
      DelRqRb(d, next);
      nrSorted := nrSorted - 1;
    }

    /** deadline_dispatch_requests. */
    method DispatchRequests() returns (n: nat)
      requires Inv(tn, View())
      modifies this
      ensures View() == Apply(tn, old(View()), Dispatching) && Inv(tn, View())
      ensures n == if Choose(tn, old(View())).Idle? then 0 else 1
    {
      hide Inv, Has, TreeIds, FifoIds, MoveRequest;
      DispatchOk(tn, View());
      ghost var v := View();
      var someReads, someWrites := fifoList.read != [], fifoList.write != [];
      var rq := if nextRq.write != Null then nextRq.write else nextRq.read;
      var dir := if nextRq.write != Null then Write else Read;
      if rq == Null || batching >= tn.fifoBatch {
        if someReads {
          dir := Read;
          if someWrites {
            if starved >= tn.writesStarved {
              dir := Write;
            }
            starved := starved + 1;
          }
        } else if someWrites {
          dir := Write;
        } else {
          return 0;
        }
        if dir == Write {
          starved := 0;
        }
        if jiffies > fifoList.At(dir)[0].expire || nextRq.At(dir) == Null {
          rq := To(fifoList.At(dir)[0].id);
        } else {
          rq := nextRq.At(dir);
        }
        batching := 0;
      }
      assert Choose(tn, v) == Chosen(dir, rq.id, batching + 1, starved);
      batching := batching + 1;
      Move(dir, rq.id);
      n := 1;
    }

    /** elv_drain_elevator: it ends, and leaves nothing behind. */
    method Drain()
      requires Inv(tn, View())
      modifies this
      ensures Inv(tn, View()) && nrSorted == 0 && fifoList == Pair([], []) && sortList == Pair([], [])
      ensures old(dispatched) <= dispatched && |dispatched| == |old(dispatched)| + old(nrSorted)
      ensures Everything(View()) == old(Everything(View()))
    {
      var n := 1;
      while n != 0
        invariant Inv(tn, View()) && Everything(View()) == old(Everything(View()))
        invariant old(dispatched) <= dispatched && |dispatched| + nrSorted == |old(dispatched)| + old(nrSorted)
        invariant n == 0 ==> Choose(tn, View()).Idle?
        decreases nrSorted, n
      {
        ghost var v := View();
        n := DispatchRequests();
        if n != 0 {
          DispatchMoves(tn, v);
        }
      }
      ChosenIsThere(tn, View());
      Offers(View().side.read, jiffies + tn.expire.read);
      Offers(View().side.write, jiffies + tn.expire.write);
    }
  }
}
