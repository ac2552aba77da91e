/** as_data as an object: the handlers of as-iosched.c in place. */
module AnticipatoryCode {
  import opened RbTree
  import opened Lanes
  import opened Anticipatory
  import opened AnticipatoryProofs
  import opened AnticipatoryDrain

  lemma {:induction false} CandidateQueued(cfg: Config, st: State, o: Oracle)
    requires Performable(st, Decide(cfg, st, o)) && Decide(cfg, st, o).Go?
    ensures var p := Decide(cfg, st, o); p.rq != Null && Queued(st.lane.At(p.batch.dir), Candidate(st, p, o))
  {
  }

  /** Moving the request at a position away frees it. */
  predicate Clears(l: Lane, a: nat, pos: nat, end: nat) {
    && Queued(l, a) && Queued(l.(next := FindNext(l.sort, a, Choice(end))), a)
    && !Taken(RemoveQueued(l.(next := FindNext(l.sort, a, Choice(end))), a, Choice(end)).sort, pos)
  }

  lemma {:induction false} AliasClears(l: Lane, id: nat, pos: nat, end: nat)
    requires LaneFit(l) && id in TreeIds(l.sort) && Taken(TreeWithout(l, id), pos)
    ensures Clears(l.(sort := TreeWithout(l, id)), Alias(TreeWithout(l, id), pos), pos, end)
  {
    AliasThere(l, id, pos);
    FreedPlace(TreeWithout(l, id), pos);
  }

  lemma {:induction false} MovedLane(cfg: Config, st: State, d: Dir, id: nat, end: nat)
    requires Queued(st.lane.At(d), id)
    ensures var l, m := st.lane.At(d), MoveToDispatch(cfg, st, d, id, end);
            && m.lane == st.lane.Put(d, RemoveQueued(l.(next := FindNext(l.sort, id, Choice(end))), id, Choice(end)))
            && m.wait.antic == Off
  {
  }

  /** A front merge step by step: off the tree, clear the position, back on. */
  lemma {:induction false} FrontShape(cfg: Config, st: State, d: Dir, id: nat, pos: nat, end: nat)
    requires LaneFit(st.lane.At(d)) && id in TreeIds(st.lane.At(d).sort)
    ensures var l := st.lane.At(d); var t := TreeWithout(l, id); var s0 := PutLane(st, d, l.(sort := t));
            && (Taken(t, pos) ==>
                  Clears(s0.lane.At(d), Alias(t, pos), pos, end) && Queued(s0.lane.At(d), Alias(t, pos)))
            && var m := if Taken(t, pos) then MoveToDispatch(cfg, s0, d, Alias(t, pos), end) else s0;
               FrontMerged(cfg, st, d, id, pos, end) ==
                 PutLane(m, d, m.lane.At(d).(sort := Insert(m.lane.At(d).sort, Node(id, pos))))
  {
    hide FindNext, Insert, TreeWithout, Taken, TreeIds, LaneFit;
    var l := st.lane.At(d);
    var t := TreeWithout(l, id);
    if Taken(t, pos) {
      AliasThere(l, id, pos);
      AliasClears(l, id, pos, end);
    }
  }

  class AsData {
    const cfg: Config
    var lane: Pair<Lane>
    var lastSector: Pair<nat>
    var batch: Batch
    var wait: Wait
    var outstanding: map<nat, Dir>
    var nrDispatched: int

    /** as_init_queue. */
    constructor (c: Config, batchCount: nat)
      requires batchCount >= 1
      ensures cfg == c && View() == Start(batchCount) && Inv(View())
    {
      cfg := c;
      lane, lastSector := Pair(Lane([], [], Null), Lane([], [], Null)), Pair(0, 0);
      batch, wait := Batch(Write, false, false, batchCount, 0, false), Wait(Off, Null, false);
      outstanding, nrDispatched := map[], 0;
      new;
      StartOk(cfg, batchCount);
    }

    function View(): State
      reads this
    {
      State(lane, lastSector, batch, wait, outstanding, nrDispatched)
    }

    /** as_antic_stop.  With nothing outstanding the next dispatch call then
        dispatches, whatever it is told. */
    method AnticStop()
      modifies this`wait
      ensures View() == Stopped(old(View())) && !Waiting(wait) && (Inv(old(View())) ==> Inv(View()))
      ensures Inv(old(View())) && Waiting(old(wait)) && nrDispatched == 0
              && (Some(View(), Read) || Some(View(), Write)) ==>
                forall o :: Performable(View(), Decide(cfg, View(), o)) && DispatchRequest(cfg, View(), o).rq != Null
    {
      hide Decide, DispatchRequest, LanesOk;
      ghost var st := View();
      if Waiting(wait) {
        wait := wait.(antic := Finished);
      }
      if Inv(st) && Waiting(st.wait) && nrDispatched == 0 && (Some(st, Read) || Some(st, Write)) {
        forall o ensures Performable(View(), Decide(cfg, View(), o)) && DispatchRequest(cfg, View(), o).rq != Null {
          FinishedFrees(cfg, View(), o);
        }
      }
    }

    method Move(d: Dir, id: nat, end: nat)
      requires Queued(lane.At(d), id)
      modifies this
      ensures View() == MoveToDispatch(cfg, old(View()), d, id, end)
    {
      hide FindNext, RemoveQueued;
      AnticStop();
      wait := wait.(antic := Off);
      lastSector := lastSector.Put(d, end);
      if d == Read {
        if cfg.ioc(id) != Null {
          wait := wait.(ioc := cfg.ioc(id));
        }
      } else {
        wait := wait.(ioc := Null);
        if batch.writeCount != 0 {
          batch := batch.(writeCount := batch.writeCount - 1);
        }
      }
      wait := wait.(iocFinished := false);
      var l := lane.At(d);
      lane := lane.Put(d, l.(next := FindNext(l.sort, id, Choice(end))));
      lane := lane.Put(d, RemoveQueued(lane.At(d), id, Choice(end)));
      outstanding := outstanding[id := d];
      nrDispatched := nrDispatched + 1;
    }

    /** The loop of as_add_rq_rb: what stands at the position goes first.  It
        turns at most once. */
    method Clear(d: Dir, pos: nat, end: nat)
      requires Taken(lane.At(d).sort, pos) ==> Clears(lane.At(d), Alias(lane.At(d).sort, pos), pos, end)
      modifies this
      ensures !Taken(lane.At(d).sort, pos)
      ensures if Taken(old(lane).At(d).sort, pos)
              then View() == MoveToDispatch(cfg, old(View()), d, Alias(old(lane).At(d).sort, pos), end)
              else View() == old(View())
    {
      hide Taken, MoveToDispatch;
      ghost var turns := 0;
      while Taken(lane.At(d).sort, pos)
        invariant turns <= 1
        invariant turns == 0 ==> View() == old(View())
        invariant turns == 1 ==>
                    && Taken(old(lane).At(d).sort, pos) && !Taken(lane.At(d).sort, pos)
                    && Queued(old(lane).At(d), Alias(old(lane).At(d).sort, pos))
                    && View() == MoveToDispatch(cfg, old(View()), d, Alias(old(lane).At(d).sort, pos), end)
        decreases 1 - turns
      {
        var alias := Alias(lane.At(d).sort, pos);
        assert Clears(lane.At(d), alias, pos, end);
        MovedLane(cfg, View(), d, alias, end);
        Move(d, alias, end);
        AnticStop();
        turns := turns + 1;
      }
    }

    /** as_add_request. */
    method AddRequest(d: Dir, n: Node, canBreak: bool, end: nat)
      requires Inv(View()) && Enabled(View(), Adding(d, n, canBreak, end))
      modifies this
      ensures View() == Apply(cfg, old(View()), Adding(d, n, canBreak, end)) && Inv(View())
    {
      hide MoveToDispatch, Taken, AddQueued;
      AddKeeps(cfg, View(), d, n, canBreak, end);
      NextInLane(lane.At(d));
      if Taken(lane.At(d).sort, n.pos) {
        AliasMoves(lane.At(d), n.pos, end);
        MovedLane(cfg, View(), d, Alias(lane.At(d).sort, n.pos), end);
      }
      Clear(d, n.pos, end);
      lane := lane.Put(d, AddQueued(lane.At(d), n, Choice(lastSector.At(d))));
      if Waiting(wait) {
        if canBreak {
          AnticStop();
        }
      }
    }

    /** as_merged_request after a front merge. */
    method Front(d: Dir, id: nat, pos: nat, end: nat)
      requires Inv(View()) && Enabled(View(), Fronting(d, id, pos, end))
      modifies this
      ensures View() == Apply(cfg, old(View()), Fronting(d, id, pos, end)) && Inv(View())
    {
      hide MoveToDispatch, Taken, Insert, FrontMerged, LaneFit, Clears, TreeWithout, TreeIds;
      FrontMergedKeeps(cfg, View(), d, id, pos, end);
      FrontShape(cfg, View(), d, id, pos, end);
      var l := lane.At(d);
      lane := lane.Put(d, l.(sort := TreeWithout(l, id)));
      Clear(d, pos, end);
      lane := lane.Put(d, lane.At(d).(sort := Insert(lane.At(d).sort, Node(id, pos))));
    }

    /** The selection of a read batch. */
    method StartReads()
      modifies this`batch
      ensures batch == SwitchTo(old(batch), Read)
    {
      if batch.dir == Write {
        batch := batch.(changed := true);
      }
      batch := batch.(dir := Read);
    }

    /** The selection of a write batch. */
    method StartWrites()
      modifies this`batch
      ensures batch == SwitchTo(old(batch), Write)
    {
      if batch.dir == Read {
        batch := batch.(changed := true, newBatch := false);
      }
      batch := batch.(dir := Write, writeCount := if batch.batchCount >= 0 then batch.batchCount else 0,
                      idled := false);
    }

    /** as_dispatch_request up to the label dispatch_request: done when the
        call is over without a request. */
    method Select(o: Oracle) returns (done: bool, next: Ref, skip: bool)
      requires Performable(View(), Decide(cfg, View(), o)) && !Decide(cfg, View(), o).Bug?
      modifies this`batch, this`wait
      ensures var p := Decide(cfg, old(View()), o);
              if p.Go? then !done && p == Go(batch, next, skip) && wait == old(wait)
              else done && View() == DispatchRequest(cfg, old(View()), o).st
    {
      hide BatchOver, Performable;
      done, next, skip := true, Null, false;
      var someReads, someWrites := lane.read.fifo != [], lane.write.fifo != [];
      if batch.dir == Write && !someReads {
        if batch.writeCount == 0 || !someWrites {
          batch := batch.(idled := true);
        }
      }
      if !(someReads || someWrites) || Waiting(wait) || batch.changed {
        return;
      }
      if !(someReads && someWrites && BatchOver(batch, o)) {
        next := lane.At(batch.dir).next;
        if batch.dir == Read && cfg.anticipates {
          if o.syncExpired && someReads {
            return false, To(lane.read.fifo[0]), true;
          } else if CanAnticipate(wait, o) {
            wait := WaitForRequest(wait);
            return;
          }
        }
      }
      if next == Null {
        if someReads && !(someWrites && batch.dir == Read) {
          StartReads();
          next := To(lane.read.fifo[0]);
        } else {
          StartWrites();
          next := To(lane.write.fifo[0]);
        }
      }
      done := false;
    }

    /** as_dispatch_request, not forced. */
    method Dispatch(o: Oracle) returns (rq: Ref)
      requires Inv(View())
      modifies this
      ensures View() == Apply(cfg, old(View()), Dispatching(o)) && Inv(View())
      ensures Performable(old(View()), Decide(cfg, old(View()), o)) && rq == DispatchRequest(cfg, old(View()), o).rq
    {
      hide Inv, MoveToDispatch, Queued, TreeIds, Decide, Performable;
      ghost var v := View();
      DispatchKeeps(cfg, v, o);
      DecideOk(cfg, v, o);
      if Decide(cfg, v, o).Go? {
        CandidateQueued(cfg, v, o);
      }
      var done, next, skip := Select(o);
      if done {
        return Null;
      }
      if !skip && o.headExpired && lane.At(batch.dir).fifo != [] {
        next := To(lane.At(batch.dir).fifo[0]);
      }
      if batch.changed {
        if nrDispatched != 0 {
          return Null;
        }
        if batch.dir == Read {
          batch := batch.(newBatch := true);
        }
        batch := batch.(changed := false);
      }
      Move(batch.dir, next.id, o.end);
      rq := next;
    }

    /** One loop of the forced dispatch. */
    method DrainSide(d: Dir, ends: nat -> nat) returns (n: nat)
      requires LaneFit(lane.At(d))
      modifies this
      ensures View() == Drain(cfg, old(View()), d, ends) && n == nrDispatched - old(nrDispatched)
    {
      hide MoveToDispatch, LaneFit, LaneOk, Drain;
      n := 0;
      while lane.At(d).next != Null
        invariant LaneFit(lane.At(d)) && Drain(cfg, View(), d, ends) == Drain(cfg, old(View()), d, ends)
        invariant n == nrDispatched - old(nrDispatched)
        decreases |lane.At(d).sort|
      {
        var id := lane.At(d).next.id;
        MoveNext(cfg, View(), d, ends(id));
        NextInOrder(MoveToDispatch(cfg, View(), d, id, ends(id)).lane.At(d));
        DrainStep(cfg, View(), d, ends);
        Move(d, id, ends(id));
        n := n + 1;
      }
      NoNextNoDrain(cfg, View(), d, ends);
    }

    /** as_dispatch_request, forced. */
    method ForcedDispatch(ends: nat -> nat) returns (n: nat)
      requires Inv(View())
      modifies this
      ensures View() == Forced(cfg, old(View()), ends) && n == nrDispatched - old(nrDispatched)
      ensures LaneOk(old(lane).read) && LaneOk(old(lane).write) ==>
                lane.read.sort == [] && lane.read.fifo == [] && lane.write.sort == [] && lane.write.fifo == []
    {
      hide LaneFit, LaneOk, Drain;
      ForcedEmptiesIff(cfg, View(), ends);
      batch := batch.(dir := Read, changed := false, newBatch := false);
      DrainEmptiesIff(cfg, View(), Read, ends);
      n := DrainSide(Read, ends);
      var m := DrainSide(Write, ends);
      n := n + m;
    }

    /** as_completed_request. */
    method Completed(id: nat, took: nat, target: nat)
      requires Inv(View()) && id in outstanding
      modifies this
      ensures View() == Apply(cfg, old(View()), Completing(id, took, target)) && Inv(View())
    {
      CompleteKeeps(cfg, View(), id, took, target);
      if batch.changed && nrDispatched == 1 {
        batch := batch.(changed := false);
        if batch.dir == Read {
          batch := batch.(newBatch := true);
        }
      }
      nrDispatched := nrDispatched - 1;
      if batch.newBatch && batch.dir == outstanding[id] {
        batch := ResizeBatch(batch, took, target);
        batch := batch.(newBatch := false);
      }
      outstanding := outstanding - {id};
      if wait.ioc == cfg.ioc(id) && wait.ioc != Null {
        wait := wait.(iocFinished := true);
        if wait.antic == WaitReq {
          wait := wait.(antic := WaitNext);
        }
      }
    }
  }
}
