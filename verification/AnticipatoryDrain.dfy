/**
 Forced dispatch of the anticipatory scheduler, which elv_drain_elevator relies
 on: each direction is emptied by following next_rq, so it is emptied if and
 only if next_rq has not been lost.
 */
module AnticipatoryDrain {
  import opened RbTree
  import opened Lanes
  import opened Anticipatory
  import opened AnticipatoryProofs

  /** What moving the next request leaves behind. */
  lemma {:induction false} MoveNext(cfg: Config, st: State, d: Dir, end: nat)
    requires LaneFit(st.lane.At(d)) && st.lane.At(d).next != Null
    ensures Queued(st.lane.At(d), st.lane.At(d).next.id)
    ensures var id := st.lane.At(d).next.id; var m := MoveToDispatch(cfg, st, d, id, end);
            && LaneOk(m.lane.At(d)) && TreeIds(m.lane.At(d).sort) == TreeIds(st.lane.At(d).sort) - {id}
            && |m.lane.At(d).sort| == |st.lane.At(d).sort| - 1 && m.lane.At(Other(d)) == st.lane.At(Other(d))
            && m.outstanding == st.outstanding[id := d] && m.nrDispatched == st.nrDispatched + 1
            && m.batch == st.batch.(writeCount := m.batch.writeCount)
  {
    hide FindNext, LaneOk, TreeIds;
    MoveLane(st.lane.At(d), st.lane.At(d).next.id, end);
  }

  /** One loop of the forced dispatch; `ends` is where each request ends. */
  function Drain(cfg: Config, st: State, d: Dir, ends: nat -> nat): State
    requires LaneFit(st.lane.At(d))
    decreases |st.lane.At(d).sort|
  {
    var l := st.lane.At(d);
    if l.next == Null then st
    else
      MoveNext(cfg, st, d, ends(l.next.id));
      Drain(cfg, MoveToDispatch(cfg, st, d, l.next.id, ends(l.next.id)), d, ends)
  }

  /** It empties the direction if and only if next was in order; what leaves the
      tree is outstanding. */
  lemma {:induction false} DrainEmptiesIff(cfg: Config, st: State, d: Dir, ends: nat -> nat)
    requires LaneFit(st.lane.At(d))
    ensures var s := Drain(cfg, st, d, ends);
            && (s.lane.At(d).sort == [] <==> LaneOk(st.lane.At(d))) && (!LaneOk(st.lane.At(d)) ==> s == st)
            && LaneFit(s.lane.At(d)) && s.lane.At(Other(d)) == st.lane.At(Other(d))
            && s.batch == st.batch.(writeCount := s.batch.writeCount)
            && TreeIds(s.lane.At(d).sort) <= TreeIds(st.lane.At(d).sort)
            && s.outstanding.Keys == st.outstanding.Keys + (TreeIds(st.lane.At(d).sort) - TreeIds(s.lane.At(d).sort))
    decreases |st.lane.At(d).sort|
  {
    hide TreeIds, Drain, LaneFit, LaneOk, MoveToDispatch;
    var l := st.lane.At(d);
    NextInOrder(l);
    if l.next != Null {
      MoveNext(cfg, st, d, ends(l.next.id));
      var m := MoveToDispatch(cfg, st, d, l.next.id, ends(l.next.id));
      NextInOrder(m.lane.At(d));
      DrainStep(cfg, st, d, ends);
      DrainEmptiesIff(cfg, m, d, ends);
    } else {
      NoNextNoDrain(cfg, st, d, ends);
    }
  }

  lemma {:induction false} DrainStep(cfg: Config, st: State, d: Dir, ends: nat -> nat)
    requires LaneFit(st.lane.At(d)) && st.lane.At(d).next != Null
    ensures var id := st.lane.At(d).next.id;
            && Queued(st.lane.At(d), id) && LaneFit(MoveToDispatch(cfg, st, d, id, ends(id)).lane.At(d))
            && Drain(cfg, st, d, ends) == Drain(cfg, MoveToDispatch(cfg, st, d, id, ends(id)), d, ends)
  {
    MoveNext(cfg, st, d, ends(st.lane.At(d).next.id));
  }

  lemma {:induction false} NoNextNoDrain(cfg: Config, st: State, d: Dir, ends: nat -> nat)
    requires LaneFit(st.lane.At(d)) && st.lane.At(d).next == Null
    ensures Drain(cfg, st, d, ends) == st
  {
  }

  lemma {:induction false} NextInOrder(l: Lane)
    requires LaneFit(l) || LaneOk(l)
    ensures LaneFit(l) && (LaneOk(l) <==> l.next != Null || l.sort == [])
    ensures l.next != Null ==> l.sort != [] && l.next.id in TreeIds(l.sort)
  {
  }

  /** as_dispatch_request with force: the batch is reset and both directions are drained. */
  function Forced(cfg: Config, st: State, ends: nat -> nat): State
    requires LaneFit(st.lane.read) && LaneFit(st.lane.write)
  {
    var s0 := st.(batch := st.batch.(dir := Read, changed := false, newBatch := false));
    DrainEmptiesIff(cfg, s0, Read, ends);
    Drain(cfg, Drain(cfg, s0, Read, ends), Write, ends)
  }

  /** Forced dispatch leaves nothing behind if and only if next_rq is in order
      on both sides, and loses no request. */
  lemma {:induction false} ForcedEmptiesIff(cfg: Config, st: State, ends: nat -> nat)
    requires Inv(st)
    ensures var s := Forced(cfg, st, ends);
            && (s.lane.read.sort == [] <==> LaneOk(st.lane.read))
            && (s.lane.write.sort == [] <==> LaneOk(st.lane.write))
            && (s.lane.read.fifo == [] <==> s.lane.read.sort == [])
            && (s.lane.write.fifo == [] <==> s.lane.write.sort == [])
            && s.outstanding.Keys + TreeIds(s.lane.read.sort) + TreeIds(s.lane.write.sort)
               == st.outstanding.Keys + TreeIds(st.lane.read.sort) + TreeIds(st.lane.write.sort)
  {
    hide LaneFit, LaneOk, TreeIds, Drain;
    var s0 := st.(batch := st.batch.(dir := Read, changed := false, newBatch := false));
    DrainEmptiesIff(cfg, s0, Read, ends);
    var s1 := Drain(cfg, s0, Read, ends);
    DrainEmptiesIff(cfg, s1, Write, ends);
    var s := Forced(cfg, st, ends);
    LaneOffers(s.lane.read);
    LaneOffers(s.lane.write);
    Conserved(s0, s1, s);
  }

  lemma {:induction false} Conserved(s0: State, s1: State, s: State)
    requires s1.outstanding.Keys == s0.outstanding.Keys + (TreeIds(s0.lane.read.sort) - TreeIds(s1.lane.read.sort))
    requires s.outstanding.Keys == s1.outstanding.Keys + (TreeIds(s1.lane.write.sort) - TreeIds(s.lane.write.sort))
    requires s1.lane.write == s0.lane.write && s.lane.read == s1.lane.read
    requires TreeIds(s1.lane.read.sort) <= TreeIds(s0.lane.read.sort)
    requires TreeIds(s.lane.write.sort) <= TreeIds(s1.lane.write.sort)
    ensures s.outstanding.Keys + TreeIds(s.lane.read.sort) + TreeIds(s.lane.write.sort)
            == s0.outstanding.Keys + TreeIds(s0.lane.read.sort) + TreeIds(s0.lane.write.sort)
  {
  }

  /** A front merge onto the position of another request loses next_rq when
      those two were all: the drain then leaves the merged request behind. */
  lemma {:induction false} FrontMergeDefeatsDrain(cfg: Config, st: State, d: Dir, id: nat, pos: nat, end: nat,
                                                  ends: nat -> nat)
    requires Inv(st) && d == OldDir(st.batch) && id in TreeIds(st.lane.At(d).sort)
    requires Taken(TreeWithout(st.lane.At(d), id), pos)
    ensures Inv(FrontMerged(cfg, st, d, id, pos, end))
    ensures var s := Forced(cfg, FrontMerged(cfg, st, d, id, pos, end), ends);
            && (s.lane.At(d).sort == [] <==> |st.lane.At(d).sort| > 2)
            && (|st.lane.At(d).sort| == 2 ==> id in TreeIds(s.lane.At(d).sort))
  {
    hide LaneFit, LaneOk, TreeIds, Forced, AliasedLane, Taken, TreeWithout, MoveToDispatch;
    FrontAliasIff(cfg, st, d, id, pos, end);
    AliasedLaneOk(st.lane.At(d), id, pos, end);
    AliasThere(st.lane.At(d), id, pos);
    var f := FrontMerged(cfg, st, d, id, pos, end);
    ForcedEmptiesIff(cfg, f, ends);
    ForcedLeaves(cfg, f, d, ends);
  }

  lemma {:induction false} ForcedLeaves(cfg: Config, st: State, d: Dir, ends: nat -> nat)
    requires Inv(st)
    ensures !LaneOk(st.lane.At(d)) ==> Forced(cfg, st, ends).lane.At(d) == st.lane.At(d)
  {
    hide LaneFit, LaneOk, TreeIds, Drain;
    var s0 := st.(batch := st.batch.(dir := Read, changed := false, newBatch := false));
    DrainEmptiesIff(cfg, s0, Read, ends);
    DrainEmptiesIff(cfg, Drain(cfg, s0, Read, ends), Write, ends);
  }

  // ---------------------------------------------------------------- batches after a forced dispatch

  /** New entries all have direction d. */
  predicate Joined(a: map<nat, Dir>, b: map<nat, Dir>, d: Dir) {
    && (forall x :: x in a ==> x in b)
    && forall x :: x in b ==> b[x] == if x in a then a[x] else d
  }

  lemma {:induction false} OnlyReads(a: map<nat, Dir>, b: map<nat, Dir>, c: map<nat, Dir>, next: Ref)
    requires Joined(a, b, Read) && Joined(b, c, Write)
    requires if next == Null then c == b else next.id in c && next.id !in b
    ensures (forall x :: x in c ==> c[x] == Read) <==> next == Null && forall x :: x in a ==> a[x] == Read
  {
    if next != Null { assert c[next.id] == Write; }
    assert forall x :: x in a ==> x in b && x in c && c[x] == a[x];
  }

  /** Every request moved has the direction drained. */
  lemma {:induction false} DrainedKind(cfg: Config, st: State, d: Dir, ends: nat -> nat)
    requires LaneFit(st.lane.At(d)) && st.nrDispatched == |st.outstanding|
    requires forall x :: x in st.outstanding ==> x !in TreeIds(st.lane.At(d).sort)
    ensures var s := Drain(cfg, st, d, ends);
            && s.nrDispatched == |s.outstanding|
            && Joined(st.outstanding, s.outstanding, d)
            && (st.lane.At(d).next != Null ==>
                  st.lane.At(d).next.id in s.outstanding && st.lane.At(d).next.id !in st.outstanding)
    decreases |st.lane.At(d).sort|
  {
    hide TreeIds, Drain, LaneFit, LaneOk, MoveToDispatch;
    var l := st.lane.At(d);
    if l.next != Null {
      MoveNext(cfg, st, d, ends(l.next.id));
      var m := MoveToDispatch(cfg, st, d, l.next.id, ends(l.next.id));
      NextInOrder(l);
      MapMore(st.outstanding, l.next.id, d);
      assert l.next.id in m.outstanding;
      DrainStep(cfg, st, d, ends);
      DrainedKind(cfg, m, d, ends);
    } else {
      NoNextNoDrain(cfg, st, d, ends);
    }
  }

  lemma {:induction false} ForcedKinds(cfg: Config, st: State, ends: nat -> nat) returns (mid: map<nat, Dir>)
    requires LanesOk(st.lane, st.outstanding) && st.nrDispatched == |st.outstanding|
    ensures var s := Forced(cfg, st, ends);
            && s.nrDispatched == |s.outstanding|
            && Joined(st.outstanding, mid, Read) && Joined(mid, s.outstanding, Write)
            && (if st.lane.write.next == Null then s.outstanding == mid
                else st.lane.write.next.id in s.outstanding && st.lane.write.next.id !in mid)
            && OldDir(s.batch) == Read && !s.batch.changed && !s.batch.newBatch
            && s.batch.batchCount == st.batch.batchCount
  {
    hide LaneFit, LaneOk, TreeIds, Drain, Joined;
    var s0 := st.(batch := st.batch.(dir := Read, changed := false, newBatch := false));
    var s1 := Drain(cfg, s0, Read, ends);
    mid := s1.outstanding;
    DrainEmptiesIff(cfg, s0, Read, ends);
    DrainedKind(cfg, s0, Read, ends);
    assert forall x :: x in s1.outstanding.Keys ==> x in s1.outstanding;
    assert forall x :: x in s1.outstanding ==> x !in TreeIds(s1.lane.write.sort);
    DrainEmptiesIff(cfg, s1, Write, ends);
    DrainedKind(cfg, s1, Write, ends);
    if st.lane.write.next == Null { NoNextNoDrain(cfg, s1, Write, ends); }
  }

  /** A forced dispatch keeps the batches apart if and only if no write was at
      the driver and none was dispatched. */
  lemma {:induction false} ForcedMixesIff(cfg: Config, st: State, ends: nat -> nat)
    requires Inv(st)
    ensures var s := Forced(cfg, st, ends);
            Unmixed(s.batch, s.outstanding, s.nrDispatched) <==>
              st.lane.write.next == Null && forall x :: x in st.outstanding ==> st.outstanding[x] == Read
  {
    hide LaneFit, LaneOk, TreeIds, Forced, Joined;
    var mid := ForcedKinds(cfg, st, ends);
    OnlyReads(st.outstanding, mid, Forced(cfg, st, ends).outstanding, st.lane.write.next);
  }
}
