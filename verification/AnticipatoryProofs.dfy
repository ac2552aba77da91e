/** Batches never mix, and the state machine never reaches one of its traps. */
module AnticipatoryProofs {
  import opened RbTree
  import opened Lanes
  import opened Anticipatory

  // ---------------------------------------------------------------- the invariant

  /** The direction of whatever the driver holds. */
  function OldDir(b: Batch): Dir { if b.changed then Other(b.dir) else b.dir }

  /** Batches do not mix: all outstanding requests belong to the batch that
      runs, or, while a switch is pending, to the one that drains. */
  predicate Unmixed(b: Batch, out: map<nat, Dir>, nr: int) {
    && (forall x :: x in out ==> out[x] == OldDir(b))
    && nr == |out| && (b.changed ==> nr > 0)
    && (b.newBatch ==> b.dir == Read && !b.changed)
    && b.batchCount >= 1
  }

  /** A process is waited for only if there is one, and for its request only
      until one has finished. */
  predicate WaitOk(w: Wait) {
    (Waiting(w) ==> w.ioc != Null) && (w.antic == WaitReq ==> !w.iocFinished)
  }

  ghost predicate LanesOk(lane: Pair<Lane>, out: map<nat, Dir>) {
    && LaneFit(lane.read) && LaneFit(lane.write) && TreeIds(lane.read.sort) !! TreeIds(lane.write.sort)
    && forall x :: x in out ==> x !in TreeIds(lane.read.sort) && x !in TreeIds(lane.write.sort)
  }

  ghost predicate Inv(st: State) {
    LanesOk(st.lane, st.outstanding) && Unmixed(st.batch, st.outstanding, st.nrDispatched) && WaitOk(st.wait)
  }

  // ---------------------------------------------------------------- the steps

  lemma {:induction false} ChoicePicks(last: nat)
    ensures Picks(Choice(last))
  {
  }

  predicate Fresh(st: State, id: nat) {
    id !in TreeIds(st.lane.read.sort) && id !in TreeIds(st.lane.write.sort) && id !in st.outstanding
  }

  lemma {:induction false} AddFreeKeeps(st: State, d: Dir, n: Node, canBreak: bool)
    requires Inv(st) && !Taken(st.lane.At(d).sort, n.pos) && Fresh(st, n.id)
    ensures Inv(AddFree(st, d, n, canBreak))
  {
    hide LaneFit, TreeIds, AddQueued, Taken, Unmixed;
    NextInLane(st.lane.At(d));
    ChoicePicks(st.lastSector.At(d));
    AddQueuedOk(st.lane.At(d), n, Choice(st.lastSector.At(d)));
  }

  lemma {:induction false} MergedKeeps(cfg: Config, st: State, d: Dir, req: nat, next: nat, earlier: bool)
    requires Inv(st) && Queued(st.lane.At(d), req) && Queued(st.lane.At(d), next) && req != next
    ensures Inv(Merged(st, d, req, next, earlier))
  {
    hide LaneFit, TreeIds, MergeQueued, Unmixed, WaitOk;
    ChoicePicks(st.lastSector.At(d));
    MergeQueuedOk(st.lane.At(d), req, next, earlier, Choice(st.lastSector.At(d)));
  }

  lemma {:induction false} MapLess(m: map<nat, Dir>, x: nat)
    requires x in m
    ensures |m - {x}| == |m| - 1
  {
  }

  lemma {:induction false} MapMore(m: map<nat, Dir>, x: nat, d: Dir)
    requires x !in m
    ensures |m[x := d]| == |m| + 1
  {
  }

  /** The request moved joins requests of its own direction. */
  lemma {:induction false} MoveKeeps(cfg: Config, st: State, d: Dir, id: nat, end: nat)
    requires LanesOk(st.lane, st.outstanding) && Unmixed(st.batch, st.outstanding, st.nrDispatched)
             && d == OldDir(st.batch)
    requires id in TreeIds(st.lane.At(d).sort)
    ensures Queued(st.lane.At(d), id) && Inv(MoveToDispatch(cfg, st, d, id, end))
    ensures var m := MoveToDispatch(cfg, st, d, id, end);
            m.lane == st.lane.Put(d, m.lane.At(d)) && TreeIds(m.lane.At(d).sort) == TreeIds(st.lane.At(d).sort) - {id}
  {
    hide LaneFit, TreeIds, RemoveQueued, FindNext;
    MoveLane(st.lane.At(d), id, end);
    MapMore(st.outstanding, id, d);
    assert id in st.outstanding[id := d];
  }

  /** as_move_to_dispatch refreshes next before it removes the request. */
  lemma {:induction false} MoveLane(l: Lane, id: nat, end: nat)
    requires LaneFit(l) && id in TreeIds(l.sort)
    ensures Queued(l, id) && Queued(l.(next := FindNext(l.sort, id, Choice(end))), id)
    ensures var l1 := RemoveQueued(l.(next := FindNext(l.sort, id, Choice(end))), id, Choice(end));
            LaneOk(l1) && TreeIds(l1.sort) == TreeIds(l.sort) - {id}
  {
    assert id in FifoSet(l.fifo);
    ChoicePicks(end);
    FindNextOk(l.sort, id, Choice(end));
    WithoutNode(l.sort, NodeAt(l.sort, id));
    WithoutId(l.fifo, Index(l.fifo, id));
  }

  /** A dispatch call never reaches its BUG, and what it selects is queued in
      the direction of the batch. */
  lemma {:induction false} DecideOk(cfg: Config, st: State, o: Oracle)
    requires Inv(st)
    ensures var p := Decide(cfg, st, o); Performable(st, p) && !p.Bug?
    ensures var p := Decide(cfg, st, o); p.Go? ==> Candidate(st, p, o) in TreeIds(st.lane.At(p.batch.dir).sort)
  {
    hide LaneFit, Queued, TreeIds, Unmixed, WaitOk, BatchOver, CanAnticipate;
    LaneOffers(st.lane.read);
    LaneOffers(st.lane.write);
  }

  /** The batch after the selection: the one that runs, or a new one that may
      have to wait for the old one. */
  lemma {:induction false} SelectedBatch(cfg: Config, st: State, o: Oracle)
    requires Inv(st) && Decide(cfg, st, o).Go?
    ensures var b := Decide(cfg, st, o).batch;
            && !st.batch.changed && OldDir(b) == st.batch.dir && b.batchCount == st.batch.batchCount
            && (b.newBatch ==> b.dir == Read && !b.changed)
  {
    hide LanesOk, WaitOk, BatchOver, CanAnticipate;
  }

  lemma {:induction false} GoKeeps(cfg: Config, st: State, o: Oracle)
    requires Inv(st) && Decide(cfg, st, o).Go?
    ensures Performable(st, Decide(cfg, st, o)) && Inv(DispatchRequest(cfg, st, o).st)
  {
    hide LanesOk, Decide, Candidate, MoveToDispatch;
    DecideOk(cfg, st, o);
    SelectedBatch(cfg, st, o);
    var p := Decide(cfg, st, o);
    var c := p.batch;
    if !(c.changed && st.nrDispatched != 0) {
      var c1 := if c.changed then c.(changed := false, newBatch := c.newBatch || c.dir == Read) else c;
      MoveKeeps(cfg, st.(batch := c1), c1.dir, Candidate(st, p, o), o.end);
    }
  }

  lemma {:induction false} DispatchKeeps(cfg: Config, st: State, o: Oracle)
    requires Inv(st)
    ensures Performable(st, Decide(cfg, st, o)) && Inv(DispatchRequest(cfg, st, o).st)
  {
    hide LanesOk, BatchOver, Candidate, MoveToDispatch;
    if Decide(cfg, st, o).Go? {
      GoKeeps(cfg, st, o);
    }
  }

  lemma {:induction false} CompleteKeeps(cfg: Config, st: State, id: nat, took: nat, target: nat)
    requires Inv(st) && id in st.outstanding
    ensures Inv(Complete(cfg, st, id, took, target))
  {
    hide LaneFit, TreeIds;
    MapLess(st.outstanding, id);
  }

  // ---------------------------------------------------------------- positions already taken

  /** The request at a position. */
  function Alias(t: seq<Node>, pos: nat): nat
    requires Taken(t, pos)
  {
    t[Place(t, pos)].id
  }

  /** Moving it away frees the position. */
  lemma {:induction false} AliasMoves(l: Lane, pos: nat, end: nat)
    requires LaneFit(l) && Taken(l.sort, pos)
    ensures var a := Alias(l.sort, pos);
            && a in TreeIds(l.sort) && Queued(l, a) && Queued(l.(next := FindNext(l.sort, a, Choice(end))), a)
            && var l1 := RemoveQueued(l.(next := FindNext(l.sort, a, Choice(end))), a, Choice(end));
               LaneFit(l1) && !Taken(l1.sort, pos) && (l1.next == Null || l1.next.id in TreeIds(l1.sort))
  {
    hide FindNext, LaneFit;
    var a := Alias(l.sort, pos);
    assert l.sort[Place(l.sort, pos)] in l.sort;
    MoveLane(l, a, end);
    assert Ascending(l.sort) && DistinctNodes(l.sort) by { LaneSorted(l); }
    FreedPlace(l.sort, pos);
    NextInLane(RemoveQueued(l.(next := FindNext(l.sort, a, Choice(end))), a, Choice(end)));
  }

  lemma {:induction false} LaneSorted(l: Lane)
    requires LaneFit(l)
    ensures Ascending(l.sort) && DistinctNodes(l.sort)
  {
  }

  /** as_add_request: a request already at the position is moved out of the way. */
  function Add(cfg: Config, st: State, d: Dir, n: Node, canBreak: bool, end: nat): State
    requires LaneFit(st.lane.At(d))
  {
    var l := st.lane.At(d);
    if Taken(l.sort, n.pos) then
      AliasMoves(l, n.pos, end);
      AddFree(MoveToDispatch(cfg, st, d, Alias(l.sort, n.pos), end), d, n, canBreak)
    else
      NextInLane(l);
      AddFree(st, d, n, canBreak)
  }

  /** An insertion that moves a request out of the way keeps the batches apart
      if and only if it is of the direction the driver holds. */
  lemma {:induction false} AliasMixesIff(cfg: Config, st: State, d: Dir, n: Node, canBreak: bool, end: nat)
    requires Inv(st) && Fresh(st, n.id) && Taken(st.lane.At(d).sort, n.pos)
    ensures var s := Add(cfg, st, d, n, canBreak, end);
            Unmixed(s.batch, s.outstanding, s.nrDispatched) <==> d == OldDir(st.batch)
    ensures d == OldDir(st.batch) ==> Inv(Add(cfg, st, d, n, canBreak, end))
  {
    hide LaneFit, TreeIds, RemoveQueued, FindNext, AddQueued, Taken;
    var l := st.lane.At(d);
    var a := Alias(l.sort, n.pos);
    AliasMoves(l, n.pos, end);
    var m := MoveToDispatch(cfg, st, d, a, end);
    if d == OldDir(st.batch) {
      MoveKeeps(cfg, st, d, a, end);
      AliasGone(st, d, n, a, m);
      AddFreeKeeps(m, d, n, canBreak);
    } else {
      assert a in m.outstanding && m.outstanding[a] == d && OldDir(m.batch) == OldDir(st.batch);
    }
  }

  lemma {:induction false} AliasGone(st: State, d: Dir, n: Node, a: nat, m: State)
    requires Fresh(st, n.id) && a in TreeIds(st.lane.At(d).sort) && m.outstanding == st.outstanding[a := d]
    requires m.lane == st.lane.Put(d, m.lane.At(d)) && TreeIds(m.lane.At(d).sort) == TreeIds(st.lane.At(d).sort) - {a}
    ensures Fresh(m, n.id)
  {
  }

  lemma {:induction false} AddKeeps(cfg: Config, st: State, d: Dir, n: Node, canBreak: bool, end: nat)
    requires Inv(st) && Fresh(st, n.id) && (Taken(st.lane.At(d).sort, n.pos) ==> d == OldDir(st.batch))
    ensures Inv(Add(cfg, st, d, n, canBreak, end))
  {
    if Taken(st.lane.At(d).sort, n.pos) {
      AliasMixesIff(cfg, st, d, n, canBreak, end);
    } else {
      AddFreeKeeps(st, d, n, canBreak);
    }
  }

  // ---------------------------------------------------------------- front merges

  /** The tree without a request that is about to be put back. */
  function TreeWithout(l: Lane, id: nat): seq<Node>
    requires id in TreeIds(l.sort)
  {
    Without(l.sort, NodeAt(l.sort, id))
  }

  /** as_merged_request after a front merge: the request moves to its new
      position; next is left alone. */
  function Fronted(st: State, d: Dir, id: nat, pos: nat): State
    requires id in TreeIds(st.lane.At(d).sort)
  {
    var l := st.lane.At(d);
    PutLane(st, d, l.(sort := Insert(TreeWithout(l, id), Node(id, pos))))
  }

  lemma {:induction false} FrontedLane(l: Lane, id: nat, pos: nat)
    requires LaneFit(l) && id in TreeIds(l.sort) && !Taken(TreeWithout(l, id), pos)
    ensures var l1 := l.(sort := Insert(TreeWithout(l, id), Node(id, pos)));
            LaneFit(l1) && TreeIds(l1.sort) == TreeIds(l.sort)
  {
    WithoutNode(l.sort, NodeAt(l.sort, id));
    InsertOk(TreeWithout(l, id), Node(id, pos));
    assert Insert(TreeWithout(l, id), Node(id, pos)) != [];
  }

  lemma {:induction false} FrontKeeps(st: State, d: Dir, id: nat, pos: nat)
    requires Inv(st) && id in TreeIds(st.lane.At(d).sort) && !Taken(TreeWithout(st.lane.At(d), id), pos)
    ensures Inv(Fronted(st, d, id, pos))
  {
    hide LaneFit, TreeIds, Unmixed, WaitOk;
    FrontedLane(st.lane.At(d), id, pos);
  }

  /** The lane after a front merge onto the position of another request, which
      is moved out of the way while the merged one is off the tree. */
  function AliasedLane(l: Lane, id: nat, pos: nat, end: nat): Lane
    requires LaneFit(l) && id in TreeIds(l.sort) && Taken(TreeWithout(l, id), pos)
  {
    var l0 := l.(sort := TreeWithout(l, id));
    AliasThere(l, id, pos);
    var a := Alias(l0.sort, pos);
    var l1 := RemoveQueued(l0.(next := FindNext(l0.sort, a, Choice(end))), a, Choice(end));
    l1.(sort := Insert(l1.sort, Node(id, pos)))
  }

  lemma {:induction false} AliasThere(l: Lane, id: nat, pos: nat)
    requires LaneFit(l) && id in TreeIds(l.sort) && Taken(TreeWithout(l, id), pos)
    ensures var t := TreeWithout(l, id); var a := Alias(t, pos);
            a in TreeIds(t) && a in l.fifo && a != id && Ascending(t) && DistinctNodes(t)
            && TreeIds(t) == TreeIds(l.sort) - {id}
  {
    WithoutNode(l.sort, NodeAt(l.sort, id));
    var t := TreeWithout(l, id);
    assert t[Place(t, pos)] in t;
    assert Alias(t, pos) in FifoSet(l.fifo);
  }

  /** The code does not look at next again, so next is null although a request
      is queued, unless there was a third one. */
  lemma {:induction false} AliasedLaneOk(l: Lane, id: nat, pos: nat, end: nat)
    requires LaneFit(l) && id in TreeIds(l.sort) && Taken(TreeWithout(l, id), pos)
    ensures var l1 := AliasedLane(l, id, pos, end);
            && LaneFit(l1) && (LaneOk(l1) <==> |l.sort| > 2)
            && TreeIds(l1.sort) == TreeIds(l.sort) - {Alias(TreeWithout(l, id), pos)}
  {
    hide FindNext, AliasedLane, TreeWithout, Alias, Without, Insert, Index, TreeIds, FifoSet, Taken;
    hide Ascending, DistinctNodes, DistinctIds;
    var t := TreeWithout(l, id);
    AliasThere(l, id, pos);
    var a := Alias(t, pos);
    AliasedParts(l, id, pos, end);
    AliasedSort(t, id, pos, a);
    WithoutId(l.fifo, Index(l.fifo, a));
  }

  lemma {:induction false} AliasedSort(t: seq<Node>, id: nat, pos: nat, a: nat)
    requires Ascending(t) && DistinctNodes(t) && Taken(t, pos) && a == Alias(t, pos) && a in TreeIds(t)
             && id !in TreeIds(t)
    ensures var u := Insert(Without(t, NodeAt(t, a)), Node(id, pos));
            Ascending(u) && DistinctNodes(u) && TreeIds(u) == TreeIds(t) - {a} + {id} && u != []
  {
    hide Ascending, DistinctNodes, Taken, TreeIds;
    WithoutNode(t, NodeAt(t, a));
    FreedPlace(t, pos);
    InsertOk(Without(t, NodeAt(t, a)), Node(id, pos));
  }

  lemma {:induction false} AliasedParts(l: Lane, id: nat, pos: nat, end: nat)
    requires LaneFit(l) && id in TreeIds(l.sort) && Taken(TreeWithout(l, id), pos)
    ensures var t := TreeWithout(l, id); var a := Alias(t, pos); var l1 := AliasedLane(l, id, pos, end);
            && a in TreeIds(t) && a in l.fifo && |t| == |l.sort| - 1
            && l1.sort == Insert(Without(t, NodeAt(t, a)), Node(id, pos))
            && l1.fifo == Without(l.fifo, Index(l.fifo, a))
            && (l1.next == Null <==> |t| == 1) && (l1.next != Null ==> l1.next.id in TreeIds(t) && l1.next.id != a)
  {
    hide FindNext, Taken, Insert, Index, LaneFit, TreeIds, Ascending, DistinctNodes;
    AliasThere(l, id, pos);
    ChoicePicks(end);
    FindNextOk(TreeWithout(l, id), Alias(TreeWithout(l, id), pos), Choice(end));
  }

  /** as_merged_request in general. */
  function FrontMerged(cfg: Config, st: State, d: Dir, id: nat, pos: nat, end: nat): State
    requires LaneFit(st.lane.At(d)) && id in TreeIds(st.lane.At(d).sort)
  {
    var l := st.lane.At(d);
    if !Taken(TreeWithout(l, id), pos) then Fronted(st, d, id, pos)
    else
      AliasThere(l, id, pos);
      var m := MoveToDispatch(cfg, PutLane(st, d, l.(sort := TreeWithout(l, id))), d, Alias(TreeWithout(l, id), pos),
                              end);
      PutLane(m, d, AliasedLane(l, id, pos, end))
  }

  /** Such a merge keeps the batches apart, and with them the invariant, if and
      only if it is of the direction the driver holds. */
  lemma {:induction false} FrontAliasIff(cfg: Config, st: State, d: Dir, id: nat, pos: nat, end: nat)
    requires Inv(st) && id in TreeIds(st.lane.At(d).sort) && Taken(TreeWithout(st.lane.At(d), id), pos)
    ensures var s := FrontMerged(cfg, st, d, id, pos, end);
            Unmixed(s.batch, s.outstanding, s.nrDispatched) <==> d == OldDir(st.batch)
    ensures Inv(FrontMerged(cfg, st, d, id, pos, end)) <==> d == OldDir(st.batch)
  {
    hide LaneFit, TreeIds, AliasedLane, TreeWithout, Taken, RemoveQueued, FindNext;
    var l := st.lane.At(d);
    AliasedLaneOk(l, id, pos, end);
    AliasThere(l, id, pos);
    var a := Alias(TreeWithout(l, id), pos);
    assert a !in st.outstanding;
    MapMore(st.outstanding, a, d);
    var m := FrontMerged(cfg, st, d, id, pos, end);
    assert m.outstanding == st.outstanding[a := d] && a in m.outstanding && OldDir(m.batch) == OldDir(st.batch);
  }

  lemma {:induction false} FrontMergedKeeps(cfg: Config, st: State, d: Dir, id: nat, pos: nat, end: nat)
    requires Inv(st) && FrontAllowed(st, d, id, pos)
    ensures Inv(FrontMerged(cfg, st, d, id, pos, end))
  {
    if Taken(TreeWithout(st.lane.At(d), id), pos) {
      FrontAliasIff(cfg, st, d, id, pos, end);
    } else {
      FrontKeeps(st, d, id, pos);
    }
  }

  predicate FrontAllowed(st: State, d: Dir, id: nat, pos: nat) {
    && id in TreeIds(st.lane.At(d).sort)
    && (Taken(TreeWithout(st.lane.At(d), id), pos) ==> d == OldDir(st.batch))
  }

  // ---------------------------------------------------------------- runs

  datatype Step =
    | Adding(dir: Dir, node: Node, canBreak: bool, end: nat)
    | Fronting(dir: Dir, id: nat, pos: nat, end: nat)
    | Merging(dir: Dir, req: nat, next: nat, earlier: bool)
    | Dispatching(oracle: Oracle)
    | Completing(id: nat, took: nat, target: nat)
    | TimingOut

  ghost predicate Enabled(st: State, s: Step) {
    match s
    case Adding(d, n, _, _) => Fresh(st, n.id) && (Taken(st.lane.At(d).sort, n.pos) ==> d == OldDir(st.batch))
    case Fronting(d, id, pos, _) => FrontAllowed(st, d, id, pos)
    case Merging(d, a, b, _) => Queued(st.lane.At(d), a) && Queued(st.lane.At(d), b) && a != b
    case Dispatching(_) => true
    case Completing(id, _, _) => id in st.outstanding
    case TimingOut => st.wait.antic == WaitNext
  }

  function Apply(cfg: Config, st: State, s: Step): State
    requires Inv(st) && Enabled(st, s)
  {
    match s
    case Adding(d, n, canBreak, end) => Add(cfg, st, d, n, canBreak, end)
    case Fronting(d, id, pos, end) => FrontMerged(cfg, st, d, id, pos, end)
    case Merging(d, a, b, earlier) => Merged(st, d, a, b, earlier)
    case Dispatching(o) => DecideOk(cfg, st, o); DispatchRequest(cfg, st, o).st
    case Completing(id, took, target) => Complete(cfg, st, id, took, target)
    case TimingOut => Stopped(st)
  }

  lemma {:induction false} StepKeeps(cfg: Config, st: State, s: Step)
    requires Inv(st) && Enabled(st, s)
    ensures Inv(Apply(cfg, st, s))
  {
    match s
    case Adding(d, n, canBreak, end) => AddKeeps(cfg, st, d, n, canBreak, end);
    case Fronting(d, id, pos, end) => FrontMergedKeeps(cfg, st, d, id, pos, end);
    case Merging(d, a, b, earlier) => MergedKeeps(cfg, st, d, a, b, earlier);
    case Dispatching(o) => DispatchKeeps(cfg, st, o);
    case Completing(id, took, target) => CompleteKeeps(cfg, st, id, took, target);
    case TimingOut =>
  }

  ghost predicate Runs(cfg: Config, st: State, steps: seq<Step>)
    requires Inv(st)
    decreases |steps|
  {
    steps == []
    || (Enabled(st, steps[0]) && (StepKeeps(cfg, st, steps[0]); Runs(cfg, Apply(cfg, st, steps[0]), steps[1..])))
  }

  function Exec(cfg: Config, st: State, steps: seq<Step>): State
    requires Inv(st) && Runs(cfg, st, steps)
    decreases |steps|
  {
    if steps == [] then st else StepKeeps(cfg, st, steps[0]); Exec(cfg, Apply(cfg, st, steps[0]), steps[1..])
  }

  lemma {:induction false} RunKeeps(cfg: Config, st: State, steps: seq<Step>)
    requires Inv(st) && Runs(cfg, st, steps)
    ensures Inv(Exec(cfg, st, steps))
    decreases |steps|
  {
    if steps != [] {
      StepKeeps(cfg, st, steps[0]);
      RunKeeps(cfg, Apply(cfg, st, steps[0]), steps[1..]);
    }
  }

  /** as_init_queue: all zero, so the batch is one of writes, and a first guess
      for its size. */
  function Start(batchCount: int): State {
    State(Pair(Lane([], [], Null), Lane([], [], Null)), Pair(0, 0), Batch(Write, false, false, batchCount, 0, false),
          Wait(Off, Null, false), map[], 0)
  }

  lemma {:induction false} StartOk(cfg: Config, batchCount: int)
    requires batchCount >= 1
    ensures Inv(Start(batchCount))
  {
  }

  // ---------------------------------------------------------------- the theorems

  /** Anticipatory batch switch: after any run, all outstanding requests have
      the direction of the batch, or the opposite one while a switch is
      pending, and a dispatched request joins only its own kind. */
  lemma {:induction false} BatchesNeverMix(cfg: Config, batchCount: int, steps: seq<Step>, o: Oracle)
    requires batchCount >= 1 && Inv(Start(batchCount)) && Runs(cfg, Start(batchCount), steps)
    ensures var st := Exec(cfg, Start(batchCount), steps);
            && (forall x :: x in st.outstanding ==>
                  st.outstanding[x] == if st.batch.changed then Other(st.batch.dir) else st.batch.dir)
            && Performable(st, Decide(cfg, st, o))
            && var r := DispatchRequest(cfg, st, o);
               r.rq != Null ==>
                 r.rq.id in r.st.outstanding
                 && forall x :: x in st.outstanding ==> st.outstanding[x] == r.st.outstanding[r.rq.id]
  {
    RunKeeps(cfg, Start(batchCount), steps);
    DispatchJoinsItsKind(cfg, Exec(cfg, Start(batchCount), steps), o);
  }

  lemma {:induction false} DispatchJoinsItsKind(cfg: Config, st: State, o: Oracle)
    requires Inv(st)
    ensures Performable(st, Decide(cfg, st, o))
    ensures var r := DispatchRequest(cfg, st, o);
            r.rq != Null ==>
              r.rq.id in r.st.outstanding
              && forall x :: x in st.outstanding ==> st.outstanding[x] == r.st.outstanding[r.rq.id]
  {
    DecideOk(cfg, st, o);
    var p := Decide(cfg, st, o);
    if p.Go? {
      SelectedBatch(cfg, st, o);
      if st.nrDispatched == 0 {
        assert st.outstanding == map[];
      }
      hide LanesOk, Decide, WaitOk;
    }
  }

  /** None of the traps of the state machine is reachable: a request is waited
      for from the off state only, the first read of a batch is never awaited
      while batches change, and a process is waited for only if there is one. */
  lemma {:induction false} NoTraps(cfg: Config, st: State, o: Oracle)
    requires Inv(st)
    ensures !Decide(cfg, st, o).Bug?
    ensures Decide(cfg, st, o).Anticipate? ==> st.wait.antic == Off
    ensures st.batch.dir == Write ==> !st.batch.newBatch
    ensures Decide(cfg, st, o).Go? && Decide(cfg, st, o).batch.changed ==> !Decide(cfg, st, o).batch.newBatch
    ensures Waiting(st.wait) ==> st.wait.ioc != Null
  {
    hide LaneFit, BatchOver, TreeIds;
    DecideOk(cfg, st, o);
    if Decide(cfg, st, o).Go? {
      SelectedBatch(cfg, st, o);
    }
  }

  /** Once anticipation is over and nothing is outstanding, the next call
      dispatches, whatever it is told. */
  lemma {:induction false} FinishedFrees(cfg: Config, st: State, o: Oracle)
    requires Inv(st) && (Some(st, Read) || Some(st, Write)) && st.nrDispatched == 0 && st.wait.antic == Finished
    ensures Performable(st, Decide(cfg, st, o)) && DispatchRequest(cfg, st, o).rq != Null
  {
    DecideOk(cfg, st, o);
    hide LanesOk;
  }

  /** The timer runs in WaitNext only.  There, anticipation delays a dispatch by
      at most one timeout. */
  lemma {:induction false} TimeoutFrees(cfg: Config, st: State, o: Oracle)
    requires Inv(st) && (Some(st, Read) || Some(st, Write)) && st.nrDispatched == 0 && st.wait.antic == WaitNext
    ensures var s := Apply(cfg, st, TimingOut);
            Performable(s, Decide(cfg, s, o)) && DispatchRequest(cfg, s, o).rq != Null
  {
    assert Inv(Stopped(st)) by { hide LanesOk, Unmixed; }
    FinishedFrees(cfg, Stopped(st), o);
  }

  /** A write batch in which reads wait is bounded by its count. */
  lemma {:induction false} WriteBatchEnds(cfg: Config, st: State, o: Oracle)
    requires Inv(st) && Some(st, Read) && Some(st, Write) && st.batch.dir == Write && st.batch.writeCount == 0
    ensures Performable(st, Decide(cfg, st, o))
    ensures var r := DispatchRequest(cfg, st, o); r.rq != Null ==> r.st.outstanding[r.rq.id] == Read
  {
  }
}
