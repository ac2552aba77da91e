/**
 Whom the anticipatory scheduler waits for.  While it waits for a request of a
 process to finish, one is outstanding, unless a read without an io context was
 dispatched at the wrong moment.
 */
module AnticipatoryWaits {
  import opened RbTree
  import opened Lanes
  import opened Anticipatory
  import opened AnticipatoryProofs
  import opened AnticipatoryAnswers
  import opened AnticipatoryDrain

  /** The process of the last read has a request outstanding until one of its requests finishes. */
  ghost predicate Somebody(cfg: Config, st: State) {
    st.wait.ioc != Null && !st.wait.iocFinished ==> Busy(cfg, st.wait.ioc, st.outstanding)
  }

  /** A read without a context is moved while nothing of the process before it is outstanding. */
  ghost predicate Orphaned(cfg: Config, st: State, d: Dir, id: nat) {
    d == Read && cfg.ioc(id) == Null && st.wait.ioc != Null && !Busy(cfg, st.wait.ioc, st.outstanding)
  }

  lemma {:induction false} MoveSomebody(cfg: Config, st: State, d: Dir, id: nat, end: nat)
    requires Queued(st.lane.At(d), id) && id !in st.outstanding
    ensures Somebody(cfg, MoveToDispatch(cfg, st, d, id, end)) <==> !Orphaned(cfg, st, d, id)
  {
    hide FindNext, RemoveQueued, Queued;
    var m := MoveToDispatch(cfg, st, d, id, end);
    assert id in m.outstanding;
    if Busy(cfg, st.wait.ioc, st.outstanding) {
      var x :| x in st.outstanding && cfg.ioc(x) == st.wait.ioc;
      assert x in m.outstanding;
    }
  }

  lemma {:induction false} SameSomebody(cfg: Config, st: State, st': State)
    requires st'.wait.ioc == st.wait.ioc && st'.wait.iocFinished == st.wait.iocFinished
             && st'.outstanding == st.outstanding
    ensures Somebody(cfg, st') <==> Somebody(cfg, st)
  {
  }

  lemma {:induction false} CompleteSomebody(cfg: Config, st: State, id: nat, took: nat, target: nat)
    requires Somebody(cfg, st) && id in st.outstanding
    ensures Somebody(cfg, Complete(cfg, st, id, took, target))
  {
    if Busy(cfg, st.wait.ioc, st.outstanding) {
      var x :| x in st.outstanding && cfg.ioc(x) == st.wait.ioc;
      assert x != id ==> x in st.outstanding - {id};
    }
  }

  // ---------------------------------------------------------------- steps

  /** The request a step moves to the dispatch list, if any, and its direction. */
  datatype Sent = Nobody | Sent(dir: Dir, id: nat)

  function SentBy(cfg: Config, st: State, s: Step): Sent
    requires Inv(st) && Enabled(st, s)
  {
    match s
    case Adding(d, n, _, _) =>
      if Taken(st.lane.At(d).sort, n.pos) then Sent.Sent(d, Alias(st.lane.At(d).sort, n.pos)) else Nobody
    case Fronting(d, id, pos, _) =>
      var t := TreeWithout(st.lane.At(d), id);
      if Taken(t, pos) then Sent.Sent(d, Alias(t, pos)) else Nobody
    case Dispatching(o) =>
      DecideOk(cfg, st, o);
      var r := DispatchRequest(cfg, st, o);
      if r.rq == Null then Nobody else Sent.Sent(Decide(cfg, st, o).batch.dir, r.rq.id)
    case _ => Nobody
  }

  ghost predicate Orphans(cfg: Config, st: State, s: Step)
    requires Inv(st) && Enabled(st, s)
  {
    var m := SentBy(cfg, st, s);
    m.Sent? && Orphaned(cfg, st, m.dir, m.id)
  }

  lemma {:induction false} AddSomebody(cfg: Config, st: State, d: Dir, n: Node, canBreak: bool, end: nat)
    requires Inv(st) && Somebody(cfg, st) && Enabled(st, Adding(d, n, canBreak, end))
    ensures var s := Adding(d, n, canBreak, end); Somebody(cfg, Apply(cfg, st, s)) <==> !Orphans(cfg, st, s)
  {
    hide LaneFit, Taken, MoveToDispatch, AddQueued, Somebody;
    var l := st.lane.At(d);
    if Taken(l.sort, n.pos) {
      AliasMoves(l, n.pos, end);
      var a := Alias(l.sort, n.pos);
      MoveSomebody(cfg, st, d, a, end);
      SameSomebody(cfg, MoveToDispatch(cfg, st, d, a, end), Add(cfg, st, d, n, canBreak, end));
    } else {
      SameSomebody(cfg, st, Add(cfg, st, d, n, canBreak, end));
    }
  }

  lemma {:induction false} FrontSomebody(cfg: Config, st: State, d: Dir, id: nat, pos: nat, end: nat)
    requires Inv(st) && Somebody(cfg, st) && Enabled(st, Fronting(d, id, pos, end))
    ensures var s := Fronting(d, id, pos, end); Somebody(cfg, Apply(cfg, st, s)) <==> !Orphans(cfg, st, s)
  {
    hide Taken, MoveToDispatch, Somebody, AliasedLane, LaneFit, TreeWithout, TreeIds, Unmixed, Insert;
    var l := st.lane.At(d);
    if Taken(TreeWithout(l, id), pos) {
      AliasThere(l, id, pos);
      var a := Alias(TreeWithout(l, id), pos);
      var st0 := PutLane(st, d, l.(sort := TreeWithout(l, id)));
      MoveSomebody(cfg, st0, d, a, end);
      SameSomebody(cfg, MoveToDispatch(cfg, st0, d, a, end), FrontMerged(cfg, st, d, id, pos, end));
    } else {
      SameSomebody(cfg, st, FrontMerged(cfg, st, d, id, pos, end));
    }
  }

  lemma {:induction false} DispatchSomebody(cfg: Config, st: State, o: Oracle)
    requires Inv(st) && Somebody(cfg, st)
    ensures var s := Dispatching(o); Somebody(cfg, Apply(cfg, st, s)) <==> !Orphans(cfg, st, s)
  {
    hide Decide, LaneFit, MoveToDispatch, Somebody, Candidate;
    DecideOk(cfg, st, o);
    var p := Decide(cfg, st, o);
    var r := DispatchRequest(cfg, st, o);
    if r.rq == Null {
      SameSomebody(cfg, st, r.st);
    } else {
      var c := p.batch;
      var c1 := if c.changed then c.(changed := false, newBatch := c.newBatch || c.dir == Read) else c;
      var id := Candidate(st, p, o);
      GoQueued(st, p.batch.dir, id);
      MoveSomebody(cfg, st.(batch := c1), c.dir, id, o.end);
    }
  }

  lemma {:induction false} GoQueued(st: State, d: Dir, id: nat)
    requires Inv(st) && id in TreeIds(st.lane.At(d).sort)
    ensures Queued(st.lane.At(d), id) && id !in st.outstanding
  {
    assert id in FifoSet(st.lane.At(d).fifo);
  }

  /** Exactly which steps break it. */
  lemma {:induction false} StepKeepsSomebody(cfg: Config, st: State, s: Step)
    requires Inv(st) && Somebody(cfg, st) && Enabled(st, s)
    ensures Somebody(cfg, Apply(cfg, st, s)) <==> !Orphans(cfg, st, s)
  {
    hide Somebody, Add, FrontMerged, DispatchRequest, Decide;
    match s
    case Adding(d, n, canBreak, end) => AddSomebody(cfg, st, d, n, canBreak, end);
    case Fronting(d, id, pos, end) => FrontSomebody(cfg, st, d, id, pos, end);
    case Dispatching(o) => DispatchSomebody(cfg, st, o);
    case Completing(id, took, target) => CompleteSomebody(cfg, st, id, took, target);
    case _ => SameSomebody(cfg, st, Apply(cfg, st, s));
  }

  // ---------------------------------------------------------------- runs

  /** No step of the run dispatches a read without a context while nothing of
      the process before it is outstanding. */
  ghost predicate NoOrphans(cfg: Config, st: State, steps: seq<Step>)
    requires Inv(st) && Runs(cfg, st, steps)
    decreases |steps|
  {
    steps == [] ||
    (!Orphans(cfg, st, steps[0])
     && (StepKeeps(cfg, st, steps[0]); NoOrphans(cfg, Apply(cfg, st, steps[0]), steps[1..])))
  }

  lemma {:induction false} RunKeepsSomebody(cfg: Config, st: State, steps: seq<Step>)
    requires Inv(st) && Runs(cfg, st, steps) && NoOrphans(cfg, st, steps) && Somebody(cfg, st)
    ensures Somebody(cfg, Exec(cfg, st, steps))
    decreases |steps|
  {
    if steps != [] {
      StepKeeps(cfg, st, steps[0]);
      StepKeepsSomebody(cfg, st, steps[0]);
      RunKeepsSomebody(cfg, Apply(cfg, st, steps[0]), steps[1..]);
    }
  }

  /** After such a run, while the scheduler waits for a request to finish, a
      request of that process is outstanding: the completion that ends the
      wait will come. */
  lemma {:induction false} WaitsForSomebody(cfg: Config, batchCount: int, steps: seq<Step>)
    requires batchCount >= 1 && Inv(Start(batchCount)) && Runs(cfg, Start(batchCount), steps)
             && NoOrphans(cfg, Start(batchCount), steps)
    ensures var st := Exec(cfg, Start(batchCount), steps);
            st.wait.antic == WaitReq ==> Busy(cfg, st.wait.ioc, st.outstanding)
  {
    RunKeeps(cfg, Start(batchCount), steps);
    RunKeepsSomebody(cfg, Start(batchCount), steps);
  }

  // ---------------------------------------------------------------- waiting for nobody

  /** The scheduler waits for a request to finish and none is outstanding. */
  predicate Stalled(st: State) { st.wait.antic == WaitReq && st.outstanding == map[] }

  /** Only a new request can end it: one that breaks the anticipation, or one
      whose position another request has to leave. */
  predicate Ends(cfg: Config, st: State, s: Step)
    requires Inv(st) && Enabled(st, s)
  {
    (s.Adding? && s.canBreak) || SentBy(cfg, st, s).Sent?
  }

  lemma {:induction false} AddStalled(cfg: Config, st: State, d: Dir, n: Node, canBreak: bool, end: nat)
    requires Inv(st) && Stalled(st) && Enabled(st, Adding(d, n, canBreak, end))
    ensures var s := Adding(d, n, canBreak, end); Stalled(Apply(cfg, st, s)) <==> !Ends(cfg, st, s)
  {
    hide LaneFit, Taken, AddQueued, RemoveQueued, FindNext;
    var l := st.lane.At(d);
    if Taken(l.sort, n.pos) {
      AliasMoves(l, n.pos, end);
      assert Alias(l.sort, n.pos) in MoveToDispatch(cfg, st, d, Alias(l.sort, n.pos), end).outstanding;
    }
  }

  lemma {:induction false} FrontStalled(cfg: Config, st: State, d: Dir, id: nat, pos: nat, end: nat)
    requires Inv(st) && Stalled(st) && Enabled(st, Fronting(d, id, pos, end))
    ensures var s := Fronting(d, id, pos, end); Stalled(Apply(cfg, st, s)) <==> !Ends(cfg, st, s)
  {
    hide LaneFit, Taken, TreeWithout, TreeIds, AliasedLane, RemoveQueued, FindNext, Insert;
    var l := st.lane.At(d);
    if Taken(TreeWithout(l, id), pos) {
      AliasThere(l, id, pos);
      assert Alias(TreeWithout(l, id), pos) in FrontMerged(cfg, st, d, id, pos, end).outstanding;
    }
  }

  /** Exactly which steps end a stall.  No timer runs, nothing can complete, and
      every dispatch call returns at once. */
  lemma {:induction false} StallEndsIff(cfg: Config, st: State, s: Step)
    requires Inv(st) && Stalled(st) && Enabled(st, s)
    ensures Stalled(Apply(cfg, st, s)) <==> !Ends(cfg, st, s)
  {
    hide Add, FrontMerged, LaneFit, TreeIds, MergeQueued, BatchOver;
    match s
    case Adding(d, n, canBreak, end) => AddStalled(cfg, st, d, n, canBreak, end);
    case Fronting(d, id, pos, end) => FrontStalled(cfg, st, d, id, pos, end);
    case _ =>
  }

  /** Without new requests a stall lasts for ever, however often the driver
      asks for the requests that are queued. */
  lemma {:induction false} StallLasts(cfg: Config, st: State, steps: seq<Step>)
    requires Inv(st) && Stalled(st) && Runs(cfg, st, steps) && forall s :: s in steps ==> !s.Adding? && !s.Fronting?
    ensures Stalled(Exec(cfg, st, steps))
    decreases |steps|
  {
    if steps != [] {
      StepKeeps(cfg, st, steps[0]);
      StallEndsIff(cfg, st, steps[0]);
      NothingSent(cfg, st, steps[0]);
      StallLasts(cfg, Apply(cfg, st, steps[0]), steps[1..]);
    }
  }

  lemma {:induction false} NothingSent(cfg: Config, st: State, s: Step)
    requires Inv(st) && Stalled(st) && Enabled(st, s) && !s.Adding? && !s.Fronting?
    ensures SentBy(cfg, st, s) == Nobody
  {
    hide LaneFit, TreeIds, BatchOver;
  }

  lemma {:induction false} DrainSends(cfg: Config, st: State, d: Dir, ends: nat -> nat)
    requires LaneFit(st.lane.At(d))
    ensures var s := Drain(cfg, st, d, ends);
            && s.lane.At(Other(d)) == st.lane.At(Other(d)) && s.outstanding.Keys >= st.outstanding.Keys
            && if st.lane.At(d).next == Null then s == st else s.outstanding.Keys != {}
  {
    hide Drain, LaneFit, LaneOk;
    DrainEmptiesIff(cfg, st, d, ends);
    NextInOrder(st.lane.At(d));
    if st.lane.At(d).next == Null {
      NoNextNoDrain(cfg, st, d, ends);
    } else {
      assert st.lane.At(d).next.id in TreeIds(st.lane.At(d).sort);
      assert Drain(cfg, st, d, ends).lane.At(d).sort == [];
      assert st.lane.At(d).next.id in Drain(cfg, st, d, ends).outstanding.Keys;
    }
  }

  /** A forced dispatch is not among the steps.  It ends a stall if and only if
      a next request is set, so that it dispatches something. */
  lemma {:induction false} ForcedEndsStallIff(cfg: Config, st: State, ends: nat -> nat)
    requires Inv(st) && Stalled(st)
    ensures Stalled(Forced(cfg, st, ends)) <==> st.lane.read.next == Null && st.lane.write.next == Null
  {
    hide Drain, LaneFit;
    var s0 := st.(batch := st.batch.(dir := Read, changed := false, newBatch := false));
    DrainSends(cfg, s0, Read, ends);
    DrainSends(cfg, Drain(cfg, s0, Read, ends), Write, ends);
  }

  // ---------------------------------------------------------------- a run that stalls

  lemma {:induction false} RunSnoc(cfg: Config, st: State, steps: seq<Step>, s: Step, h: Stats)
    requires Inv(st) && Runs(cfg, st, steps) && Enabled(Exec(cfg, st, steps), s)
    requires AllHonest(cfg, st, steps, h) && Inv(Exec(cfg, st, steps)) && Honest(cfg, Exec(cfg, st, steps), s, h)
    ensures Runs(cfg, st, steps + [s]) && AllHonest(cfg, st, steps + [s], h)
            && Exec(cfg, st, steps + [s]) == Apply(cfg, Exec(cfg, st, steps), s)
    decreases |steps|
  {
    hide Honest, Enabled, Apply, Inv;
    if steps == [] {
      assert steps + [s] == [s] && [s][1..] == [];
      StepKeeps(cfg, st, s);
    } else {
      assert (steps + [s])[1..] == steps[1..] + [s];
      StepKeeps(cfg, st, steps[0]);
      RunSnoc(cfg, Apply(cfg, st, steps[0]), steps[1..], s, h);
    }
  }

  /** Read 0 is of one process, read 1 could not allocate a context, and read 2
      is of another process. */
  const LACKING := Config((x: nat) => if x == 0 then To(7) else if x == 1 then Null else To(8), true)

  /** Each read is of 8 sectors; read 2 is far from the others. */
  function Place(id: nat): nat { if id == 2 then 1000000 else 8 * id }

  const NO_LANE := Lane([], [], Null)

  /** Nothing queued and nothing outstanding. */
  function Quiet(b: Batch, w: Wait, last: nat): State {
    State(Pair(NO_LANE, NO_LANE), Pair(last, 0), b, w, map[], 0)
  }

  function OneRead(b: Batch, w: Wait, last: nat, id: nat): State {
    Quiet(b, w, last).(lane := Pair(Lane([Node(id, Place(id))], [id], To(id)), NO_LANE))
  }

  function Served(b: Batch, w: Wait, id: nat): State {
    Quiet(b, w, Place(id) + 8).(outstanding := map[id := Read], nrDispatched := 1)
  }

  function Plain(dir: Dir, batchCount: int): Batch { Batch(dir, false, false, batchCount, 0, false) }

  function Adds(id: nat): Step { Adding(Read, Node(id, Place(id)), false, 0) }

  /** A dispatch call, with the oldest read expired or not, that is told "no". */
  function Call(expired: bool, id: nat): Step { Dispatching(Oracle(expired, false, false, false, Place(id) + 8)) }

  /** The step asks nothing: it is honest whatever the statistics are. */
  ghost predicate Careless(st: State, s: Step)
    requires Inv(st)
  {
    forall h :: Honest(LACKING, st, s, h)
  }

  lemma {:induction false} ReadAdded(b: Batch, w: Wait, last: nat, id: nat)
    requires Inv(Quiet(b, w, last)) && w.antic == Off
    ensures var st := Quiet(b, w, last);
            && Enabled(st, Adds(id)) && Apply(LACKING, st, Adds(id)) == OneRead(b, w, last, id)
            && Inv(OneRead(b, w, last, id))
            && Careless(st, Adds(id))
  {
    var st, n := Quiet(b, w, last), Node(id, Place(id));
    assert Insert([], n) == [n] && [] + [id] == [id] && !Taken([], n.pos);
    assert AddQueued(NO_LANE, n, Choice(last)) == Lane([n], [id], To(id));
    StepKeeps(LACKING, st, Adds(id));
    hide AddQueued, Choice, Insert, MoveToDispatch;
  }

  lemma {:induction false} OneReadLane(id: nat)
    ensures var l := Lane([Node(id, Place(id))], [id], To(id));
            && TreeIds(l.sort) == {id} && FifoSet(l.fifo) == {id} && NodeAt(l.sort, id) == 0 && Index(l.fifo, id) == 0
            && Without(l.sort, 0) == [] && Without(l.fifo, 0) == []
  {
    var l := Lane([Node(id, Place(id))], [id], To(id));
    assert l.sort[0] in l.sort;
  }

  /** The first read starts a read batch, whoever submitted it. */
  lemma {:induction false} FirstDispatched(n: int)
    requires n >= 1
    ensures var st, s := OneRead(Plain(Write, n), Wait(Off, Null, false), 0, 0), Call(false, 0);
            && Inv(st) && Apply(LACKING, st, s) == Served(Plain(Read, n).(newBatch := true), Wait(Off, To(7), false), 0)
            && Careless(st, s)
  {
    OneReadLane(0);
  }

  lemma {:induction false} FirstCompleted(n: int)
    requires n >= 1
    ensures var st, s := Served(Plain(Read, n).(newBatch := true), Wait(Off, To(7), false), 0), Completing(0, 0, 125);
            && Inv(st) && Apply(LACKING, st, s) == Quiet(Plain(Read, 2 * n), Wait(Off, To(7), true), 8)
            && Inv(Quiet(Plain(Read, 2 * n), Wait(Off, To(7), true), 8)) && Careless(st, s)
  {
    assert map[0 := Read] - {0} == map[];
  }

  /** The second read has expired, so nobody is asked; its lack of a context
      leaves the first process in place. */
  lemma {:induction false} SecondDispatched(n: int)
    requires n >= 1
    ensures var st, s := OneRead(Plain(Read, n), Wait(Off, To(7), true), 8, 1), Call(true, 1);
            && Inv(st) && Apply(LACKING, st, s) == Served(Plain(Read, n), Wait(Off, To(7), false), 1)
            && Careless(st, s)
  {
    OneReadLane(1);
  }

  lemma {:induction false} SecondCompleted(n: int)
    requires n >= 1
    ensures var st, s := Served(Plain(Read, n), Wait(Off, To(7), false), 1), Completing(1, 0, 125);
            && Inv(st) && Apply(LACKING, st, s) == Quiet(Plain(Read, n), Wait(Off, To(7), false), 16)
            && Inv(Quiet(Plain(Read, n), Wait(Off, To(7), false), 16)) && Careless(st, s)
  {
    assert map[1 := Read] - {1} == map[];
  }

  lemma {:induction false} TooFar(n: int)
    ensures var st := OneRead(Plain(Read, n), Wait(Off, To(7), false), 16, 2);
            !CanBreak(LACKING, st, Request(Read, Node(2, Place(2))), FRESH)
  {
    OneReadLane(2);
    assert Pow2(0) == 1;
  }

  /** The third read is neither of that process nor close. */
  lemma {:induction false} WaitsInVain(n: int)
    requires n >= 1
    ensures var st, s := OneRead(Plain(Read, n), Wait(Off, To(7), false), 16, 2), Call(false, 2);
            && Inv(st) && Apply(LACKING, st, s) == st.(wait := Wait(WaitReq, To(7), false))
            && Honest(LACKING, st, s, FRESH)
  {
    hide CanBreak;
    OneReadLane(2);
    TooFar(n);
  }

  /** steps is a run from the start to st that asks nothing. */
  ghost predicate Reaches(batchCount: int, steps: seq<Step>, st: State) {
    && Inv(Start(batchCount)) && Runs(LACKING, Start(batchCount), steps)
    && Exec(LACKING, Start(batchCount), steps) == st
    && forall h :: AllHonest(LACKING, Start(batchCount), steps, h)
  }

  lemma {:induction false} Reach(batchCount: int, steps: seq<Step>, st: State, s: Step)
    requires Reaches(batchCount, steps, st) && Inv(st) && Enabled(st, s) && Careless(st, s)
    ensures Reaches(batchCount, steps + [s], Apply(LACKING, st, s))
  {
    hide Inv, Apply, Enabled, Honest, AllHonest;
    RunSnoc(LACKING, Start(batchCount), steps, s, FRESH);
    forall h ensures AllHonest(LACKING, Start(batchCount), steps + [s], h) {
      RunSnoc(LACKING, Start(batchCount), steps, s, h);
    }
  }

  /** A run from the start that ends in a stall while a read of another process
      is queued.  as_can_break_anticipation is asked in the last step only, and its
      answer is that for processes that do their first read: such a read adds
      nothing to the statistics. */
  lemma {:induction false} NullContextStalls(batchCount: int) returns (steps: seq<Step>, last: Step)
    requires batchCount >= 1
    ensures Inv(Start(batchCount)) && Runs(LACKING, Start(batchCount), steps)
            && Runs(LACKING, Start(batchCount), steps + [last])
    ensures (forall h :: AllHonest(LACKING, Start(batchCount), steps, h))
            && AllHonest(LACKING, Start(batchCount), steps + [last], FRESH)
    ensures var st := Exec(LACKING, Start(batchCount), steps + [last]); Stalled(st) && Some(st, Read)
  {
    hide Apply, Inv, Honest, Careless;
    StartOk(LACKING, batchCount);
    var n, w := 2 * batchCount, Wait(Off, To(7), false);
    ReadAdded(Plain(Write, batchCount), Wait(Off, Null, false), 0, 0);
    Reach(batchCount, [], Start(batchCount), Adds(0));
    FirstDispatched(batchCount);
    Reach(batchCount, [] + [Adds(0)], OneRead(Plain(Write, batchCount), Wait(Off, Null, false), 0, 0), Call(false, 0));
    steps := [] + [Adds(0)] + [Call(false, 0)];
    FirstCompleted(batchCount);
    Reach(batchCount, steps, Served(Plain(Read, batchCount).(newBatch := true), w, 0), Completing(0, 0, 125));
    steps := steps + [Completing(0, 0, 125)];
    ReadAdded(Plain(Read, n), w.(iocFinished := true), 8, 1);
    Reach(batchCount, steps, Quiet(Plain(Read, n), w.(iocFinished := true), 8), Adds(1));
    steps := steps + [Adds(1)];
    SecondDispatched(n);
    Reach(batchCount, steps, OneRead(Plain(Read, n), w.(iocFinished := true), 8, 1), Call(true, 1));
    steps := steps + [Call(true, 1)];
    SecondCompleted(n);
    Reach(batchCount, steps, Served(Plain(Read, n), w, 1), Completing(1, 0, 125));
    steps := steps + [Completing(1, 0, 125)];
    ReadAdded(Plain(Read, n), w, 16, 2);
    Reach(batchCount, steps, Quiet(Plain(Read, n), w, 16), Adds(2));
    steps := steps + [Adds(2)];
    WaitsInVain(n);
    last := Call(false, 2);
    RunSnoc(LACKING, Start(batchCount), steps, last, FRESH);
  }
}
