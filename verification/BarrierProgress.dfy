/**
 The gate cannot wedge: in the draining modes, whenever the driver holds no
 request and one is queued, the gate lets a request through or consumes one.
 */
module BarrierProgress {
  import opened Barrier
  import opened BarrierInvariant
  import opened BarrierSteps
  import opened BarrierOrder
  import opened BarrierOrderSteps
  import opened BarrierTheorems

  /** prepare_discard_fn is one function per queue, so discards are all fs
      requests or none is. */
  predicate Uniform(s: Step, d: bool) {
    s.Add? ==> (s.discard ==> s.fs == d)
  }

  /** What may stand before a stage of the running sequence. */
  predicate Precedes(st: State, a: Request, b: Request)
    requires !b.role.Submitted?
  {
    InFront(st, a) || (!a.role.Submitted? && StageSeq(a.role) < StageSeq(b.role))
  }

  ghost predicate StagesInFront(st: State) {
    forall j, k :: 0 <= j < k < |st.head| && !st.head[k].role.Submitted? ==> Precedes(st, st.head[j], st.head[k])
  }

  /** While draining, somebody will run the drain test again: a request is at
      the driver, or the next to be handed over belongs to the drain. */
  predicate DrainWatched(st: State) {
    st.ordseq != IDLE && CurSeq(st.ordseq) == ORDSEQ_DRAIN ==>
      st.flight != {} || (st.head != [] && ReqSeq(st, st.head[0]) == ORDSEQ_DRAIN)
  }

  /** A request that was sorted rather than inserted, and its kind. */
  predicate KindOk(d: bool, r: Request) {
    r.role.Submitted? ==> (!r.soft ==> r.fs || r.discard) && (r.discard ==> r.fs == d)
  }

  ghost predicate Kinds(st: State, d: bool) {
    && (forall k :: 0 <= k < |st.head| ==> KindOk(d, st.head[k]))
    && (forall r :: r in st.sched ==> KindOk(d, r))
    && (forall r :: r in st.flight ==> KindOk(d, r))
  }

  ghost predicate Live(st: State, d: bool) {
    StagesInFront(st) && DrainWatched(st) && Kinds(st, d)
  }

  ghost predicate Good(st: State) { Inv(st) && Ordered(st) }

  lemma StagesInsert(st: State, st': State, k: nat, r: Request)
    requires StagesInFront(st) && k <= |st.head| && st'.head == Insert(st.head, k, r) && st'.taken == st.taken
    requires forall j :: k <= j < |st.head| && !st.head[j].role.Submitted? ==> Precedes(st, r, st.head[j])
    requires !r.role.Submitted? ==> forall j :: 0 <= j < k ==> Precedes(st, st.head[j], r)
    ensures StagesInFront(st')
  {
  }

  lemma KindsInsert(st: State, st': State, d: bool, k: nat, r: Request)
    requires Kinds(st, d) && k <= |st.head| && st'.head == Insert(st.head, k, r) && KindOk(d, r)
    requires st'.sched <= st.sched && st'.flight <= st.flight
    ensures Kinds(st', d)
  {
  }

  // ---------------------------------------------------------------- the steps

  lemma AddLive(st: State, s: Step, d: bool)
    requires Good(st) && Live(st, d) && s.Add? && Enabled(st, s) && Disciplined(s) && Uniform(s, d)
    ensures Live(DoAdd(st, s), d)
  {
    if Route(s) == Sort { AddLiveSort(st, s, d); } else { AddLiveInsert(st, s, d); }
  }

  lemma AddLiveSort(st: State, s: Step, d: bool)
    requires Live(st, d) && s.Add? && Enabled(st, s) && Uniform(s, d) && Route(s) == Sort
    ensures Live(DoAdd(st, s), d)
  {
  }

  lemma AddLiveInsert(st: State, s: Step, d: bool)
    requires Live(st, d) && s.Add? && Disciplined(s) && Uniform(s, d) && Route(s) != Sort
    ensures Live(DoAdd(st, s), d)
  {
    var st' := DoAdd(st, s);
    var soft := NewRequest(st, s).(soft := true);
    var k := if Route(s) == Front then 0 else |st.head|;
    assert st'.head == Insert(st.head, k, soft);
    StagesInsert(st, st', k, soft);
    KindsInsert(st, st', d, k, soft);
  }

  lemma DispatchLive(st: State, rq: Request, k: nat, d: bool)
    requires Good(st) && Live(st, d) && Enabled(st, Dispatch(rq, k))
    ensures Live(DoDispatch(st, rq, k), d)
  {
    var st' := DoDispatch(st, rq, k);
    assert Known(st, rq) && SchedOk(st, rq) && KindOk(d, rq);
    forall j | k <= j < |st.head| ensures st.head[j].role.Submitted? {
      assert Known(st, st.head[j]);
      assert !st.head[j].Stops();
    }
    StagesInsert(st, st', k, rq);
    KindsInsert(st, st', d, k, rq);
    if st.ordseq != IDLE && CurSeq(st.ordseq) == ORDSEQ_DRAIN && k == 0 && st.head != [] {
      SortedHead(st, rq, d);
    }
  }

  /** A sorted request that passes the head of a draining queue is one barriers do not order. */
  lemma SortedHead(st: State, rq: Request, d: bool)
    requires Good(st) && Live(st, d) && Enabled(st, Dispatch(rq, 0)) && st.head != [] && st.ordseq != IDLE
    ensures ReqSeq(st, st.head[0]) == ORDSEQ_DRAIN ==> ReqSeq(st, rq) == ORDSEQ_DRAIN
  {
    var h := st.head[0];
    assert Known(st, rq) && SchedOk(st, rq) && KindOk(d, rq) && KindOk(d, h) && !h.Stops();
    assert Known(st, h);
    if Fs(h) {
      ColorExact(st, h);
      assert OldOk(st, 0);
    }
  }

  lemma StartLive(st: State, k: nat, d: bool)
    requires Live(st, d) && k < |st.head|
    ensures Live(DoStart(st, k), d)
  {
  }

  /** A barrier still listed is not of the running sequence's colour, and it is
      listed before everything younger. */
  lemma YoungBehindBarrier(st: State, j: nat) returns (i: nat)
    requires ListOk(st) && GensOk(st) && AllKnown(st) && SubsOk(st) && OrigOk(st) && st.ordseq != IDLE
    requires j < |st.head| && Fs(st.head[j]) && st.head[j].gen > st.taken
    ensures i < j && ReqSeq(st, st.head[i]) == ORDSEQ_DONE
  {
    hide GensOk, SubsOk, OrigOk, ReqSeq;
    assert Known(st, st.head[j]);
    KnownGen(st, st.head[j]);
    assert BarrierAt(st.head, st.taken);
    i :| 0 <= i < |st.head| && Fs(st.head[i]) && st.head[i].hard && st.head[i].gen == st.taken;
    NextBarrierIsDone(st, st.head[i]);
  }

  /** The barrier after the running one has the other colour. */
  lemma NextBarrierIsDone(st: State, r: Request)
    requires GensOk(st) && Known(st, r) && SubsOk(st) && OrigOk(st) && st.ordseq != IDLE && Fs(r) && r.gen == st.taken
    ensures ReqSeq(st, r) == ORDSEQ_DONE
  {
    KnownGen(st, r);
    OrigGen(st);
  }

  /** Everything that stands before a requeued stage may. */
  lemma RequeuedStageBehind(st: State, rq: Request, k: nat, j: nat)
    requires Good(st) && st.ordseq != IDLE && rq in st.flight && !rq.role.Submitted?
    requires k == RequeuePoint(st, ReqSeq(st, rq), 0) && j < k
    ensures Precedes(st, st.head[j], rq)
  {
    assert ReqSeq(st, st.head[j]) < ReqSeq(st, rq) < ORDSEQ_DONE;
    assert Known(st, st.head[j]) && Known(st, rq);
    if Fs(st.head[j]) { BeforeStageIsOld(st, k, j); }
  }

  /** An fs request with only earlier stages up to it is from before the barrier. */
  lemma BeforeStageIsOld(st: State, k: nat, j: nat)
    requires ListOk(st) && GensOk(st) && AllKnown(st) && SubsOk(st) && OrigOk(st) && st.ordseq != IDLE
    requires j < k <= |st.head| && Fs(st.head[j]) && forall i :: 0 <= i < k ==> ReqSeq(st, st.head[i]) < ORDSEQ_DONE
    ensures st.head[j].gen < st.taken
  {
    assert Known(st, st.head[j]);
    KnownGen(st, st.head[j]);
    OrigGen(st);
    if st.head[j].gen > st.taken {
      var i := YoungBehindBarrier(st, j);
    }
  }

  /** Everything of a later stage stays behind a requeued one. */
  lemma RequeuedStageAhead(st: State, rq: Request, k: nat, j: nat)
    requires Good(st) && StagesInFront(st) && st.ordseq != IDLE && rq in st.flight && !rq.role.Submitted?
    requires k == RequeuePoint(st, ReqSeq(st, rq), 0) && k <= j < |st.head| && !st.head[j].role.Submitted?
    ensures Precedes(st, rq, st.head[j])
  {
  }

  lemma RequeueLive(st: State, rq: Request, d: bool)
    requires Good(st) && Live(st, d) && Enabled(st, Requeue(rq))
    ensures Live(DoRequeue(st, rq), d)
  {
    var st' := DoRequeue(st, rq);
    var back := rq.(started := false, soft := true);
    var k := if st.ordseq == IDLE then 0 else RequeuePoint(st, ReqSeq(st, rq), 0);
    assert FlightOk(st, rq) && Known(st, rq) && KindOk(d, rq);
    RequeuePlace(st, rq);
    if st.ordseq == IDLE {
      IdleMeansSubmitted(st);
    } else if rq.role.Submitted? {
      if rq.fs { ColorExact(st, rq); }
    } else {
      forall j | 0 <= j < k ensures Precedes(st, st.head[j], back) { RequeuedStageBehind(st, rq, k, j); }
      forall j | k <= j < |st.head| && !st.head[j].role.Submitted? ensures Precedes(st, back, st.head[j]) {
        RequeuedStageAhead(st, rq, k, j);
      }
    }
    StagesInsert(st, st', k, back);
    KindsInsert(st, st', d, k, back);
  }

  /** Stages already marked do not disturb the others. */
  lemma SameHeadLive(st: State, st': State, d: bool)
    requires StagesInFront(st) && Kinds(st, d)
    requires st'.head == st.head && st'.taken == st.taken && st'.sched == st.sched && st'.flight <= st.flight
    ensures StagesInFront(st') && Kinds(st', d)
  {
  }

  lemma CompleteLive(st: State, rq: Request, error: int, d: bool)
    requires Good(st) && Live(st, d) && rq in st.flight
    ensures Live(DoComplete(st, rq, error), d)
  {
    CompleteShape(st, rq, error);
    SameHeadLive(st, DoComplete(st, rq, error), d);
    if rq.role.Submitted? {
      OffKeepsInv(st, rq);
      SubmittedShape(st, rq, error);
      DrainWatchedAfter(Off(st, rq));
    } else {
      LastStageOff(st, rq);
      StageWatched(st, rq, error);
    }
  }

  predicate SameLists(st: State, st': State) {
    st'.head == st.head && st'.sched == st.sched && st'.taken == st.taken && st'.flight == st.flight
  }

  lemma CompleteSeqLists(st: State, bits: Bits, error: int)
    ensures SameLists(st, CompleteSeq(st, bits, error))
  {
  }

  lemma SubmittedShape(st: State, rq: Request, error: int)
    requires rq.role.Submitted?
    ensures DoComplete(st, rq, error) == DrainTested(Off(st, rq))
  {
  }

  lemma CompleteShape(st: State, rq: Request, error: int)
    ensures SameLists(Off(st, rq), DoComplete(st, rq, error))
  {
    if rq.role.Submitted? {
      SubmittedShape(st, rq, error);
      CompleteSeqLists(Off(st, rq), DRAIN_BIT, 0);
    } else {
      ProxyCompleteShape(st, rq, error);
      var off := Reported(Off(st, rq), rq, error);
      CompleteSeqLists(off, DRAIN_BIT, 0);
      CompleteSeqLists(if DrainOver(off) then CompleteSeq(off, DRAIN_BIT, 0) else off, StageBit(rq.role), error);
    }
  }

  function DrainTested(st: State): State {
    if DrainOver(st) then CompleteSeq(st, DRAIN_BIT, 0) else st
  }

  lemma StageWatched(st: State, rq: Request, error: int)
    requires !rq.role.Submitted? && st.ordseq != IDLE && StageSeq(rq.role) == CurSeq(st.ordseq)
    ensures DrainWatched(DoComplete(st, rq, error))
  {
  }

  /** elv_completed_request runs the drain test whenever a request comes back. */
  lemma DrainWatchedAfter(off: State)
    requires CountsOk(off) && WellFormedBits(off.ordseq)
    ensures DrainWatched(DrainTested(off))
  {
  }

  lemma ProxiesInFront(st1: State, rest: seq<Request>, d: bool)
    requires st1.head == Proxies(st1.ordered, st1.orig) + rest
    requires forall k :: 0 <= k < |rest| ==> rest[k].role.Submitted? && KindOk(d, rest[k])
    ensures StagesInFront(st1)
    ensures forall k :: 0 <= k < |st1.head| ==> KindOk(d, st1.head[k])
  {
  }

  lemma FirstBitsLive(st: State, d: bool)
    requires BarrierDue(st) && Kinds(st, d)
    ensures StagesInFront(FirstBits(st)) && Kinds(FirstBits(st), d)
  {
    IdleMeansSubmitted(st);
    ProxiesInFront(FirstBits(st), st.head[1..], d);
  }

  lemma PeekLive(st: State, d: bool)
    requires Good(st) && Live(st, d) && st.head != []
    ensures Live(DoPeek(st), d)
  {
    var (st1, verdict) := DoOrdered(st);
    if st.ordseq == IDLE && st.head[0].IsBarrier() {
      FirstBitsLive(st, d);
      SameHeadLive(FirstBits(st), st1, d);
      StartWatched(st);
    }
    if verdict == Hand && st1.head != [] { MarkLive(st1, d); }
  }

  /** A sequence that waits for the drain has something at the driver. */
  lemma StartWatched(st: State)
    requires BarrierDue(st) && st.mode != NONE
    ensures DrainWatched(StartOrdered(st).0)
  {
  }

  lemma MarkLive(st: State, d: bool)
    requires Live(st, d) && st.head != []
    ensures Live(st.(head := Mark(st.head)), d)
  {
  }

  lemma StepKeepsLive(st: State, s: Step, d: bool)
    requires Good(st) && Live(st, d) && Enabled(st, s) && Disciplined(s) && Uniform(s, d)
    ensures Live(Apply(st, s), d)
  {
    match s
    case Add(_, _, _, _, _, _, _) => AddLive(st, s, d);
    case Dispatch(rq, k) => DispatchLive(st, rq, k, d);
    case Peek => PeekLive(st, d);
    case Start(k) => StartLive(st, k, d);
    case Complete(rq, error) => CompleteLive(st, rq, error, d);
    case BarError(error) => SameHeadLive(st, Apply(st, s), d);
    case Requeue(rq) => RequeueLive(st, rq, d);
  }

  // ---------------------------------------------------------------- no wedge

  /** With nothing at the driver, a running sequence has a request queued and
      the gate lets it through. */
  lemma IdleDriverIsServed(st: State, d: bool)
    requires Good(st) && Live(st, d) && st.flight == {} && st.ordseq != IDLE
    ensures st.head != [] && DoOrdered(st).1 == Hand
  {
    if CurSeq(st.ordseq) != ORDSEQ_DRAIN { StageListed(st); }
    var h := st.head[0];
    assert Known(st, h);
    if CurSeq(st.ordseq) != ORDSEQ_DRAIN && !(h.role.Submitted? && !h.fs) {
      StageAtHead(st, d);
    }
  }

  /** The stage due is in the list when it is not at the driver. */
  lemma StageListed(st: State)
    requires Inv(st) && st.flight == {} && st.ordseq != IDLE && CurSeq(st.ordseq) != ORDSEQ_DRAIN
    ensures exists k ::
              0 <= k < |st.head| && !st.head[k].role.Submitted? && StageSeq(st.head[k].role) == CurSeq(st.ordseq)
  {
  }

  lemma StageAtHead(st: State, d: bool)
    requires Good(st) && Live(st, d) && st.flight == {} && st.ordseq != IDLE && CurSeq(st.ordseq) != ORDSEQ_DRAIN
    requires st.head != [] && !(st.head[0].role.Submitted? && !st.head[0].fs)
    ensures ReqSeq(st, st.head[0]) <= CurSeq(st.ordseq)
  {
  }

  /** With nothing at the driver the gate never answers "wait". */
  lemma NeverWedged(st: State, d: bool)
    requires Good(st) && Live(st, d) && st.flight == {} && st.head != []
    ensures DoOrdered(st).1 != Hold
  {
    if st.ordseq != IDLE {
      IdleDriverIsServed(st, d);
    } else if st.head[0].IsBarrier() {
      assert AccountedIn(st.flight) == {};
    }
  }

  lemma {:induction false} RunStaysLive(st: State, steps: seq<Step>, d: bool)
    requires Good(st) && Live(st, d) && Runs(st, steps)
    requires forall s :: s in steps ==> Disciplined(s) && Uniform(s, d)
    ensures Good(Exec(st, steps)) && Live(Exec(st, steps), d)
    decreases |steps|
  {
    if steps != [] {
      StepKeepsInv(st, steps[0]);
      StepKeepsOrdered(st, steps[0]);
      StepKeepsLive(st, steps[0], d);
      RunStaysLive(Apply(st, steps[0]), steps[1..], d);
    }
  }

  /** From an idle queue, on every run: whenever the driver is idle and a
      request is queued, the gate moves on. */
  lemma BarrierNeverWedges(mode: Mode, steps: seq<Step>, d: bool)
    requires ValidMode(mode) && mode.byDrain && Runs(Init(mode), steps)
    requires forall s :: s in steps ==> Disciplined(s) && Uniform(s, d)
    ensures var st := Exec(Init(mode), steps);
            st.flight == {} && (st.head != [] || st.ordseq != IDLE) ==> st.head != [] && DoOrdered(st).1 != Hold
  {
    InitInv(mode);
    assert Ordered(Init(mode));
    RunStaysLive(Init(mode), steps, d);
    var st := Exec(Init(mode), steps);
    if st.flight == {} {
      if st.ordseq != IDLE { IdleDriverIsServed(st, d); } else if st.head != [] { NeverWedged(st, d); }
    }
  }
}
