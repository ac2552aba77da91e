/**
 The barrier guarantees, over whole runs and in terms of the event log only.
 */
module BarrierTheorems {
  import opened Barrier
  import opened BarrierInvariant
  import opened BarrierSteps
  import opened BarrierOrder
  import opened BarrierOrderSteps

  // ---------------------------------------------------------------- statements

  /** The submission an event finishes. */
  predicate Finishing(e: Event, id: nat) {
    e == Completed(id) || (e.Ended? && e.id == id)
  }

  predicate FinishedBefore(log: seq<Event>, i: nat, id: nat)
    requires i <= |log|
  {
    exists j :: 0 <= j < i && Finishing(log[j], id)
  }

  predicate EndedBefore(log: seq<Event>, i: nat, id: nat)
    requires i <= |log|
  {
    exists j :: 0 <= j < i && log[j].Ended? && log[j].id == id
  }

  /** What draining promises about one event: a stage of barrier b is issued,
      and b ends, only after every fs request submitted before b has finished;
      an fs request is issued only after every barrier submitted before it has ended. */
  ghost predicate InOrder(subs: seq<Request>, log: seq<Event>, i: nat)
    requires i < |log|
  {
    match log[i]
    case Issued(role, id) =>
      if !role.Submitted? then FsBeforeFinished(subs, log, i, id)
      else id < |subs| && (subs[id].fs ==> forall b :: 0 <= b < id && subs[b].IsBarrier() ==> EndedBefore(log, i, b))
    case Ended(id, _) => FsBeforeFinished(subs, log, i, id)
    case _ => true
  }

  ghost predicate FsBeforeFinished(subs: seq<Request>, log: seq<Event>, i: nat, id: nat)
    requires i < |log|
  {
    id < |subs| && forall x :: 0 <= x < id && subs[x].fs ==> FinishedBefore(log, i, x)
  }

  /** No submission finishes twice. */
  ghost predicate FinishOnce(log: seq<Event>) {
    forall i, j, id :: 0 <= i < j < |log| && Finishing(log[i], id) ==> !Finishing(log[j], id)
  }

  /** The BUG_ON of blk_ordered_complete_seq, for each call a step makes. */
  predicate Traps(st: State, s: Step)
    requires Enabled(st, s)
  {
    match s
    case Peek =>
      st.ordseq == IDLE && st.head[0].IsBarrier() && st.mode != NONE &&
      (var st1 := FirstBits(st); st1.ordseq.Meets(SkipBits(st1.ordered, Draining(st1))))
    case Complete(rq, error) =>
      var off := Off(st, rq);
      || (DrainOver(off) && off.ordseq.Meets(DRAIN_BIT))
      || (!rq.role.Submitted? &&
          (if DrainOver(off) then CompleteSeq(off, DRAIN_BIT, 0) else off).ordseq.Meets(StageBit(rq.role)))
    case _ => false
  }

  // ---------------------------------------------------------------- what one step logs

  /** `done` and the log tell the same story. */
  ghost predicate LogOk(st: State) {
    && (forall id :: id in st.done ==> FinishedBefore(st.log, |st.log|, id))
    && (forall j, id :: 0 <= j < |st.log| && Finishing(st.log[j], id) ==> id in st.done)
    && FinishOnce(st.log)
  }

  lemma PushKeepsLog(st: State, st': State, e: Event)
    requires LogOk(st) && st'.log == st.log + [e]
    requires if e.Completed? || e.Ended? then e.id !in st.done && st'.done == st.done + {e.id} else st'.done == st.done
    ensures LogOk(st')
  {
    forall id | id in st'.done ensures FinishedBefore(st'.log, |st'.log|, id) {
      if id in st.done {
        var j :| 0 <= j < |st.log| && Finishing(st.log[j], id);
        assert Finishing(st'.log[j], id);
      } else {
        assert Finishing(st'.log[|st.log|], id);
      }
    }
    forall j, id | 0 <= j < |st'.log| && Finishing(st'.log[j], id) ensures id in st'.done {
      if j < |st.log| { assert Finishing(st.log[j], id); }
    }
    forall i, j, id | 0 <= i < j < |st'.log| && Finishing(st'.log[i], id) ensures !Finishing(st'.log[j], id) {
      assert Finishing(st.log[i], id);
      if j < |st.log| { assert !Finishing(st.log[j], id); }
    }
  }

  lemma SameLog(st: State, st': State)
    requires LogOk(st) && st'.log == st.log && st'.done == st.done
    ensures LogOk(st')
  {
  }

  lemma CompleteSeqKeepsLog(st: State, bits: Bits, error: int)
    requires LogOk(st) && SubsOk(st) && st.ordseq != IDLE
    ensures LogOk(CompleteSeq(st, bits, error))
  {
    var st' := CompleteSeq(st, bits, error);
    if Finishes(st, bits) {
      PushKeepsLog(st, st', Ended(st.orig.id, st'.orderr));
    } else {
      SameLog(st, st');
    }
  }

  lemma CompleteKeepsLog(st: State, rq: Request, error: int)
    requires Inv(st) && LogOk(st) && rq in st.flight
    ensures LogOk(DoComplete(st, rq, error))
  {
    OffKeepsInv(st, rq);
    assert Known(st, rq);
    var off := Off(st, rq);
    if rq.role.Submitted? {
      PushKeepsLog(st, off, Completed(rq.id));
      if DrainOver(off) { CompleteSeqKeepsLog(off, DRAIN_BIT, 0); }
    } else {
      ProxyCompleteKeepsLog(st, rq, error);
    }
  }

  lemma ProxyCompleteKeepsLog(st: State, rq: Request, error: int)
    requires Inv(st) && LogOk(st) && rq in st.flight && !rq.role.Submitted?
    ensures LogOk(DoComplete(st, rq, error))
  {
    OffKeepsInv(st, rq);
    assert Known(st, rq);
    var bits := StageBit(rq.role);
    ReportedPending(Off(st, rq), rq, error, bits);
    var off := Reported(Off(st, rq), rq, error);
    PushKeepsLog(st, off, Leaving(rq));
    ProxyCompleteShape(st, rq, error);
    if DrainOver(off) {
      DrainKeepsPending(off, bits);
      CompleteSeqKeepsLog(off, DRAIN_BIT, 0);
      CompleteSeqKeepsLog(CompleteSeq(off, DRAIN_BIT, 0), bits, error);
    } else {
      CompleteSeqKeepsLog(off, bits, error);
    }
  }

  lemma PeekKeepsLog(st: State)
    requires Inv(st) && LogOk(st) && st.head != []
    ensures LogOk(DoPeek(st))
  {
    var (st1, verdict) := DoOrdered(st);
    if st.ordseq == IDLE && st.head[0].IsBarrier() {
      if st.mode == NONE {
        IdleMeansSubmitted(st);
        assert Known(st, st.head[0]);
        PushKeepsLog(st, st1, Ended(st.head[0].id, -EOPNOTSUPP));
      } else {
        FirstBitsInv(st);
        SameLog(st, FirstBits(st));
        CompleteSeqKeepsLog(FirstBits(st), SkipBits(FirstBits(st).ordered, Draining(FirstBits(st))), 0);
      }
    }
    SameLog(st1, DoPeek(st));
  }

  lemma StepKeepsLog(st: State, s: Step)
    requires Inv(st) && LogOk(st) && Enabled(st, s)
    ensures LogOk(Apply(st, s))
  {
    match s
    case Add(_, _, _, _, _, _, _) => PushKeepsLog(st, DoAdd(st, s), Event.Submitted(|st.subs|));
    case Dispatch(rq, k) => SameLog(st, Apply(st, s));
    case Peek => PeekKeepsLog(st);
    case Start(k) => PushKeepsLog(st, DoStart(st, k), Issued(st.head[k].role, st.head[k].id));
    case Complete(rq, error) => CompleteKeepsLog(st, rq, error);
    case BarError(error) => SameLog(st, Apply(st, s));
    case Requeue(rq) => SameLog(st, Apply(st, s));
  }

  // ---------------------------------------------------------------- exactly once

  lemma InitInv(mode: Mode)
    ensures Inv(Init(mode)) && LogOk(Init(mode))
  {
    assert AccountedIn({}) == {};
  }

  lemma NeverTraps(st: State, s: Step)
    requires Inv(st) && Enabled(st, s)
    ensures !Traps(st, s)
  {
    match s
    case Peek =>
      if st.ordseq == IDLE && st.head[0].IsBarrier() && st.mode != NONE { FirstBitsInv(st); }
    case Complete(rq, error) =>
      OffKeepsInv(st, rq);
      var off := Off(st, rq);
      assert Known(st, rq);
      if !rq.role.Submitted? && DrainOver(off) { DrainKeepsPending(off, StageBit(rq.role)); }
    case _ =>
  }

  /** The last event ends the running barrier with the first error reported. */
  predicate EndsWell(st: State, st': State) {
    && st'.log != []
    && st'.log[|st'.log| - 1] == Ended(st.orig.id, FirstNonzero(st'.reports))
    && st.orig.id in st'.done && st.orig.id !in st.done
  }

  /** A step that ends a running sequence leaves no stage outstanding, and the
      original barrier carries the first error reported since the sequence began. */
  lemma EndCarriesFirstError(st: State, rq: Request, error: int)
    requires Inv(st) && rq in st.flight && st.ordseq != IDLE && DoComplete(st, rq, error).ordseq == IDLE
    ensures EndsWell(st, DoComplete(st, rq, error))
    ensures forall role: Role :: !role.Submitted? ==> !Outstanding(DoComplete(st, rq, error), role, st.orig.id)
  {
    if rq.role.Submitted? { DrainEnd(st, rq, error); } else { StageEnd(st, rq, error); }
    CompleteKeepsInv(st, rq, error);
    NoStageLeft(DoComplete(st, rq, error));
  }

  lemma NoStageLeft(st: State)
    requires Inv(st) && st.ordseq == IDLE
    ensures forall role: Role :: !role.Submitted? ==> !Outstanding(st, role, st.orig.id)
  {
  }

  lemma DrainEnd(st: State, rq: Request, error: int)
    requires Inv(st) && rq in st.flight && st.ordseq != IDLE && rq.role.Submitted?
             && DoComplete(st, rq, error).ordseq == IDLE
    ensures EndsWell(st, DoComplete(st, rq, error)) && DoComplete(st, rq, error).orig == st.orig
  {
    OffKeepsInv(st, rq);
    var off := Off(st, rq);
    if DrainOver(off) { EndEvent(off, DRAIN_BIT, 0); }
  }

  lemma StageEnd(st: State, rq: Request, error: int)
    requires Inv(st) && rq in st.flight && st.ordseq != IDLE && !rq.role.Submitted?
             && DoComplete(st, rq, error).ordseq == IDLE
    ensures EndsWell(st, DoComplete(st, rq, error)) && DoComplete(st, rq, error).orig == st.orig
  {
    OffKeepsInv(st, rq);
    assert Known(st, rq);
    var bits := StageBit(rq.role);
    ReportedPending(Off(st, rq), rq, error, bits);
    ProxyCompleteShape(st, rq, error);
    MarkedEnd(Reported(Off(st, rq), rq, error), bits, error);
  }

  lemma MarkedEnd(st: State, bits: Bits, error: int)
    requires InvPending(st, bits) && st.ordseq != IDLE && MarkedStage(st, bits, error).ordseq == IDLE
    requires bits in {PREFLUSH_BIT, BAR_BIT, POSTFLUSH_BIT}
    ensures EndsWell(st, MarkedStage(st, bits, error)) && MarkedStage(st, bits, error).orig == st.orig
  {
    if DrainOver(st) {
      DrainKeepsPending(st, bits);
      EndEvent(st, DRAIN_BIT, 0);
      EndEvent(CompleteSeq(st, DRAIN_BIT, 0), bits, error);
    } else {
      EndEvent(st, bits, error);
    }
  }

  lemma EndEvent(st: State, bits: Bits, error: int)
    requires CountsOk(st) && st.ordseq != IDLE
    ensures var st' := CompleteSeq(st, bits, error);
            && st'.orig == st.orig
            && (Finishes(st, bits) ==>
                  && st'.done == st.done + {st.orig.id}
                  && st'.log == st.log + [Ended(st.orig.id, FirstNonzero(st'.reports))])
            && (!Finishes(st, bits) ==> st'.ordseq == st.ordseq.Or(bits))
  {
    FirstNonzeroSnoc(st.reports, error);
  }

  // ---------------------------------------------------------------- barrier order

  ghost predicate AllInOrder(st: State) {
    forall i :: 0 <= i < |st.log| ==> InOrder(st.subs, st.log, i)
  }

  /** A finished barrier finished by ending. */
  ghost predicate BarriersEnd(st: State) {
    forall id :: id in st.done && id < |st.subs| && st.subs[id].IsBarrier() ==> EndedBefore(st.log, |st.log|, id)
  }

  ghost predicate OrderKept(st: State) {
    Inv(st) && Ordered(st) && LogOk(st) && AllInOrder(st) && BarriersEnd(st)
  }

  lemma InOrderGrows(subs: seq<Request>, subs': seq<Request>, log: seq<Event>, log': seq<Event>, i: nat)
    requires subs <= subs' && log <= log' && i < |log| && InOrder(subs, log, i)
    ensures InOrder(subs', log', i)
  {
  }

  lemma EndedGrows(log: seq<Event>, log': seq<Event>, id: nat)
    requires log <= log' && EndedBefore(log, |log|, id)
    ensures EndedBefore(log', |log'|, id)
  {
  }

  /** Appending one event that is in order. */
  lemma PushInOrder(st: State, st': State, e: Event)
    requires AllInOrder(st) && BarriersEnd(st) && SubsOk(st)
    requires st.subs <= st'.subs && st'.log == st.log + [e]
    requires InOrder(st'.subs, st'.log, |st.log|)
    requires st'.done == (if e.Completed? || e.Ended? then st.done + {e.id} else st.done)
    requires e.Completed? ==> e.id < |st'.subs| && !st'.subs[e.id].IsBarrier()
    ensures AllInOrder(st') && BarriersEnd(st')
  {
    forall i | 0 <= i < |st'.log| ensures InOrder(st'.subs, st'.log, i) {
      if i < |st.log| { InOrderGrows(st.subs, st'.subs, st.log, st'.log, i); }
    }
    forall id | id in st'.done && id < |st'.subs| && st'.subs[id].IsBarrier()
      ensures EndedBefore(st'.log, |st'.log|, id)
    {
      if id in st.done {
        EndedGrows(st.log, st'.log, id);
      } else {
        assert st'.log[|st.log|].Ended?;
      }
    }
  }

  /** Once nothing older is outstanding, everything older has finished. */
  lemma DrainedMeansFinished(st: State, x: nat)
    requires AllKnown(st) && SubsOk(st) && AllCovered(st) && Ordered(st) && Drained(st) && st.ordseq != IDLE
    requires x < st.orig.id && st.subs[x].fs
    ensures x in st.done
  {
    assert Covered(st, x);
    assert Before(st.subs[x], st.subs[st.orig.id]);
    forall k | 0 <= k < |st.head|
      ensures !(st.head[k].role.Submitted? && st.head[k].id == x) { assert Known(st, st.head[k]); }
    forall r | r in st.sched ensures r.id != x { assert Known(st, r) && SchedOk(st, r); }
    forall r | r in st.flight ensures !(r.role.Submitted? && r.id == x) { assert Known(st, r); }
  }

  lemma LoggedFinish(st: State, id: nat, log: seq<Event>)
    requires LogOk(st) && id in st.done && st.log <= log && |st.log| < |log|
    ensures FinishedBefore(log, |st.log|, id)
  {
  }

  /** The next event about the running barrier is in order once the queue is drained. */
  lemma BarrierEventInOrder(st: State, log: seq<Event>)
    requires AllKnown(st) && SubsOk(st) && AllCovered(st) && Ordered(st) && Drained(st) && st.ordseq != IDLE
             && LogOk(st)
    requires st.log <= log && |st.log| < |log|
    ensures FsBeforeFinished(st.subs, log, |st.log|, st.orig.id)
  {
    forall x | 0 <= x < st.orig.id && st.subs[x].fs ensures FinishedBefore(log, |st.log|, x) {
      DrainedMeansFinished(st, x);
      LoggedFinish(st, x, log);
    }
  }

  lemma CompleteSeqInOrder(st: State, bits: Bits, error: int)
    requires InvPending(st, bits) && Ordered(st) && LogOk(st) && AllInOrder(st) && BarriersEnd(st) && st.ordseq != IDLE
    requires Finishes(st, bits) ==> Drained(st)
    ensures AllInOrder(CompleteSeq(st, bits, error)) && BarriersEnd(CompleteSeq(st, bits, error))
  {
    if Finishes(st, bits) {
      var st' := CompleteSeq(st, bits, error);
      BarrierEventInOrder(st, st'.log);
      PushInOrder(st, st', Ended(st.orig.id, st'.orderr));
    }
  }

  lemma CompleteInOrder(st: State, rq: Request, error: int)
    requires OrderKept(st) && rq in st.flight && rq.role.Submitted?
    ensures AllInOrder(DoComplete(st, rq, error)) && BarriersEnd(DoComplete(st, rq, error))
  {
    OffKeepsInv(st, rq);
    assert Known(st, rq) && FlightOk(st, rq);
    KnownGen(st, rq);
    var off := Off(st, rq);
    LessFlightKeepsOrdered(st, off);
    PushKeepsLog(st, off, Completed(rq.id));
    PushInOrder(st, off, Completed(rq.id));
    if DrainOver(off) {
      DrainOverMeansDrained(off);
      CompleteSeqInOrder(off, DRAIN_BIT, 0);
    }
  }

  lemma StageInOrder(st: State, rq: Request, error: int)
    requires OrderKept(st) && rq in st.flight && !rq.role.Submitted?
    ensures AllInOrder(DoComplete(st, rq, error)) && BarriersEnd(DoComplete(st, rq, error))
  {
    LastStageOff(st, rq);
    OffKeepsInv(st, rq);
    var bits := StageBit(rq.role);
    ReportedPending(Off(st, rq), rq, error, bits);
    var off := Reported(Off(st, rq), rq, error);
    LessFlightKeepsOrdered(st, off);
    PushKeepsLog(st, off, Leaving(rq));
    PushInOrder(st, off, Leaving(rq));
    assert Drained(off);
    ProxyCompleteShape(st, rq, error);
    CompleteSeqInOrder(off, bits, error);
  }

  lemma PeekInOrder(st: State)
    requires OrderKept(st) && st.head != []
    ensures AllInOrder(DoPeek(st)) && BarriersEnd(DoPeek(st))
  {
    if st.ordseq == IDLE && st.head[0].IsBarrier() {
      FirstBitsInv(st);
      FirstBitsOrdered(st);
      FirstBitsList(st);
      var st1 := FirstBits(st);
      SameLog(st, st1);
      assert AllInOrder(st1) && BarriersEnd(st1);
      if !Draining(st1) { NoFsInFlight(st1); }
      CompleteSeqInOrder(st1, SkipBits(st1.ordered, Draining(st1)), 0);
    }
  }

  /** Every barrier older than a request that may be handed over has ended. */
  lemma OlderBarrierEnded(st: State, r: Request, b: nat)
    requires Inv(st) && Ordered(st) && Fs(r) && Known(st, r) && b < r.id && st.subs[b].IsBarrier()
    requires r.gen <= (if st.ordseq == IDLE then st.taken else st.taken - 1)
    ensures b in st.done
  {
    assert Before(st.subs[b], st.subs[r.id]);
    assert Covered(st, b);
    forall k | 0 <= k < |st.head|
      ensures !(st.head[k].role.Submitted? && st.head[k].id == b) { assert Known(st, st.head[k]); }
    forall t | t in st.sched ensures t.id != b { assert Known(st, t) && SchedOk(st, t); }
    forall t | t in st.flight ensures !(t.role.Submitted? && t.id == b) { assert Known(st, t) && FlightOk(st, t); }
  }

  lemma StartInOrder(st: State, k: nat)
    requires OrderKept(st) && Enabled(st, Start(k))
    ensures AllInOrder(DoStart(st, k)) && BarriersEnd(DoStart(st, k))
  {
    var st' := DoStart(st, k);
    var r := st.head[k];
    assert Known(st, r) && StartedOk(st, r);
    if r.role.Submitted? {
      if r.fs {
        forall b | 0 <= b < r.id && st.subs[b].IsBarrier() ensures EndedBefore(st'.log, |st.log|, b) {
          OlderBarrierEnded(st, r, b);
          var j :| 0 <= j < |st.log| && st.log[j].Ended? && st.log[j].id == b;
          assert st'.log[j].Ended?;
        }
      }
    } else {
      StageMeansDrained(st);
      BarrierEventInOrder(st, st'.log);
    }
    PushInOrder(st, st', Issued(r.role, r.id));
  }

  lemma StageMeansDrained(st: State)
    requires Ordered(st) && st.ordseq != IDLE && CurSeq(st.ordseq) > ORDSEQ_DRAIN
    ensures Drained(st)
  {
  }

  lemma StepInOrder(st: State, s: Step)
    requires OrderKept(st) && Enabled(st, s) && Disciplined(s)
    ensures AllInOrder(Apply(st, s)) && BarriersEnd(Apply(st, s))
  {
    match s
    case Add(_, _, _, _, _, _, _) => PushInOrder(st, DoAdd(st, s), Event.Submitted(|st.subs|));
    case Dispatch(rq, k) =>
    case Peek => PeekInOrder(st);
    case Start(k) => StartInOrder(st, k);
    case Complete(rq, error) =>
      if rq.role.Submitted? { CompleteInOrder(st, rq, error); } else { StageInOrder(st, rq, error); }
    case BarError(error) =>
    case Requeue(rq) =>
  }

  lemma StepKeepsOrder(st: State, s: Step)
    requires OrderKept(st) && Enabled(st, s) && Disciplined(s)
    ensures OrderKept(Apply(st, s))
  {
    StepKeepsInv(st, s);
    StepKeepsOrdered(st, s);
    StepKeepsLog(st, s);
    StepInOrder(st, s);
  }

  lemma {:induction false} RunKeepsOrder(st: State, steps: seq<Step>)
    requires OrderKept(st) && Runs(st, steps) && (forall s :: s in steps ==> Disciplined(s))
    ensures OrderKept(Exec(st, steps))
    decreases |steps|
  {
    if steps != [] {
      StepKeepsOrder(st, steps[0]);
      RunKeepsOrder(Apply(st, steps[0]), steps[1..]);
    }
  }

  /** The barrier guarantee of the draining modes, for every run from an idle queue. */
  lemma BarrierOrderHolds(mode: Mode, steps: seq<Step>)
    requires ValidMode(mode) && mode.byDrain
    requires Runs(Init(mode), steps) && forall s :: s in steps ==> Disciplined(s)
    ensures var st := Exec(Init(mode), steps);
            forall i :: 0 <= i < |st.log| ==> InOrder(st.subs, st.log, i)
  {
    InitInv(mode);
    assert Ordered(Init(mode));
    RunKeepsOrder(Init(mode), steps);
  }
}
