/**
 The stages of one barrier, in terms of the event log only: in every mode a
 barrier ends when all stages its mode asks for have completed, and in the
 draining modes a stage is issued when the stages before it have.
 */
module BarrierStages {
  import opened Barrier
  import opened BarrierInvariant
  import opened BarrierSteps
  import opened BarrierOrder
  import opened BarrierTheorems

  // ---------------------------------------------------------------- statements

  /** Does a mode ask for the stage? */
  predicate Asks(m: Mode, role: Role) {
    match role
    case Submitted => false
    case PreFlush => m.preflush
    case BarProxy => m.bar
    case PostFlush => m.postflush
  }

  predicate StageDoneBefore(log: seq<Event>, i: nat, role: Role, id: nat)
    requires i <= |log|
  {
    exists j :: 0 <= j < i && log[j] == StageDone(role, id)
  }

  /** Every stage before `stage` that barrier id asks for has completed. */
  ghost predicate StagesDone(mode: Mode, subs: seq<Request>, log: seq<Event>, i: nat, id: nat, stage: int)
    requires i <= |log|
  {
    id < |subs| &&
    forall role ::
      Asks(OrderedFor(mode, subs[id].empty), role) && StageSeq(role) < stage ==> StageDoneBefore(log, i, role, id)
  }

  /** A barrier ends when all its stages have completed. */
  ghost predicate EndComplete(mode: Mode, subs: seq<Request>, log: seq<Event>, i: nat)
    requires i < |log|
  {
    log[i].Ended? ==> StagesDone(mode, subs, log, i, log[i].id, ORDSEQ_DONE)
  }

  /** A stage is issued when the stages before it have completed. */
  ghost predicate StageInTurn(mode: Mode, subs: seq<Request>, log: seq<Event>, i: nat)
    requires i < |log|
  {
    log[i].Issued? && !log[i].role.Submitted? ==> StagesDone(mode, subs, log, i, log[i].id, StageSeq(log[i].role))
  }

  ghost predicate AllEnds(st: State) {
    forall i :: 0 <= i < |st.log| ==> EndComplete(st.mode, st.subs, st.log, i)
  }

  ghost predicate AllInTurn(st: State) {
    forall i :: 0 <= i < |st.log| ==> StageInTurn(st.mode, st.subs, st.log, i)
  }

  // ---------------------------------------------------------------- what the bits remember

  predicate Marked(b: Bits, role: Role) {
    match role
    case Submitted => false
    case PreFlush => b.preflush
    case BarProxy => b.bar
    case PostFlush => b.postflush
  }

  /** Stages of the running barrier that are asked for and in `bits` are in the log. */
  ghost predicate Logged(st: State, bits: Bits) {
    forall role :: Asks(st.ordered, role) && Marked(bits, role) ==> StageDoneBefore(st.log, |st.log|, role, st.orig.id)
  }

  ghost predicate StagesLogged(st: State) {
    st.ordseq != IDLE ==> st.ordered == OrderedFor(st.mode, st.orig.empty) && Logged(st, st.ordseq)
  }

  lemma StagesGrow(mode: Mode, subs: seq<Request>, subs': seq<Request>, log: seq<Event>, log': seq<Event>, i: nat,
                   id: nat, stage: int)
    requires subs <= subs' && log <= log' && i <= |log| && StagesDone(mode, subs, log, i, id, stage)
    ensures StagesDone(mode, subs', log', i, id, stage)
  {
    forall role | Asks(OrderedFor(mode, subs[id].empty), role) && StageSeq(role) < stage
      ensures StageDoneBefore(log', i, role, id)
    {
      assert StageDoneBefore(log, i, role, id);
    }
  }

  lemma DoneGrows(log: seq<Event>, log': seq<Event>, role: Role, id: nat)
    requires log <= log' && StageDoneBefore(log, |log|, role, id)
    ensures StageDoneBefore(log', |log'|, role, id)
  {
    var j :| 0 <= j < |log| && log[j] == StageDone(role, id);
    assert log'[j] == StageDone(role, id);
  }

  /** One more event. */
  lemma PushEnds(st: State, st': State, e: Event)
    requires AllEnds(st) && st'.mode == st.mode && st.subs <= st'.subs && st'.log == st.log + [e]
    requires e.Ended? ==> StagesDone(st.mode, st'.subs, st.log, |st.log|, e.id, ORDSEQ_DONE)
    ensures AllEnds(st')
  {
    forall i | 0 <= i < |st'.log| ensures EndComplete(st'.mode, st'.subs, st'.log, i) {
      if i < |st.log| {
        assert EndComplete(st.mode, st.subs, st.log, i);
        if st.log[i].Ended? { StagesGrow(st.mode, st.subs, st'.subs, st.log, st'.log, i, st.log[i].id, ORDSEQ_DONE); }
      } else if e.Ended? {
        StagesGrow(st.mode, st'.subs, st'.subs, st.log, st'.log, i, e.id, ORDSEQ_DONE);
      }
    }
  }

  lemma LoggedGrows(st: State, st': State, bits: Bits)
    requires Logged(st, bits) && st.log <= st'.log && st'.ordered == st.ordered && st'.orig.id == st.orig.id
    ensures Logged(st', bits)
  {
    forall role | Asks(st'.ordered, role) && Marked(bits, role)
      ensures StageDoneBefore(st'.log, |st'.log|, role, st'.orig.id)
    {
      DoneGrows(st.log, st'.log, role, st.orig.id);
    }
  }

  /** All bits set: every stage asked for is in the log. */
  lemma AllMarked(st: State, bits: Bits)
    requires SubsOk(st) && st.ordseq != IDLE && StagesLogged(st) && Logged(st, bits) && Finishes(st, bits)
    ensures StagesDone(st.mode, st.subs, st.log, |st.log|, st.orig.id, ORDSEQ_DONE)
  {
    assert st.subs[st.orig.id].empty == st.orig.empty;
    forall role | Asks(st.ordered, role) ensures StageDoneBefore(st.log, |st.log|, role, st.orig.id) {
      assert Marked(st.ordseq, role) || Marked(bits, role);
    }
  }

  lemma CompleteSeqStages(st: State, bits: Bits, error: int)
    requires SubsOk(st) && st.ordseq != IDLE && StagesLogged(st) && AllEnds(st) && Logged(st, bits)
    ensures var st' := CompleteSeq(st, bits, error); StagesLogged(st') && AllEnds(st')
  {
    var st' := CompleteSeq(st, bits, error);
    if Finishes(st, bits) {
      AllMarked(st, bits);
      PushEnds(st, st', Ended(st.orig.id, st'.orderr));
    } else {
      assert forall role :: Marked(st'.ordseq, role) ==> Marked(st.ordseq, role) || Marked(bits, role);
    }
  }

  lemma DrainIsNoStage(st: State)
    ensures Logged(st, DRAIN_BIT)
  {
  }

  // ---------------------------------------------------------------- the steps, in every mode

  ghost predicate StagesOk(st: State) { StagesLogged(st) && AllEnds(st) }

  /** A step that logs at most one event and leaves the sequence alone. */
  lemma QuietStages(st: State, st': State, e: Event)
    requires StagesOk(st) && !e.Ended? && st.subs <= st'.subs && (st'.log == st.log || st'.log == st.log + [e])
    requires st'.mode == st.mode && st'.ordered == st.ordered && st'.ordseq == st.ordseq && st'.orig == st.orig
    ensures StagesOk(st')
  {
    if st'.log != st.log { PushEnds(st, st', e); } else { SameEnds(st, st'); }
    if st.ordseq != IDLE { LoggedGrows(st, st', st.ordseq); }
  }

  lemma SameEnds(st: State, st': State)
    requires AllEnds(st) && st.subs <= st'.subs && st'.log == st.log && st'.mode == st.mode
    ensures AllEnds(st')
  {
    forall i | 0 <= i < |st'.log| ensures EndComplete(st'.mode, st'.subs, st'.log, i) {
      assert EndComplete(st.mode, st.subs, st.log, i);
      if st.log[i].Ended? { StagesGrow(st.mode, st.subs, st'.subs, st.log, st'.log, i, st.log[i].id, ORDSEQ_DONE); }
    }
  }

  lemma CompleteStages(st: State, rq: Request, error: int)
    requires Inv(st) && StagesOk(st) && rq in st.flight
    ensures StagesOk(DoComplete(st, rq, error))
  {
    OffKeepsInv(st, rq);
    assert Known(st, rq);
    QuietStages(st, Off(st, rq), Leaving(rq));
    if rq.role.Submitted? {
      var off := Off(st, rq);
      DrainIsNoStage(off);
      if DrainOver(off) { CompleteSeqStages(off, DRAIN_BIT, 0); }
    } else {
      var bits := StageBit(rq.role);
      var off := Reported(Off(st, rq), rq, error);
      ReportedPending(Off(st, rq), rq, error, bits);
      SameEnds(Off(st, rq), off);
      StageLogged(st, off, rq);
      ProxyCompleteShape(st, rq, error);
      MarkedStages(off, bits, error);
    }
  }

  lemma StageLogged(st: State, off: State, rq: Request)
    requires !rq.role.Submitted? && off.log == st.log + [Leaving(rq)] && off.orig.id == rq.id
    ensures Logged(off, StageBit(rq.role))
  {
    assert off.log[|st.log|] == StageDone(rq.role, rq.id);
  }

  lemma MarkedStages(st: State, bits: Bits, error: int)
    requires InvPending(st, bits) && st.ordseq != IDLE && StagesOk(st) && Logged(st, bits)
    requires bits in {PREFLUSH_BIT, BAR_BIT, POSTFLUSH_BIT}
    ensures StagesOk(MarkedStage(st, bits, error))
  {
    if DrainOver(st) {
      DrainKeepsPending(st, bits);
      DrainIsNoStage(st);
      CompleteSeqStages(st, DRAIN_BIT, 0);
      var st1 := CompleteSeq(st, DRAIN_BIT, 0);
      LoggedGrows(st, st1, bits);
      CompleteSeqStages(st1, bits, error);
    } else {
      CompleteSeqStages(st, bits, error);
    }
  }

  lemma GateStages(st: State)
    requires Inv(st) && StagesOk(st) && st.head != []
    ensures StagesOk(DoOrdered(st).0)
  {
    if st.ordseq == IDLE && st.head[0].IsBarrier() {
      if st.mode == NONE {
        IdleMeansSubmitted(st);
        assert Known(st, st.head[0]);
        PushEnds(st, DoOrdered(st).0, Ended(st.head[0].id, -EOPNOTSUPP));
      } else {
        FirstBitsInv(st);
        var st1 := FirstBits(st);
        SameEnds(st, st1);
        var skip := SkipBits(st1.ordered, Draining(st1));
        assert forall role :: Marked(skip, role) ==> !Asks(st1.ordered, role);
        CompleteSeqStages(st1, skip, 0);
      }
    }
  }

  lemma StepKeepsStages(st: State, s: Step)
    requires Inv(st) && StagesOk(st) && Enabled(st, s)
    ensures StagesOk(Apply(st, s))
  {
    hide DoComplete, DoOrdered, StagesOk, Inv;
    match s
    case Add(_, _, _, _, _, _, _) => QuietStages(st, DoAdd(st, s), Event.Submitted(|st.subs|));
    case Dispatch(rq, k) => QuietStages(st, Apply(st, s), Event.Submitted(0));
    case Peek =>
      GateStages(st);
      QuietStages(DoOrdered(st).0, DoPeek(st), Event.Submitted(0));
    case Start(k) => QuietStages(st, DoStart(st, k), Issued(st.head[k].role, st.head[k].id));
    case Complete(rq, error) => CompleteStages(st, rq, error);
    case BarError(error) => QuietStages(st, Apply(st, s), Event.Submitted(0));
    case Requeue(rq) => QuietStages(st, Apply(st, s), Event.Submitted(0));
  }

  // ---------------------------------------------------------------- ending, in every mode

  /** The event that ends a barrier: refused when the mode is NONE, else with
      the first error reported since its sequence began. */
  predicate EndEventOf(st': State, e: Event) {
    e.Ended? ==> if st'.mode == NONE then e.error == -EOPNOTSUPP else e == Ended(st'.orig.id, FirstNonzero(st'.reports))
  }

  /** Every end a step logs is of that form. */
  ghost predicate EndsRight(st: State, st': State) {
    st.log <= st'.log && forall i :: |st.log| <= i < |st'.log| ==> EndEventOf(st', st'.log[i])
  }

  lemma CompleteSeqEnds(st: State, bits: Bits, error: int)
    requires CountsOk(st) && st.ordseq != IDLE && st.mode != NONE
    ensures EndsRight(st, CompleteSeq(st, bits, error))
  {
    EndEvent(st, bits, error);
  }

  /** A sequence never runs when barriers are not supported. */
  predicate Supported(st: State) { st.ordseq != IDLE ==> st.mode != NONE }

  lemma CompleteShape(st: State, rq: Request, error: int)
    ensures var off := Reported(Off(st, rq), rq, error);
            DoComplete(st, rq, error) ==
            if !rq.role.Submitted? then MarkedStage(off, StageBit(rq.role), error)
            else if DrainOver(off) then CompleteSeq(off, DRAIN_BIT, 0) else off
  {
    if !rq.role.Submitted? { ProxyCompleteShape(st, rq, error); }
  }

  lemma CompleteEnds(st: State, rq: Request, error: int)
    requires Inv(st) && Supported(st) && rq in st.flight
    ensures EndsRight(st, DoComplete(st, rq, error))
  {
    hide DoComplete, CompleteSeq, MarkedStage;
    OffKeepsInv(st, rq);
    assert Known(st, rq);
    CompleteShape(st, rq, error);
    var off := Reported(Off(st, rq), rq, error);
    if rq.role.Submitted? {
      if DrainOver(off) { CompleteSeqEnds(off, DRAIN_BIT, 0); }
    } else {
      ReportedPending(Off(st, rq), rq, error, StageBit(rq.role));
      MarkedEnds(off, StageBit(rq.role), error);
    }
  }

  lemma MarkedEnds(st: State, bits: Bits, error: int)
    requires InvPending(st, bits) && st.ordseq != IDLE && st.mode != NONE
    requires bits in {PREFLUSH_BIT, BAR_BIT, POSTFLUSH_BIT}
    ensures EndsRight(st, MarkedStage(st, bits, error))
  {
    if DrainOver(st) {
      DrainKeepsPending(st, bits);
      CompleteSeqEnds(CompleteSeq(st, DRAIN_BIT, 0), bits, error);
    } else {
      CompleteSeqEnds(st, bits, error);
    }
  }

  lemma PeekEnds(st: State)
    requires Inv(st) && Supported(st) && st.head != []
    ensures EndsRight(st, DoPeek(st))
  {
    if st.ordseq == IDLE && st.head[0].IsBarrier() && st.mode != NONE {
      FirstBitsInv(st);
      CompleteSeqEnds(FirstBits(st), SkipBits(FirstBits(st).ordered, Draining(FirstBits(st))), 0);
    }
  }

  lemma StepEnds(st: State, s: Step)
    requires Inv(st) && Supported(st) && Enabled(st, s)
    ensures EndsRight(st, Apply(st, s))
  {
    hide DoPeek, DoComplete, Inv;
    match s
    case Peek => PeekEnds(st);
    case Complete(rq, error) => CompleteEnds(st, rq, error);
    case _ =>
  }

  lemma StepSupported(st: State, s: Step)
    requires Inv(st) && Supported(st) && Enabled(st, s)
    ensures Supported(Apply(st, s))
  {
    hide Inv, Known, DoComplete;
    match s
    case Complete(rq, error) => CompleteLog(st, rq, error);
    case _ =>
  }

  lemma CompleteSeqLog(st: State, bits: Bits, error: int)
    requires st.ordseq != IDLE
    ensures var st' := CompleteSeq(st, bits, error);
            && st'.mode == st.mode && st'.subs == st.subs && st.log <= st'.log
            && forall i :: |st.log| <= i < |st'.log| ==> !st'.log[i].Issued?
  {
  }

  /** A completion issues nothing, and starts no sequence. */
  lemma CompleteLog(st: State, rq: Request, error: int)
    requires Inv(st) && rq in st.flight
    ensures var st' := DoComplete(st, rq, error);
            && st'.mode == st.mode && st'.subs == st.subs && st.log <= st'.log
            && (st.ordseq == IDLE ==> st'.ordseq == IDLE)
            && forall i :: |st.log| <= i < |st'.log| ==> !st'.log[i].Issued?
  {
    hide CompleteSeq, DoComplete;
    assert Known(st, rq);
    CompleteShape(st, rq, error);
    var off := Reported(Off(st, rq), rq, error);
    if st.ordseq != IDLE {
      CompleteSeqLog(off, DRAIN_BIT, 0);
      if !rq.role.Submitted? {
        OffKeepsInv(st, rq);
        var bits := StageBit(rq.role);
        ReportedPending(Off(st, rq), rq, error, bits);
        if DrainOver(off) {
          DrainKeepsPending(off, bits);
          CompleteSeqLog(CompleteSeq(off, DRAIN_BIT, 0), bits, error);
        } else {
          CompleteSeqLog(off, bits, error);
        }
      }
    }
  }

  lemma PeekLog(st: State)
    requires Inv(st) && st.head != []
    ensures var st' := DoPeek(st);
            && st'.mode == st.mode && st'.subs == st.subs && st.log <= st'.log
            && forall i :: |st.log| <= i < |st'.log| ==> !st'.log[i].Issued?
  {
    hide CompleteSeq;
    if st.ordseq == IDLE && st.head[0].IsBarrier() && st.mode != NONE {
      CompleteSeqLog(FirstBits(st), SkipBits(FirstBits(st).ordered, Draining(FirstBits(st))), 0);
    }
  }

  // ---------------------------------------------------------------- not ending late, in every mode

  /** Every stage in the log is of a finished barrier, or of the running one and
      marked, or among `bits`; what is neither marked nor among them is asked for. */
  ghost predicate Seen(st: State, bits: Bits) {
    && (forall j :: 0 <= j < |st.log| ==> SeenEvent(st, bits, st.log[j]))
    && (st.ordseq != IDLE ==>
          forall role: Role :: !role.Submitted? && !Marked(st.ordseq.Or(bits), role) ==> Asks(st.ordered, role))
  }

  predicate SeenEvent(st: State, bits: Bits, e: Event) {
    e.StageDone? ==> e.id in st.done || (st.ordseq != IDLE && e.id == st.orig.id && Marked(st.ordseq.Or(bits), e.role))
  }

  /** A step that marks nothing, and logs at most one event. */
  lemma QuietSeen(st: State, st': State, bits: Bits, bits': Bits, e: Event)
    requires Seen(st, bits) && st.done <= st'.done && (st'.log == st.log || st'.log == st.log + [e])
    requires st'.ordered == st.ordered && st'.ordseq == st.ordseq && st'.orig == st.orig
    requires (forall role :: Marked(bits, role) ==> Marked(bits', role)) && SeenEvent(st', bits', e)
    ensures Seen(st', bits')
  {
    assert forall a: Bits, b: Bits, role :: Marked(a.Or(b), role) <==> Marked(a, role) || Marked(b, role);
    forall j | 0 <= j < |st'.log| ensures SeenEvent(st', bits', st'.log[j]) {
      if j < |st.log| { assert SeenEvent(st, bits, st.log[j]); }
    }
  }

  lemma CompleteSeqSeen(st: State, bits: Bits, more: Bits, error: int)
    requires st.ordseq != IDLE && Seen(st, bits.Or(more))
             && (Finishes(st, bits) || CompleteSeq(st, bits, error).ordseq != IDLE)
    ensures Seen(CompleteSeq(st, bits, error), more)
  {
    var st' := CompleteSeq(st, bits, error);
    assert st.ordseq.Or(bits.Or(more)) == st.ordseq.Or(bits).Or(more);
    forall j | 0 <= j < |st'.log| ensures SeenEvent(st', more, st'.log[j]) {
      if j < |st.log| { assert SeenEvent(st, bits.Or(more), st.log[j]); }
    }
  }

  lemma CompleteSeen(st: State, rq: Request, error: int)
    requires Inv(st) && Seen(st, IDLE) && rq in st.flight
    ensures Seen(DoComplete(st, rq, error), IDLE)
  {
    hide DoComplete, Seen;
    OffKeepsInv(st, rq);
    assert Known(st, rq);
    CompleteShape(st, rq, error);
    var off := Reported(Off(st, rq), rq, error);
    if rq.role.Submitted? {
      QuietSeen(st, off, IDLE, IDLE, Leaving(rq));
      if DrainOver(off) {
        QuietSeen(off, off, IDLE, DRAIN_BIT.Or(IDLE), Leaving(rq));
        CompleteSeqSeen(off, DRAIN_BIT, IDLE, 0);
      }
    } else {
      var bits := StageBit(rq.role);
      ReportedPending(Off(st, rq), rq, error, bits);
      QuietSeen(st, off, IDLE, bits.Or(IDLE), Leaving(rq));
      MarkedSeen(off, bits, error);
    }
  }

  lemma MarkedSeen(st: State, bits: Bits, error: int)
    requires InvPending(st, bits) && st.ordseq != IDLE && Seen(st, bits.Or(IDLE))
    requires bits in {PREFLUSH_BIT, BAR_BIT, POSTFLUSH_BIT}
    ensures Seen(MarkedStage(st, bits, error), IDLE)
  {
    hide Seen;
    if DrainOver(st) {
      DrainKeepsPending(st, bits);
      QuietSeen(st, st, bits.Or(IDLE), DRAIN_BIT.Or(bits.Or(IDLE)), Event.Submitted(0));
      CompleteSeqSeen(st, DRAIN_BIT, bits.Or(IDLE), 0);
      CompleteSeqSeen(CompleteSeq(st, DRAIN_BIT, 0), bits, IDLE, error);
    } else {
      CompleteSeqSeen(st, bits, IDLE, error);
    }
  }

  lemma GateSeen(st: State)
    requires Inv(st) && Seen(st, IDLE) && st.head != []
    ensures Seen(DoOrdered(st).0, IDLE)
  {
    if st.ordseq == IDLE && st.head[0].IsBarrier() {
      if st.mode == NONE {
        QuietSeen(st, DoOrdered(st).0, IDLE, IDLE, Ended(st.head[0].id, -EOPNOTSUPP));
      } else {
        FirstBitsInv(st);
        var st1 := FirstBits(st);
        var skip := SkipBits(st1.ordered, Draining(st1));
        forall j | 0 <= j < |st1.log| ensures SeenEvent(st1, skip.Or(IDLE), st1.log[j]) {
          assert SeenEvent(st, IDLE, st.log[j]);
        }
        CompleteSeqSeen(st1, skip, IDLE, 0);
      }
    }
  }

  lemma StepSeen(st: State, s: Step)
    requires Inv(st) && Seen(st, IDLE) && Enabled(st, s)
    ensures Seen(Apply(st, s), IDLE)
  {
    hide DoComplete, DoOrdered, Seen, Inv;
    match s
    case Peek =>
      GateSeen(st);
      QuietSeen(DoOrdered(st).0, DoPeek(st), IDLE, IDLE, Event.Submitted(0));
    case Start(k) => QuietSeen(st, DoStart(st, k), IDLE, IDLE, Issued(st.head[k].role, st.head[k].id));
    case Complete(rq, error) => CompleteSeen(st, rq, error);
    case _ => QuietSeen(st, Apply(st, s), IDLE, IDLE, Event.Submitted(|st.subs|));
  }

  /** A barrier that runs, with the drain over, waits for a stage that it asks
      for and that has not completed. */
  ghost predicate Waits(st: State) {
    st.ordseq != IDLE && st.ordseq.drain ==>
      exists role ::
        Asks(OrderedFor(st.mode, st.orig.empty), role) && !StageDoneBefore(st.log, |st.log|, role, st.orig.id)
  }

  lemma SeenWaits(st: State)
    requires Inv(st) && StagesLogged(st) && Seen(st, IDLE)
    ensures Waits(st)
  {
    if st.ordseq != IDLE && st.ordseq.drain {
      var role := if !st.ordseq.preflush then PreFlush else if !st.ordseq.bar then BarProxy else PostFlush;
      assert !Marked(st.ordseq.Or(IDLE), role);
      assert Asks(st.ordered, role);
      forall j | 0 <= j < |st.log| ensures st.log[j] != StageDone(role, st.orig.id) {
        assert SeenEvent(st, IDLE, st.log[j]);
      }
    }
  }

  /** No step of the run traps, and every end carries the right error. */
  ghost predicate Sound(st: State, steps: seq<Step>)
    requires Runs(st, steps)
    decreases |steps|
  {
    steps == [] ||
    (!Traps(st, steps[0]) && EndsRight(st, Apply(st, steps[0])) && Sound(Apply(st, steps[0]), steps[1..]))
  }

  lemma {:induction false} RunIsSound(st: State, steps: seq<Step>)
    requires Inv(st) && LogOk(st) && StagesOk(st) && Seen(st, IDLE) && Supported(st) && Runs(st, steps)
    ensures Sound(st, steps)
    ensures var st' := Exec(st, steps); FinishOnce(st'.log) && AllEnds(st') && Waits(st')
    decreases |steps|
  {
    hide Inv, Seen, StagesLogged, Waits, Apply, Enabled;
    if steps == [] {
      SeenWaits(st);
    }
    if steps != [] {
      var s := steps[0];
      NeverTraps(st, s);
      StepEnds(st, s);
      StepSupported(st, s);
      StepKeepsInv(st, s);
      StepKeepsLog(st, s);
      StepKeepsStages(st, s);
      StepSeen(st, s);
      RunIsSound(Apply(st, s), steps[1..]);
    }
  }

  /** In every mode, on every run from an idle queue and every completion order:
      no stage bit is set twice, nothing finishes twice, a barrier ends only
      after every stage it asks for has completed, it ends with the first error
      reported since its sequence began, and once the drain is over and every
      stage it asks for has completed, it has ended. */
  lemma ExactlyOnce(mode: Mode, steps: seq<Step>)
    requires Runs(Init(mode), steps)
    ensures Sound(Init(mode), steps)
    ensures var st := Exec(Init(mode), steps); FinishOnce(st.log) && AllEnds(st) && Waits(st)
  {
    InitInv(mode);
    RunIsSound(Init(mode), steps);
  }

  // ---------------------------------------------------------------- the order of the stages, when draining

  lemma PushInTurn(st: State, st': State, e: Event)
    requires AllInTurn(st) && st'.mode == st.mode && st.subs <= st'.subs
             && (st'.log == st.log || st'.log == st.log + [e])
    requires e.Issued? && !e.role.Submitted? && st'.log != st.log ==>
               StagesDone(st.mode, st'.subs, st.log, |st.log|, e.id, StageSeq(e.role))
    ensures AllInTurn(st')
  {
    forall i | 0 <= i < |st'.log| ensures StageInTurn(st'.mode, st'.subs, st'.log, i) {
      var x := st'.log[i];
      if x.Issued? && !x.role.Submitted? {
        if i < |st.log| {
          assert StageInTurn(st.mode, st.subs, st.log, i);
          StagesGrow(st.mode, st.subs, st'.subs, st.log, st'.log, i, x.id, StageSeq(x.role));
        } else {
          StagesGrow(st.mode, st'.subs, st'.subs, st.log, st'.log, i, x.id, StageSeq(x.role));
        }
      }
    }
  }

  /** A stage that may be handed over has nothing left before it. */
  lemma StartInTurn(st: State, k: nat)
    requires Inv(st) && Ordered(st) && StagesOk(st) && AllInTurn(st) && Enabled(st, Start(k))
    ensures AllInTurn(DoStart(st, k))
  {
    var r := st.head[k];
    assert Known(st, r) && StartedOk(st, r);
    if !r.role.Submitted? {
      forall role | Asks(st.ordered, role) && StageSeq(role) < StageSeq(r.role)
        ensures StageDoneBefore(st.log, |st.log|, role, r.id)
      {
        assert Marked(st.ordseq, role);
      }
    }
    PushInTurn(st, DoStart(st, k), Issued(r.role, r.id));
  }

  /** Completions and the gate log no issue. */
  lemma NoIssue(st: State, st': State)
    requires AllInTurn(st) && st'.mode == st.mode && st.subs == st'.subs && st.log <= st'.log
    requires forall i :: |st.log| <= i < |st'.log| ==> !st'.log[i].Issued?
    ensures AllInTurn(st')
  {
    forall i | 0 <= i < |st'.log| ensures StageInTurn(st'.mode, st'.subs, st'.log, i) {
      var x := st'.log[i];
      if x.Issued? && !x.role.Submitted? {
        assert StageInTurn(st.mode, st.subs, st.log, i);
        StagesGrow(st.mode, st.subs, st'.subs, st.log, st'.log, i, x.id, StageSeq(x.role));
      }
    }
  }

  lemma StepInTurn(st: State, s: Step)
    requires Inv(st) && Ordered(st) && StagesOk(st) && AllInTurn(st) && Enabled(st, s)
    ensures AllInTurn(Apply(st, s))
  {
    hide DoPeek, DoComplete;
    match s
    case Add(_, _, _, _, _, _, _) => PushInTurn(st, DoAdd(st, s), Event.Submitted(|st.subs|));
    case Peek =>
      PeekLog(st);
      NoIssue(st, DoPeek(st));
    case Start(k) => StartInTurn(st, k);
    case Complete(rq, error) =>
      CompleteLog(st, rq, error);
      NoIssue(st, DoComplete(st, rq, error));
    case _ => NoIssue(st, Apply(st, s));
  }

  lemma {:induction false} RunInTurn(st: State, steps: seq<Step>)
    requires OrderKept(st) && StagesOk(st) && AllInTurn(st) && Runs(st, steps)
             && (forall s :: s in steps ==> Disciplined(s))
    ensures AllInTurn(Exec(st, steps))
    decreases |steps|
  {
    if steps != [] {
      StepKeepsOrder(st, steps[0]);
      StepKeepsStages(st, steps[0]);
      StepInTurn(st, steps[0]);
      RunInTurn(Apply(st, steps[0]), steps[1..]);
    }
  }

  /** In the draining modes the preflush, the barrier and the postflush are each
      issued only after the stages before them have completed. */
  lemma StagesFollowEachOther(mode: Mode, steps: seq<Step>)
    requires ValidMode(mode) && mode.byDrain
    requires Runs(Init(mode), steps) && forall s :: s in steps ==> Disciplined(s)
    ensures AllInTurn(Exec(Init(mode), steps))
  {
    InitInv(mode);
    assert Ordered(Init(mode));
    RunInTurn(Init(mode), steps);
  }
}
