/**
 Every disciplined step keeps the order invariant of the draining modes.
 */
module BarrierOrderSteps {
  import opened Barrier
  import opened BarrierInvariant
  import opened BarrierSteps
  import opened BarrierOrder

  // ---------------------------------------------------------------- list surgery

  lemma BarrierAtInsert(head: seq<Request>, k: nat, r: Request, g: nat)
    requires k <= |head|
    ensures BarrierAt(head, g) ==> BarrierAt(Insert(head, k, r), g)
    ensures Fs(r) && r.hard ==> BarrierAt(Insert(head, k, r), r.gen)
  {
    var h := Insert(head, k, r);
    assert h[k] == r;
    if BarrierAt(head, g) {
      var i :| 0 <= i < |head| && Fs(head[i]) && head[i].hard && head[i].gen == g;
      assert h[if i < k then i else i + 1] == head[i];
    }
  }

  lemma BarrierAtRemove(head: seq<Request>, k: nat, g: nat)
    requires k < |head|
    requires BarrierAt(head, g)
    requires !(Fs(head[k]) && head[k].hard && head[k].gen == g)
    ensures BarrierAt(Remove(head, k), g)
  {
    var i :| 0 <= i < |head| && Fs(head[i]) && head[i].hard && head[i].gen == g;
    assert Remove(head, k)[if i < k then i else i - 1] == head[i];
  }

  /** Inserting a request at a place that fits the generation order. */
  lemma ListInsert(st: State, st': State, k: nat, r: Request)
    requires ListOk(st) && k <= |st.head|
    requires st'.head == Insert(st.head, k, r) && st'.taken == st.taken
    requires st'.bars == st.bars || (st'.bars == st.bars + 1 && Fs(r) && r.hard && r.gen == st.bars)
    requires Fs(r) ==> forall i :: 0 <= i < k && Fs(st.head[i]) ==> Before(st.head[i], r)
    requires Fs(r) ==> forall i :: k <= i < |st.head| && Fs(st.head[i]) ==> Before(r, st.head[i])
    requires Fs(r) && r.hard ==> r.gen >= st.taken
    ensures ListOk(st')
  {
    forall g | st'.taken <= g < st'.bars ensures BarrierAt(st'.head, g) {
      BarrierAtInsert(st.head, k, r, g);
    }
    forall i, j | 0 <= i < j < |st'.head| && Fs(st'.head[i]) && Fs(st'.head[j])
      ensures Before(st'.head[i], st'.head[j])
    {
      if i == k {
        assert st'.head[j] == st.head[j - 1];
      } else if j == k {
        assert st'.head[i] == st.head[i];
      } else {
        var i', j' := if i < k then i else i - 1, if j < k then j else j - 1;
        assert st'.head[i] == st.head[i'] && st'.head[j] == st.head[j'];
      }
    }
  }

  /** Same for the front part. */
  lemma OldInsert(st: State, st': State, k: nat, r: Request)
    requires forall i :: 0 <= i < |st.head| ==> OldOk(st, i)
    requires k <= |st.head| && st'.head == Insert(st.head, k, r)
    requires st'.taken == st.taken && st'.ordseq == st.ordseq
    requires forall i :: k <= i < |st.head| && Fs(st.head[i]) && st.head[i].gen < st.taken ==> InFront(st, r)
    requires Fs(r) && r.gen < st.taken ==> k == 0 && StillDraining(st) && r.gen == st.taken - 1 && r.soft
    ensures forall i :: 0 <= i < |st'.head| ==> OldOk(st', i)
  {
    forall i | 0 <= i < |st'.head| ensures OldOk(st', i) {
      if i != k && Fs(st'.head[i]) && st'.head[i].gen < st'.taken {
        var i' := if i < k then i else i - 1;
        assert st'.head[i] == st.head[i'];
        assert OldOk(st, i');
        forall j | 0 <= j < i ensures InFront(st', st'.head[j]) {
          if j != k {
            assert st'.head[j] == st.head[if j < k then j else j - 1];
          }
        }
      }
    }
  }

  // ---------------------------------------------------------------- add

  lemma AddGens(st: State, s: Step)
    requires GensOk(st) && s.Add? && Disciplined(s)
    ensures GensOk(DoAdd(st, s))
  {
    var st' := DoAdd(st, s);
    forall i | 0 <= i < |st'.subs| ensures GenOk(st', st'.subs[i]) {
      if i < |st.subs| { assert GenOk(st, st.subs[i]); }
    }
    forall i, j | 0 <= i < j < |st'.subs| ensures Before(st'.subs[i], st'.subs[j]) {
      if j < |st.subs| { assert Before(st.subs[i], st.subs[j]); } else { assert GenOk(st, st.subs[i]); }
    }
  }

  lemma AddList(st: State, s: Step)
    requires Inv(st) && Ordered(st) && s.Add? && Disciplined(s) && Enabled(st, s)
    ensures ListOk(DoAdd(st, s))
    ensures var st' := DoAdd(st, s); forall i :: 0 <= i < |st'.head| ==> OldOk(st', i)
  {
    var st' := DoAdd(st, s);
    if Route(s) == Sort {
      assert ListOk(st');
      forall i | 0 <= i < |st'.head| ensures OldOk(st', i) { AddOldSame(st, st', i); }
    } else {
      var soft := NewRequest(st, s).(soft := true);
      var k := if Route(s) == Front then 0 else |st.head|;
      assert st'.head == Insert(st.head, k, soft);
      forall i | 0 <= i < |st.head| && Fs(st.head[i]) ensures Before(st.head[i], soft) {
        assert Known(st, st.head[i]);
        KnownGen(st, st.head[i]);
      }
      ListInsert(st, st', k, soft);
      OldInsert(st, st', k, soft);
    }
  }

  lemma AddOldSame(st: State, st': State, i: nat)
    requires st'.head == st.head && st'.taken == st.taken && st'.ordseq == st.ordseq
    requires i < |st.head| && OldOk(st, i)
    ensures OldOk(st', i)
  {
  }

  lemma AddKeepsOrdered(st: State, s: Step)
    requires Inv(st) && Ordered(st) && s.Add? && Disciplined(s) && Enabled(st, s)
    ensures Ordered(DoAdd(st, s))
  {
    var st' := DoAdd(st, s);
    AddGens(st, s);
    AddList(st, s);
    forall k | 0 <= k < |st'.head| ensures StartedOk(st', st'.head[k]) {
      AddStarted(st, s, k);
    }
    forall r | r in st.flight ensures FlightOk(st', r) { assert FlightOk(st, r); }
    forall r | r in st'.sched ensures SchedOk(st', r) { AddSched(st, s, r); }
  }

  lemma AddStarted(st: State, s: Step, k: nat)
    requires forall i :: 0 <= i < |st.head| ==> StartedOk(st, st.head[i])
    requires s.Add? && k < |DoAdd(st, s).head|
    ensures StartedOk(DoAdd(st, s), DoAdd(st, s).head[k])
  {
  }

  lemma AddSched(st: State, s: Step, r: Request)
    requires forall t :: t in st.sched ==> SchedOk(st, t)
    requires s.Add? && Enabled(st, s) && Disciplined(s) && r in DoAdd(st, s).sched
    ensures SchedOk(DoAdd(st, s), r)
  {
  }

  // ---------------------------------------------------------------- dispatch

  /** Behind the last request the sort may not pass there are only newest-generation requests. */
  lemma TailIsNewest(st: State, k: nat, i: nat)
    requires Inv(st) && Ordered(st) && k <= i < |st.head| && Fs(st.head[i])
    requires forall j :: k <= j < |st.head| ==> !st.head[j].Stops()
    ensures st.head[i].gen == st.bars && !st.head[i].hard
  {
    var x := st.head[i];
    assert Known(st, x);
    KnownGen(st, x);
    assert OldOk(st, i);
    if x.gen < st.bars {
      assert BarrierAt(st.head, x.gen);
      var j :| 0 <= j < |st.head| && Fs(st.head[j]) && st.head[j].hard && st.head[j].gen == x.gen;
      assert st.head[j].Stops();
    }
  }

  lemma DispatchList(st: State, rq: Request, k: nat)
    requires Inv(st) && Ordered(st) && Enabled(st, Dispatch(rq, k))
    ensures var st' := DoDispatch(st, rq, k); ListOk(st') && forall i :: 0 <= i < |st'.head| ==> OldOk(st', i)
  {
    var st' := DoDispatch(st, rq, k);
    assert SchedOk(st, rq) && Known(st, rq);
    KnownGen(st, rq);
    forall i | 0 <= i < k && Fs(st.head[i]) ensures Before(st.head[i], rq) || !Fs(rq) {
      assert Known(st, st.head[i]);
      KnownGen(st, st.head[i]);
    }
    forall i | k <= i < |st.head| && Fs(st.head[i])
      ensures st.head[i].gen == st.bars && (Before(rq, st.head[i]) || !Fs(rq))
    {
      TailIsNewest(st, k, i);
    }
    ListInsert(st, st', k, rq);
    OldInsert(st, st', k, rq);
  }

  /** The checks on single requests survive an insertion that leaves the stage bits alone. */
  lemma SinglesInsert(st: State, st': State, k: nat, r: Request)
    requires Ordered(st) && k <= |st.head| && st'.head == Insert(st.head, k, r) && !r.started
    requires st'.ordseq == st.ordseq && st'.taken == st.taken && st'.bars == st.bars
    requires st'.flight <= st.flight && st'.sched <= st.sched
    ensures forall i :: 0 <= i < |st'.head| ==> StartedOk(st', st'.head[i])
    ensures forall t :: t in st'.flight ==> FlightOk(st', t)
    ensures forall t :: t in st'.sched ==> SchedOk(st', t)
  {
  }

  lemma DispatchKeepsOrdered(st: State, rq: Request, k: nat)
    requires Inv(st) && Ordered(st) && Enabled(st, Dispatch(rq, k))
    ensures Ordered(DoDispatch(st, rq, k))
  {
    DispatchList(st, rq, k);
    assert SchedOk(st, rq);
    SinglesInsert(st, DoDispatch(st, rq, k), k, rq);
  }

  // ---------------------------------------------------------------- start

  lemma StartList(st: State, k: nat)
    requires Ordered(st) && k < |st.head| && st.head[k].started
    ensures ListOk(DoStart(st, k))
  {
    var st' := DoStart(st, k);
    assert StartedOk(st, st.head[k]);
    forall g | st'.taken <= g < st'.bars ensures BarrierAt(st'.head, g) {
      BarrierAtRemove(st.head, k, g);
    }
    forall i, j | 0 <= i < j < |st'.head| && Fs(st'.head[i]) && Fs(st'.head[j])
      ensures Before(st'.head[i], st'.head[j])
    {
      var i', j' := if i < k then i else i + 1, if j < k then j else j + 1;
      assert st'.head[i] == st.head[i'] && st'.head[j] == st.head[j'];
    }
  }

  lemma StartOld(st: State, k: nat, i: nat)
    requires forall j :: 0 <= j < |st.head| ==> OldOk(st, j)
    requires k < |st.head| && i < |st.head| - 1
    ensures OldOk(DoStart(st, k), i)
  {
    var st' := DoStart(st, k);
    var i' := if i < k then i else i + 1;
    assert OldOk(st, i');
    if Fs(st'.head[i]) && st'.head[i].gen < st'.taken {
      forall j | 0 <= j < i ensures InFront(st', st'.head[j]) {
        assert st'.head[j] == st.head[if j < k then j else j + 1];
      }
    }
  }

  lemma StartKeepsOrdered(st: State, k: nat)
    requires Inv(st) && Ordered(st) && Enabled(st, Start(k))
    ensures Ordered(DoStart(st, k))
  {
    var st' := DoStart(st, k);
    StartList(st, k);
    forall i | 0 <= i < |st'.head| ensures OldOk(st', i) && StartedOk(st', st'.head[i]) {
      StartOld(st, k, i);
      assert StartedOk(st, st.head[if i < k then i else i + 1]);
    }
    forall r | r in st'.flight ensures FlightOk(st', r) {
      if r in st.flight {
        assert FlightOk(st, r);
      } else {
        assert r == st.head[k] && OldOk(st, k) && StartedOk(st, st.head[k]);
      }
    }
    forall r | r in st'.sched ensures SchedOk(st', r) { assert SchedOk(st, r); }
  }

  // ---------------------------------------------------------------- requeue

  /** A requeued request goes in front of everything of a later stage. */
  lemma RequeuePlace(st: State, rq: Request)
    requires Inv(st) && Ordered(st) && rq in st.flight
    ensures var k := if st.ordseq == IDLE then 0 else RequeuePoint(st, ReqSeq(st, rq), 0);
            && (rq.role.Submitted? ==> k == 0)
            && (forall i :: k <= i < |st.head| && Fs(st.head[i]) && st.head[i].gen < st.taken ==> rq.role.Submitted?)
  {
    assert FlightOk(st, rq);
    if st.ordseq != IDLE {
      if rq.role.Submitted? && rq.fs { ColorExact(st, rq); }
      var k := RequeuePoint(st, ReqSeq(st, rq), 0);
      if rq.role.Submitted? {
        assert ReqSeq(st, rq) == ORDSEQ_DRAIN;
        if st.head != [] { DrainIsLeast(st, st.head[0]); }
      } else {
        forall i | k <= i < |st.head| ensures !(Fs(st.head[i]) && st.head[i].gen < st.taken) {
          FrontIsDrain(st, i, k);
        }
      }
    }
  }

  /** What stands in front of an earlier-generation request counts as DRAIN. */
  lemma FrontIsDrain(st: State, i: nat, k: nat)
    requires Inv(st) && Ordered(st) && st.ordseq != IDLE && k <= i < |st.head|
    ensures Fs(st.head[i]) && st.head[i].gen < st.taken ==> ReqSeq(st, st.head[k]) == ORDSEQ_DRAIN
  {
    assert OldOk(st, i) && OldOk(st, k);
    assert Known(st, st.head[k]);
    OrigGen(st);
    if Fs(st.head[k]) { KnownGen(st, st.head[k]); }
  }

  lemma RequeueKeepsOrdered(st: State, rq: Request)
    requires Inv(st) && Ordered(st) && Enabled(st, Requeue(rq))
    ensures Ordered(DoRequeue(st, rq))
  {
    var back := rq.(started := false, soft := true);
    var k := if st.ordseq == IDLE then 0 else RequeuePoint(st, ReqSeq(st, rq), 0);
    RequeueList(st, rq);
    SinglesInsert(st, DoRequeue(st, rq), k, back);
  }

  lemma RequeueList(st: State, rq: Request)
    requires Inv(st) && Ordered(st) && Enabled(st, Requeue(rq))
    ensures var st' := DoRequeue(st, rq); ListOk(st') && forall i :: 0 <= i < |st'.head| ==> OldOk(st', i)
  {
    var st' := DoRequeue(st, rq);
    var back := rq.(started := false, soft := true);
    var k := if st.ordseq == IDLE then 0 else RequeuePoint(st, ReqSeq(st, rq), 0);
    assert FlightOk(st, rq);
    RequeuePlace(st, rq);
    forall i | 0 <= i < |st.head| && Fs(st.head[i]) ensures Fs(back) ==> Before(back, st.head[i]) {
      assert OldOk(st, i);
    }
    ListInsert(st, st', k, back);
    OldInsert(st, st', k, back);
  }

  // ---------------------------------------------------------------- stage completion

  /** No request from before the running barrier is left. */
  ghost predicate Drained(st: State) {
    && (forall k :: 0 <= k < |st.head| && Fs(st.head[k]) ==> st.head[k].gen >= st.taken)
    && (forall r :: r in st.flight ==> !Fs(r))
  }

  /** No proxy has been handed over or promised. */
  ghost predicate NoneStarted(st: State) {
    && (forall k :: 0 <= k < |st.head| && !st.head[k].role.Submitted? ==> !st.head[k].started)
    && (forall r :: r in st.flight ==> r.role.Submitted?)
  }

  lemma CompleteSeqKeepsOrdered(st: State, bits: Bits, error: int)
    requires Ordered(st) && AllKnown(st) && st.ordseq != IDLE && NoneStarted(st)
    requires st.ordseq.Or(bits).drain ==> Drained(st)
    requires Finishes(st, bits) ==> forall k :: 0 <= k < |st.head| ==> st.head[k].role.Submitted?
    requires !bits.started
    ensures Ordered(CompleteSeq(st, bits, error))
  {
    var st' := CompleteSeq(st, bits, error);
    CompleteSeqFields(st, bits, error);
    if Finishes(st, bits) { assert st.ordseq.Or(bits).drain; }
    BitsKeepOrdered(st, st');
  }

  predicate SameButBits(st: State, st': State) {
    && st'.mode == st.mode && st'.ordered == st.ordered && st'.orig == st.orig
    && st'.ordcolor == st.ordcolor && st'.subs == st.subs && st'.bars == st.bars && st'.taken == st.taken
    && st'.head == st.head && st'.sched == st.sched
  }

  lemma CompleteSeqFields(st: State, bits: Bits, error: int)
    ensures SameButBits(st, CompleteSeq(st, bits, error))
    ensures CompleteSeq(st, bits, error).flight == st.flight
    ensures CompleteSeq(st, bits, error).ordseq == if Finishes(st, bits) then IDLE else st.ordseq.Or(bits)
  {
  }

  /** Changing the stage bits is harmless when no stage is under way. */
  lemma BitsKeepOrdered(st: State, st': State)
    requires Ordered(st) && st.ordseq != IDLE && NoneStarted(st)
    requires SameButBits(st, st') && st'.flight == st.flight
    requires !StillDraining(st') ==> Drained(st)
    requires st'.ordseq == IDLE ==> forall k :: 0 <= k < |st.head| ==> st.head[k].role.Submitted?
    ensures Ordered(st')
  {
  }

  /** The drain test is sound: when it passes, nothing from before the barrier is left. */
  lemma DrainOverMeansDrained(st: State)
    requires Inv(st) && Ordered(st) && DrainOver(st)
    ensures Drained(st) && NoneStarted(st)
  {
    forall k | 0 <= k < |st.head| && Fs(st.head[k]) ensures st.head[k].gen >= st.taken {
      FrontIsDrain(st, k, 0);
    }
    NoFsInFlight(st);
    forall k | 0 <= k < |st.head| && !st.head[k].role.Submitted? ensures !st.head[k].started {
      assert StartedOk(st, st.head[k]);
    }
    forall r | r in st.flight ensures r.role.Submitted? { assert FlightOk(st, r); }
  }

  lemma NoFsInFlight(st: State)
    requires CountsOk(st) && st.inFlight == 0
    ensures forall r :: r in st.flight ==> !Fs(r)
  {
    forall r | r in st.flight ensures !Fs(r) {
      assert AccountedIn(st.flight) == {};
      assert Fs(r) ==> r in AccountedIn(st.flight);
    }
  }

  lemma NoProxyListed(st: State, covered: Bits)
    requires AllKnown(st) && StagesAre(st, covered) && covered.preflush && covered.bar && covered.postflush
    ensures forall k :: 0 <= k < |st.head| ==> st.head[k].role.Submitted?
  {
  }

  lemma DrainKeepsOrdered(st: State)
    requires Inv(st) && Ordered(st) && DrainOver(st)
    ensures Ordered(CompleteSeq(st, DRAIN_BIT, 0))
  {
    DrainOverMeansDrained(st);
    if Finishes(st, DRAIN_BIT) { NoProxyListed(st, st.ordseq); }
    CompleteSeqKeepsOrdered(st, DRAIN_BIT, 0);
  }

  /** Taking requests away from the driver cannot disturb the order. */
  lemma LessFlightKeepsOrdered(st: State, st': State)
    requires Ordered(st) && SameButBits(st, st') && st'.ordseq == st.ordseq && st'.flight <= st.flight
    ensures Ordered(st')
  {
  }

  /** Only the stage being served is at the driver. */
  lemma LastStageOff(st: State, rq: Request)
    requires Inv(st) && Ordered(st) && rq in st.flight && !rq.role.Submitted?
    ensures st.ordseq != IDLE && StageSeq(rq.role) == CurSeq(st.ordseq)
    ensures NoneStarted(Off(st, rq)) && Drained(Off(st, rq))
  {
    assert FlightOk(st, rq) && Known(st, rq);
    DistinctLessFlight(st.head, st.sched, st.flight, rq);
    var off := Off(st, rq);
    forall k | 0 <= k < |st.head| && !st.head[k].role.Submitted? ensures !st.head[k].started {
      assert !Same(st.head[k], rq);
      assert Known(st, st.head[k]) && StartedOk(st, st.head[k]);
    }
    forall r | r in off.flight ensures r.role.Submitted? {
      assert !Same(rq, r);
      assert Known(st, r) && FlightOk(st, r);
    }
    forall k | 0 <= k < |st.head| && Fs(st.head[k]) ensures st.head[k].gen >= st.taken { assert OldOk(st, k); }
    forall r | r in off.flight ensures !Fs(r) { assert FlightOk(st, r); }
  }

  lemma ProxyCompleteKeepsOrdered(st: State, rq: Request, error: int)
    requires Inv(st) && Ordered(st) && rq in st.flight && !rq.role.Submitted?
    ensures Ordered(DoComplete(st, rq, error))
  {
    LastStageOff(st, rq);
    OffKeepsInv(st, rq);
    var bits := StageBit(rq.role);
    ReportedPending(Off(st, rq), rq, error, bits);
    var off := Reported(Off(st, rq), rq, error);
    LessFlightKeepsOrdered(st, off);
    assert NoneStarted(off) && Drained(off);
    StageKeepsOrdered(off, bits, error);
    ProxyCompleteShape(st, rq, error);
  }

  lemma StageKeepsOrdered(st: State, bits: Bits, error: int)
    requires InvPending(st, bits) && Ordered(st) && NoneStarted(st) && Drained(st)
    requires st.ordseq != IDLE && st.ordseq.drain && CurSeq(st.ordseq) != ORDSEQ_DRAIN
    ensures Ordered(MarkedStage(st, bits, error))
  {
    if Finishes(st, bits) { NoProxyListed(st, st.ordseq.Or(bits)); }
    CompleteSeqKeepsOrdered(st, bits, error);
  }

  lemma CompleteKeepsOrdered(st: State, rq: Request, error: int)
    requires Inv(st) && Ordered(st) && rq in st.flight
    ensures Ordered(DoComplete(st, rq, error))
  {
    if rq.role.Submitted? {
      var off := Off(st, rq);
      OffKeepsInv(st, rq);
      LessFlightKeepsOrdered(st, off);
      if DrainOver(off) { DrainKeepsOrdered(off); }
    } else {
      ProxyCompleteKeepsOrdered(st, rq, error);
    }
  }

  // ---------------------------------------------------------------- the gate

  ghost predicate BarrierDue(st: State) {
    BarrierReady(st) && Ordered(st)
  }

  /** The barrier at the head is the next one in generation order, and
      everything behind it is younger. */
  lemma HeadBarrier(st: State)
    requires BarrierDue(st)
    ensures st.head[0].role.Submitted? && st.head[0].gen == st.taken < st.bars
    ensures forall k :: 0 < k < |st.head| && Fs(st.head[k]) ==> st.head[k].gen > st.taken && !st.head[k].started
  {
    var b := st.head[0];
    IdleMeansSubmitted(st);
    assert Known(st, b);
    KnownGen(st, b);
    assert b.gen > st.taken ==> false by {
      if b.gen > st.taken { BarrierFirst(st, 0); }
    }
    forall k | 0 < k < |st.head| && Fs(st.head[k]) ensures st.head[k].gen > st.taken && !st.head[k].started {
      assert Before(st.head[0], st.head[k]);
      assert StartedOk(st, st.head[k]);
    }
  }

  /** The list behind the barrier that was taken. */
  lemma TakenList(st: State, rest: State)
    requires BarrierDue(st) && rest.head == st.head[1..] && rest.taken == st.taken + 1 && rest.bars == st.bars
    ensures ListOk(rest)
    ensures forall k :: 0 <= k < |rest.head| ==>
              rest.head[k].role.Submitted?
              && (Fs(rest.head[k]) ==> rest.head[k].gen >= rest.taken && !rest.head[k].started)
  {
    HeadBarrier(st);
    IdleMeansSubmitted(st);
    forall g | rest.taken <= g < rest.bars ensures BarrierAt(rest.head, g) {
      BarrierAtRemove(st.head, 0, g);
      assert Remove(st.head, 0) == rest.head;
    }
    forall i, j | 0 <= i < j < |rest.head| && Fs(rest.head[i]) && Fs(rest.head[j])
      ensures Before(rest.head[i], rest.head[j])
    {
      assert Before(st.head[i + 1], st.head[j + 1]);
    }
    forall k | 0 <= k < |rest.head|
      ensures Fs(rest.head[k]) ==> rest.head[k].gen >= rest.taken && !rest.head[k].started
    {
      assert rest.head[k] == st.head[k + 1];
    }
  }

  /** Proxies in front of a list leave its order alone. */
  lemma ProxiesKeepList(rest: State, st1: State, p: seq<Request>)
    requires ListOk(rest) && st1.head == p + rest.head && st1.taken == rest.taken && st1.bars == rest.bars
    requires forall k :: 0 <= k < |p| ==> !p[k].role.Submitted?
    ensures ListOk(st1)
  {
    forall g | st1.taken <= g < st1.bars ensures BarrierAt(st1.head, g) {
      assert BarrierAt(rest.head, g);
      var i :| 0 <= i < |rest.head| && Fs(rest.head[i]) && rest.head[i].hard && rest.head[i].gen == g;
      assert st1.head[i + |p|] == rest.head[i];
    }
    forall i, j | 0 <= i < j < |st1.head| && Fs(st1.head[i]) && Fs(st1.head[j])
      ensures Before(st1.head[i], st1.head[j])
    {
      assert i >= |p|;
      assert Before(rest.head[i - |p|], rest.head[j - |p|]);
    }
  }

  lemma FirstBitsList(st: State)
    requires BarrierDue(st)
    ensures ListOk(FirstBits(st))
    ensures var st1 := FirstBits(st); forall k :: 0 <= k < |st1.head| ==>
              (Fs(st1.head[k]) ==> st1.head[k].gen >= st1.taken)
              && (st1.head[k].started ==> st1.head[k].role.Submitted? && !st1.head[k].fs)
  {
    var st1 := FirstBits(st);
    var rest := st1.(head := st.head[1..]);
    TakenList(st, rest);
    var p := Proxies(st1.ordered, st1.orig);
    assert forall k :: 0 <= k < |p| ==> !p[k].role.Submitted? && !p[k].started;
    ProxiesKeepList(rest, st1, p);
    forall k | 0 <= k < |st1.head|
      ensures (Fs(st1.head[k]) ==> st1.head[k].gen >= st1.taken)
              && (st1.head[k].started ==> st1.head[k].role.Submitted? && !st1.head[k].fs)
    {
      assert st1.head[k] == if k < |p| then p[k] else rest.head[k - |p|];
    }
  }

  lemma FirstBitsOrdered(st: State)
    requires BarrierDue(st)
    ensures Ordered(FirstBits(st)) && NoneStarted(FirstBits(st))
  {
    var st1 := FirstBits(st);
    HeadBarrier(st);
    FirstBitsList(st);
    IdleMeansSubmitted(st);
    assert GensOk(st1) by {
      forall i | 0 <= i < |st1.subs| ensures GenOk(st1, st1.subs[i]) { assert GenOk(st, st.subs[i]); }
    }
    forall r | r in st1.flight ensures FlightOk(st1, r) { assert FlightOk(st, r); }
    forall r | r in st1.sched ensures SchedOk(st1, r) { assert SchedOk(st, r); }
    forall k | 0 <= k < |st1.head| ensures OldOk(st1, k) && StartedOk(st1, st1.head[k]) {
    }
  }

  lemma StartOrderedKeepsOrdered(st: State)
    requires BarrierDue(st) && st.mode != NONE
    ensures Ordered(StartOrdered(st).0)
  {
    var st1 := FirstBits(st);
    var skip := SkipBits(st1.ordered, Draining(st1));
    FirstBitsInv(st);
    FirstBitsOrdered(st);
    FirstBitsList(st);
    if !Draining(st1) { NoFsInFlight(st1); }
    if Finishes(st1, skip) { NoProxyListed(st1, st1.ordseq.Or(skip)); }
    CompleteSeqKeepsOrdered(st1, skip, 0);
  }

  /** What start_ordered hands over is the stage the bits say is due. */
  lemma FirstProxyDue(st: State)
    requires BarrierDue(st) && st.mode != NONE && StartOrdered(st).1 == Hand
    ensures var st1 := StartOrdered(st).0;
            st1.head != [] && st1.ordseq != IDLE && !st1.head[0].role.Submitted?
            && StageSeq(st1.head[0].role) == CurSeq(st1.ordseq)
  {
    var st1 := FirstBits(st);
    var p := Proxies(st1.ordered, st1.orig);
    assert st1.head[0] == p[0];
  }

  /** The request the gate lets through may be handed over. */
  lemma HandedIsDue(st: State)
    requires Inv(st) && Ordered(st) && st.head != [] && DoOrdered(st).1 == Hand
    requires !(st.ordseq == IDLE && st.head[0].IsBarrier())
    ensures StartedOk(st, st.head[0].(started := true))
  {
    var r := st.head[0];
    assert Known(st, r) && OldOk(st, 0);
    if r.role.Submitted? {
      KnownGen(st, r);
      if r.fs {
        if st.ordseq == IDLE {
          if r.gen > st.taken { BarrierFirst(st, 0); }
        } else {
          ColorExact(st, r);
        }
      }
    } else {
      assert AtHead(st.head, r.role, r.id);
    }
  }

  lemma MarkKeepsOrdered(st: State)
    requires Ordered(st) && st.head != [] && StartedOk(st, st.head[0].(started := true))
    ensures Ordered(st.(head := Mark(st.head)))
  {
    var st' := st.(head := Mark(st.head));
    assert forall k :: 0 < k < |st.head| ==> st'.head[k] == st.head[k];
    assert GensOk(st') by {
      forall i | 0 <= i < |st'.subs| ensures GenOk(st', st'.subs[i]) { assert GenOk(st, st.subs[i]); }
    }
    MarkList(st, st');
    forall k | 0 <= k < |st.head| ensures OldOk(st', k) && StartedOk(st', st'.head[k]) {
      MarkOld(st, st', k);
      assert StartedOk(st, st.head[k]);
    }
    forall r | r in st'.flight ensures FlightOk(st', r) { assert FlightOk(st, r); }
    forall r | r in st'.sched ensures SchedOk(st', r) { assert SchedOk(st, r); }
  }

  lemma MarkList(st: State, st': State)
    requires ListOk(st) && st.head != [] && st'.head == Mark(st.head) && st'.taken == st.taken && st'.bars == st.bars
    ensures ListOk(st')
  {
    assert st'.head[0] == st.head[0].(started := true);
    assert forall k :: 0 < k < |st.head| ==> st'.head[k] == st.head[k];
    forall g | st'.taken <= g < st'.bars ensures BarrierAt(st'.head, g) {
      assert BarrierAt(st.head, g);
      var i :| 0 <= i < |st.head| && Fs(st.head[i]) && st.head[i].hard && st.head[i].gen == g;
      assert Fs(st'.head[i]);
    }
    forall i, j | 0 <= i < j < |st'.head| && Fs(st'.head[i]) && Fs(st'.head[j])
      ensures Before(st'.head[i], st'.head[j])
    {
      assert Before(st.head[i], st.head[j]);
    }
  }

  lemma MarkOld(st: State, st': State, k: nat)
    requires st.head != [] && st'.head == Mark(st.head) && st'.taken == st.taken && st'.ordseq == st.ordseq
    requires k < |st.head| && OldOk(st, k)
    ensures OldOk(st', k)
  {
  }

  lemma PeekKeepsOrdered(st: State)
    requires Inv(st) && Ordered(st) && st.head != []
    ensures Ordered(DoPeek(st))
  {
    var (st1, verdict) := DoOrdered(st);
    if st.ordseq == IDLE && st.head[0].IsBarrier() {
      StartOrderedKeepsOrdered(st);
      if verdict == Hand {
        FirstProxyDue(st);
        MarkKeepsOrdered(st1);
      }
    } else if verdict == Hand {
      HandedIsDue(st);
      MarkKeepsOrdered(st);
    }
  }

  lemma StepKeepsOrdered(st: State, s: Step)
    requires Inv(st) && Ordered(st) && Enabled(st, s) && Disciplined(s)
    ensures Ordered(Apply(st, s))
  {
    match s
    case Add(_, _, _, _, _, _, _) => AddKeepsOrdered(st, s);
    case Dispatch(rq, k) => DispatchKeepsOrdered(st, rq, k);
    case Peek => PeekKeepsOrdered(st);
    case Start(k) => StartKeepsOrdered(st, k);
    case Complete(rq, error) => CompleteKeepsOrdered(st, rq, error);
    case BarError(error) => LessFlightKeepsOrdered(st, Apply(st, s));
    case Requeue(rq) => RequeueKeepsOrdered(st, rq);
  }
}
