/**
 Every step of the barrier protocol keeps the invariant, whatever the ordering
 mode and whatever the scheduler, the driver and the submitters do.
 */
module BarrierSteps {
  import opened Barrier
  import opened BarrierInvariant

  // ---------------------------------------------------------------- add

  lemma NewIsFresh(st: State, s: Step, r: Request)
    requires AllKnown(st) && s.Add? && Same(r, NewRequest(st, s))
    ensures forall i :: 0 <= i < |st.head| ==> !Same(st.head[i], r)
    ensures forall t :: t in st.sched || t in st.flight ==> !Same(r, t)
  {
  }

  lemma AddDistinct(st: State, s: Step)
    requires Inv(st) && s.Add?
    ensures var st' := DoAdd(st, s); Distinct(st'.head, st'.sched, st'.flight)
  {
    var rq := NewRequest(st, s);
    var soft := rq.(soft := true);
    NewIsFresh(st, s, soft);
    NewIsFresh(st, s, rq);
    match Route(s)
    case Front =>
      DistinctInsert(st.head, st.sched, st.flight, 0, soft);
      assert Insert(st.head, 0, soft) == [soft] + st.head;
    case Back =>
      DistinctInsert(st.head, st.sched, st.flight, |st.head|, soft);
      assert Insert(st.head, |st.head|, soft) == st.head + [soft];
    case Sort =>
      DistinctMoreSched(st.head, st.sched, st.flight, rq);
  }

  lemma AddOutstanding(st: State, s: Step, role: Role, id: nat)
    requires s.Add?
    ensures Outstanding(DoAdd(st, s), role, id) <==> (Outstanding(st, role, id) || (role.Submitted? && id == |st.subs|))
  {
    var rq := NewRequest(st, s);
    var soft := rq.(soft := true);
    match Route(s)
    case Front =>
      AtHeadInsert(st.head, 0, soft, role, id);
      assert Insert(st.head, 0, soft) == [soft] + st.head;
    case Back =>
      AtHeadInsert(st.head, |st.head|, soft, role, id);
      assert Insert(st.head, |st.head|, soft) == st.head + [soft];
    case Sort =>
      AmongAdd(st.sched, rq, role, id);
  }

  /** A request that was accounted for stays so when a new one is submitted. */
  lemma KnownStays(st: State, st': State, r: Request)
    requires Known(st, r) && SubsOk(st)
    requires |st'.subs| == |st.subs| + 1 && st'.subs[..|st.subs|] == st.subs
    requires st'.done == st.done && st'.ordseq == st.ordseq && st'.orig == st.orig
    ensures Known(st', r)
  {
  }

  lemma AddKnown(st: State, s: Step)
    requires AllKnown(st) && SubsOk(st) && s.Add?
    ensures AllKnown(DoAdd(st, s))
  {
    var st' := DoAdd(st, s);
    forall r | r in st.flight ensures Known(st', r) { KnownStays(st, st', r); }
    forall r | r in st'.sched ensures Known(st', r) && r.role.Submitted? {
      if r in st.sched { KnownStays(st, st', r); } else { AddKnownNew(st, s); }
    }
    forall k | 0 <= k < |st'.head| ensures Known(st', st'.head[k]) { AddKnownHead(st, s, k); }
  }

  lemma AddKnownHead(st: State, s: Step, k: nat)
    requires AllKnown(st) && SubsOk(st) && s.Add? && k < |DoAdd(st, s).head|
    ensures Known(DoAdd(st, s), DoAdd(st, s).head[k])
  {
    var st' := DoAdd(st, s);
    if Route(s) == Front {
      if k > 0 { KnownStays(st, st', st.head[k - 1]); } else { AddKnownNew(st, s); }
    } else {
      if k < |st.head| { KnownStays(st, st', st.head[k]); } else { AddKnownNew(st, s); }
    }
  }

  lemma AddKnownNew(st: State, s: Step)
    requires SubsOk(st) && s.Add?
    ensures Known(DoAdd(st, s), NewRequest(st, s)) && Known(DoAdd(st, s), NewRequest(st, s).(soft := true))
    ensures SubsOk(DoAdd(st, s))
  {
  }

  lemma AddKeepsInv(st: State, s: Step)
    requires Inv(st) && s.Add? && Enabled(st, s)
    ensures Inv(DoAdd(st, s))
  {
    var st' := DoAdd(st, s);
    AddDistinct(st, s);
    AddKnown(st, s);
    AddKnownNew(st, s);
    forall i | 0 <= i < |st'.subs| ensures Covered(st', i) {
      AddOutstanding(st, s, Role.Submitted, i);
      if i < |st.subs| { assert Covered(st, i); }
    }
    AddOutstanding(st, s, PreFlush, st.orig.id);
    AddOutstanding(st, s, BarProxy, st.orig.id);
    AddOutstanding(st, s, PostFlush, st.orig.id);
  }

  // ---------------------------------------------------------------- dispatch, start, requeue

  lemma DispatchKeepsInv(st: State, rq: Request, k: nat)
    requires Inv(st) && Enabled(st, Dispatch(rq, k))
    ensures Inv(DoDispatch(st, rq, k))
  {
    var st' := DoDispatch(st, rq, k);
    DistinctLessSched(st.head, st.sched, st.flight, rq);
    DistinctInsert(st.head, st.sched - {rq}, st.flight, k, rq);
    assert forall r :: Known(st, r) ==> Known(st', r);
    assert AllKnown(st');
    forall role, id ensures Outstanding(st', role, id) <==> Outstanding(st, role, id) {
      AtHeadInsert(st.head, k, rq, role, id);
      AmongDel(st.sched, rq, role, id);
      assert rq in st.sched;
    }
    MoveKeeps(st, st', CoveredBits(st.ordseq));
  }

  lemma StartKeepsInv(st: State, k: nat)
    requires Inv(st) && Enabled(st, Start(k))
    ensures Inv(DoStart(st, k))
  {
    var st' := DoStart(st, k);
    var rq := st.head[k];
    StartDistinct(st, k);
    assert rq !in st.flight by { assert Same(rq, rq); }
    CountAdd(st.flight, rq);
    assert forall r :: Known(st, r) ==> Known(st', r);
    assert AllKnown(st');
    forall role, id ensures Outstanding(st', role, id) <==> Outstanding(st, role, id) {
      AtHeadRemove(st.head, k, role, id);
      AmongAdd(st.flight, rq, role, id);
    }
    MoveKeeps(st, st', CoveredBits(st.ordseq));
  }

  lemma StartDistinct(st: State, k: nat)
    requires Distinct(st.head, st.sched, st.flight) && k < |st.head|
    ensures Distinct(Remove(st.head, k), st.sched, st.flight + {st.head[k]})
  {
  }

  lemma RequeueKeepsInv(st: State, rq: Request)
    requires Inv(st) && Enabled(st, Requeue(rq))
    ensures Inv(DoRequeue(st, rq))
  {
    var st' := DoRequeue(st, rq);
    var back := rq.(started := false, soft := true);
    var k := if st.ordseq == IDLE then 0 else RequeuePoint(st, ReqSeq(st, rq), 0);
    CountDel(st.flight, rq);
    RequeueDistinct(st, rq, back, k);
    RequeueKnown(st, st', rq, back, k);
    forall role, id ensures Outstanding(st', role, id) <==> Outstanding(st, role, id) {
      AtHeadInsert(st.head, k, back, role, id);
      AmongDel(st.flight, rq, role, id);
      assert rq in st.flight;
    }
    MoveKeeps(st, st', CoveredBits(st.ordseq));
  }

  lemma RequeueKnown(st: State, st': State, rq: Request, back: Request, k: nat)
    requires AllKnown(st) && rq in st.flight && back == rq.(started := false, soft := true) && k <= |st.head|
    requires st'.head == Insert(st.head, k, back) && st'.sched == st.sched && st'.flight == st.flight - {rq}
    requires st'.subs == st.subs && st'.done == st.done && st'.ordseq == st.ordseq && st'.orig == st.orig
    ensures AllKnown(st')
  {
    assert forall r :: Known(st, r) ==> Known(st', r);
    assert Known(st, rq);
    assert Known(st', back);
  }

  lemma RequeueDistinct(st: State, rq: Request, back: Request, k: nat)
    requires Distinct(st.head, st.sched, st.flight) && rq in st.flight && k <= |st.head| && Same(rq, back)
    ensures Distinct(Insert(st.head, k, back), st.sched, st.flight - {rq})
  {
    DistinctLessFlight(st.head, st.sched, st.flight, rq);
    assert forall i :: 0 <= i < |st.head| ==> !Same(st.head[i], back);
    assert forall t :: t in st.sched || t in st.flight - {rq} ==> !Same(back, t);
    DistinctInsert(st.head, st.sched, st.flight - {rq}, k, back);
  }

  lemma BarErrorKeepsInv(st: State, error: int)
    requires Inv(st) && Enabled(st, BarError(error))
    ensures Inv(Apply(st, BarError(error)))
  {
    FirstNonzeroSnoc(st.reports, error);
    var st' := Apply(st, BarError(error));
    assert forall r :: Known(st, r) ==> Known(st', r);
    MoveKeeps(st, st', CoveredBits(st.ordseq));
  }

  // ---------------------------------------------------------------- completion

  lemma CompleteSeqKeepsInv(st: State, bits: Bits, error: int)
    requires InvPending(st, bits) && st.ordseq != IDLE
    ensures Inv(CompleteSeq(st, bits, error))
  {
    FirstNonzeroSnoc(st.reports, error);
    var st' := CompleteSeq(st, bits, error);
    if Finishes(st, bits) {
      assert st.ordseq.Or(bits) == ALL;
      FinishKeepsKnown(st, st');
      forall i | 0 <= i < |st'.subs| ensures Covered(st', i) { assert Covered(st, i); }
    } else {
      assert forall r :: Known(st, r) ==> Known(st', r);
      assert AllKnown(st');
      forall i | 0 <= i < |st'.subs| ensures Covered(st', i) { assert Covered(st, i); }
    }
  }

  lemma FinishKeepsKnown(st: State, st': State)
    requires AllKnown(st) && SubsOk(st) && StagesAre(st, ALL) && st.ordseq != IDLE
    requires st'.ordseq == IDLE && st'.done == st.done + {st.orig.id} && st'.subs == st.subs
    requires st'.head == st.head && st'.sched == st.sched && st'.flight == st.flight
    ensures AllKnown(st') && SubsOk(st')
  {
  }

  /** Taking a finished request away from the driver. */
  function Off(st: State, rq: Request): State {
    st.(flight := st.flight - {rq}, inFlight := if rq.started && rq.Accounted() then st.inFlight - 1 else st.inFlight,
    done := if rq.role.Submitted? then st.done + {rq.id} else st.done, log := st.log + [Leaving(rq)])
  }

  lemma OffOutstanding(st: State, rq: Request, role: Role, id: nat)
    requires Distinct(st.head, st.sched, st.flight) && rq in st.flight
    ensures Outstanding(Off(st, rq), role, id) <==> (Outstanding(st, role, id) && !(role == rq.role && id == rq.id))
  {
  }

  lemma OffKnown(st: State, rq: Request)
    requires Inv(st) && rq in st.flight
    ensures var st' := Off(st, rq); AllKnown(st') && SubsOk(st') && Distinct(st'.head, st'.sched, st'.flight)
  {
    var st' := Off(st, rq);
    DistinctLessFlight(st.head, st.sched, st.flight, rq);
    assert forall r :: Known(st, r) && !Same(r, rq) && !Same(rq, r) ==> Known(st', r);
    forall r | r in st.sched ensures Known(st', r) { assert !Same(rq, r); }
    forall r | r in st'.flight ensures Known(st', r) { assert !Same(rq, r); }
    assert Known(st, rq);
  }

  lemma OffKeepsInv(st: State, rq: Request)
    requires Inv(st) && rq in st.flight
    ensures rq.role.Submitted? ==> Inv(Off(st, rq))
    ensures !rq.role.Submitted? ==> InvPending(Off(st, rq), StageBit(rq.role))
  {
    var st' := Off(st, rq);
    CountDel(st.flight, rq);
    OffKnown(st, rq);
    assert Outstanding(st, rq.role, rq.id) by { assert rq in st.flight; }
    assert Known(st, rq);
    forall i | 0 <= i < |st'.subs| ensures Covered(st', i) {
      assert Covered(st, i);
      OffOutstanding(st, rq, Role.Submitted, i);
    }
    OffOutstanding(st, rq, PreFlush, st.orig.id);
    OffOutstanding(st, rq, BarProxy, st.orig.id);
    OffOutstanding(st, rq, PostFlush, st.orig.id);
  }

  /** With a stage still to be marked, ending the drain cannot end the sequence. */
  lemma DrainKeepsPending(st: State, bits: Bits)
    requires InvPending(st, bits) && DrainOver(st)
    requires bits in {PREFLUSH_BIT, BAR_BIT, POSTFLUSH_BIT}
    ensures InvPending(CompleteSeq(st, DRAIN_BIT, 0), bits)
    ensures CompleteSeq(st, DRAIN_BIT, 0).ordseq != IDLE
  {
    FirstNonzeroSnoc(st.reports, 0);
    var st' := CompleteSeq(st, DRAIN_BIT, 0);
    assert !Finishes(st, DRAIN_BIT);
    assert forall r :: Known(st, r) ==> Known(st', r);
    assert AllKnown(st');
    forall i | 0 <= i < |st'.subs| ensures Covered(st', i) { assert Covered(st, i); }
  }

  function Reported(st: State, rq: Request, error: int): State {
    if rq.role == BarProxy then st.(orderr := FirstError(st.orderr, error), reports := st.reports + [error]) else st
  }

  lemma ReportedPending(st: State, rq: Request, error: int, bits: Bits)
    requires InvPending(st, bits) && st.ordseq != IDLE
    ensures InvPending(Reported(st, rq, error), bits)
  {
    FirstNonzeroSnoc(st.reports, error);
    var st' := Reported(st, rq, error);
    assert forall r :: Known(st, r) ==> Known(st', r);
    assert AllKnown(st');
    MoveKeeps(st, st', CoveredBits(st.ordseq).Or(bits));
  }

  lemma ProxyCompleteKeepsInv(st: State, rq: Request, error: int)
    requires Inv(st) && rq in st.flight && !rq.role.Submitted?
    ensures Inv(DoComplete(st, rq, error))
  {
    OffKeepsInv(st, rq);
    assert Known(st, rq);
    ReportedPending(Off(st, rq), rq, error, StageBit(rq.role));
    MarkStage(Reported(Off(st, rq), rq, error), StageBit(rq.role), error);
    ProxyCompleteShape(st, rq, error);
  }

  /** elv_completed_request's drain test, then the stage itself. */
  function MarkedStage(st: State, bits: Bits, error: int): State {
    CompleteSeq(if DrainOver(st) then CompleteSeq(st, DRAIN_BIT, 0) else st, bits, error)
  }

  lemma MarkStage(st: State, bits: Bits, error: int)
    requires InvPending(st, bits) && st.ordseq != IDLE
    requires bits in {PREFLUSH_BIT, BAR_BIT, POSTFLUSH_BIT}
    ensures Inv(MarkedStage(st, bits, error))
  {
    if DrainOver(st) {
      DrainKeepsPending(st, bits);
      CompleteSeqKeepsInv(CompleteSeq(st, DRAIN_BIT, 0), bits, error);
    } else {
      CompleteSeqKeepsInv(st, bits, error);
    }
  }

  lemma ProxyCompleteShape(st: State, rq: Request, error: int)
    requires !rq.role.Submitted?
    ensures DoComplete(st, rq, error) == MarkedStage(Reported(Off(st, rq), rq, error), StageBit(rq.role), error)
  {
  }

  lemma CompleteKeepsInv(st: State, rq: Request, error: int)
    requires Inv(st) && rq in st.flight
    ensures Inv(DoComplete(st, rq, error))
  {
    if rq.role.Submitted? {
      OffKeepsInv(st, rq);
      var off := Off(st, rq);
      if DrainOver(off) { CompleteSeqKeepsInv(off, DRAIN_BIT, 0); }
    } else {
      ProxyCompleteKeepsInv(st, rq, error);
    }
  }

  // ---------------------------------------------------------------- the gate

  lemma ProxiesAtHead(m: Mode, orig: Request, rest: seq<Request>)
    requires forall k :: 0 <= k < |rest| ==> rest[k].role.Submitted?
    ensures forall id :: AtHead(rest, Role.Submitted, id) ==> AtHead(Proxies(m, orig) + rest, Role.Submitted, id)
    ensures AtHead(Proxies(m, orig) + rest, PreFlush, orig.id) <==> m.preflush
    ensures AtHead(Proxies(m, orig) + rest, BarProxy, orig.id) <==> m.bar
    ensures AtHead(Proxies(m, orig) + rest, PostFlush, orig.id) <==> m.postflush
  {
    var p := Proxies(m, orig);
    var h := p + rest;
    forall id | AtHead(rest, Role.Submitted, id) ensures AtHead(h, Role.Submitted, id) {
      var k :| 0 <= k < |rest| && rest[k].role.Submitted? && rest[k].id == id;
      assert h[|p| + k] == rest[k];
    }
    if m.preflush { assert h[0].role == PreFlush; }
    if m.bar { assert h[if m.preflush then 1 else 0].role == BarProxy; }
    if m.postflush { assert h[|p| - 1].role == PostFlush; }
  }

  ghost predicate BarrierReady(st: State) {
    Inv(st) && st.ordseq == IDLE && st.head != [] && st.head[0].IsBarrier()
  }

  /** Before a sequence starts no proxy is anywhere. */
  lemma IdleMeansSubmitted(st: State)
    requires Inv(st) && st.ordseq == IDLE
    ensures forall k :: 0 <= k < |st.head| ==> st.head[k].role.Submitted?
    ensures forall r :: r in st.flight ==> r.role.Submitted?
  {
  }

  lemma ProxiesDiffer(m: Mode, orig: Request)
    ensures var p := Proxies(m, orig);
            (forall i, j :: 0 <= i < j < |p| ==> !Same(p[i], p[j]))
            && forall i :: 0 <= i < |p| ==> !p[i].role.Submitted?
  {
  }

  lemma ProxiesDistinct(m: Mode, orig: Request, rest: seq<Request>, sched: set<Request>, flight: set<Request>)
    requires Distinct(rest, sched, flight)
    requires forall k :: 0 <= k < |rest| ==> rest[k].role.Submitted?
    requires forall r :: r in sched || r in flight ==> r.role.Submitted?
    ensures Distinct(Proxies(m, orig) + rest, sched, flight)
  {
    hide Proxies;
    var p := Proxies(m, orig);
    var h := p + rest;
    ProxiesDiffer(m, orig);
    forall i, j | 0 <= i < j < |h| ensures !Same(h[i], h[j]) {
      if i >= |p| {
        assert h[i] == rest[i - |p|] && h[j] == rest[j - |p|];
      } else if j >= |p| {
        assert h[i] == p[i] && h[j] == rest[j - |p|];
      } else {
        assert h[i] == p[i] && h[j] == p[j];
      }
    }
  }

  lemma FirstBitsDistinct(st: State)
    requires BarrierReady(st)
    ensures var st1 := FirstBits(st); Distinct(st1.head, st1.sched, st1.flight)
  {
    IdleMeansSubmitted(st);
    DistinctRemove(st.head, st.sched, st.flight, 0);
    assert Remove(st.head, 0) == st.head[1..];
    ProxiesDistinct(OrderedFor(st.mode, st.head[0].empty), st.head[0], st.head[1..], st.sched, st.flight);
  }

  lemma FirstBitsKnown(st: State)
    requires BarrierReady(st)
    ensures AllKnown(FirstBits(st)) && SubsOk(FirstBits(st))
  {
    IdleMeansSubmitted(st);
    var st1 := FirstBits(st);
    var b := st.head[0];
    var p := Proxies(st1.ordered, st1.orig);
    assert Known(st, b);
    assert forall i :: 0 <= i < |p| ==> Known(st1, p[i]);
    assert forall r :: Known(st, r) && !Same(r, b) && !Same(b, r) ==> Known(st1, r);
    forall k | |p| <= k < |st1.head| ensures Known(st1, st1.head[k]) {
      assert st1.head[k] == st.head[k - |p| + 1];
      assert !Same(b, st.head[k - |p| + 1]);
    }
    forall r | r in st.flight ensures Known(st1, r) { assert !Same(b, r); }
    forall r | r in st.sched ensures Known(st1, r) { assert !Same(b, r); }
  }

  lemma FirstBitsCovered(st: State)
    requires BarrierReady(st)
    ensures AllCovered(FirstBits(st))
  {
    IdleMeansSubmitted(st);
    var st1 := FirstBits(st);
    ProxiesAtHead(st1.ordered, st1.orig, st.head[1..]);
    forall i | 0 <= i < |st1.subs| ensures Covered(st1, i) {
      assert Covered(st, i);
      AtHeadRemove(st.head, 0, Role.Submitted, i);
      assert Remove(st.head, 0) == st.head[1..];
    }
  }

  lemma FirstBitsStages(st: State)
    requires BarrierReady(st)
    ensures var st1 := FirstBits(st); StagesAre(st1, st1.ordseq.Or(SkipBits(st1.ordered, Draining(st1))))
  {
    IdleMeansSubmitted(st);
    var st1 := FirstBits(st);
    ProxiesAtHead(st1.ordered, st1.orig, st.head[1..]);
    assert forall r :: r in st1.sched ==> r.role.Submitted?;
  }

  lemma FirstBitsInv(st: State)
    requires BarrierReady(st)
    ensures InvPending(FirstBits(st), SkipBits(FirstBits(st).ordered, Draining(FirstBits(st))))
  {
    FirstBitsDistinct(st);
    FirstBitsKnown(st);
    FirstBitsCovered(st);
    FirstBitsStages(st);
  }

  lemma RefuseKeepsInv(st: State)
    requires BarrierReady(st)
    ensures Inv(EndOrig(st.(head := st.head[1..], taken := st.taken + 1), st.head[0].id, -EOPNOTSUPP))
  {
    var b := st.head[0];
    var st' := EndOrig(st.(head := st.head[1..], taken := st.taken + 1), b.id, -EOPNOTSUPP);
    IdleMeansSubmitted(st);
    DistinctRemove(st.head, st.sched, st.flight, 0);
    assert Remove(st.head, 0) == st.head[1..];
    assert Known(st, b);
    assert forall r :: Known(st, r) && !Same(r, b) && !Same(b, r) ==> Known(st', r);
    forall r | r in st.flight ensures Known(st', r) { assert !Same(b, r); }
    forall r | r in st.sched ensures Known(st', r) { assert !Same(b, r); }
    assert AllKnown(st');
    forall i | 0 <= i < |st'.subs| ensures Covered(st', i) {
      assert Covered(st, i);
      AtHeadRemove(st.head, 0, Role.Submitted, i);
    }
    assert StagesAre(st', ALL) by {
      AtHeadRemove(st.head, 0, PreFlush, st.orig.id);
      AtHeadRemove(st.head, 0, BarProxy, st.orig.id);
      AtHeadRemove(st.head, 0, PostFlush, st.orig.id);
    }
  }

  /** blk_peek_request's REQ_STARTED mark on the head. */
  function Mark(head: seq<Request>): (r: seq<Request>)
    requires head != []
    ensures |r| == |head| && forall k :: 0 <= k < |head| ==> Same(head[k], r[k])
  {
    [head[0].(started := true)] + head[1..]
  }

  lemma MarkDistinct(head: seq<Request>, sched: set<Request>, flight: set<Request>)
    requires Distinct(head, sched, flight) && head != []
    ensures Distinct(Mark(head), sched, flight)
  {
  }

  lemma MarkAtHead(head: seq<Request>, role: Role, id: nat)
    requires head != []
    ensures AtHead(Mark(head), role, id) <==> AtHead(head, role, id)
  {
  }

  lemma MarkKnown(st: State)
    requires AllKnown(st) && st.head != []
    ensures AllKnown(st.(head := Mark(st.head)))
  {
    var st' := st.(head := Mark(st.head));
    forall r ensures Known(st', r) <==> Known(st, r) { }
    forall k | 0 <= k < |st'.head| ensures Known(st, st'.head[k]) {
      assert Known(st, st.head[k]);
      assert st'.head[k] == if k == 0 then st.head[0].(started := true) else st.head[k];
    }
  }

  lemma MarkKeepsInv(st: State)
    requires Inv(st) && st.head != []
    ensures Inv(st.(head := Mark(st.head)))
  {
    MarkDistinct(st.head, st.sched, st.flight);
    MarkKnown(st);
    forall role, id ensures AtHead(Mark(st.head), role, id) <==> AtHead(st.head, role, id) {
      MarkAtHead(st.head, role, id);
    }
    MoveKeeps(st, st.(head := Mark(st.head)), CoveredBits(st.ordseq));
  }

  lemma DoOrderedKeepsInv(st: State)
    requires Inv(st) && st.head != []
    ensures Inv(DoOrdered(st).0)
  {
    if st.ordseq == IDLE && st.head[0].IsBarrier() {
      if st.mode != NONE {
        FirstBitsInv(st);
        var st1 := FirstBits(st);
        CompleteSeqKeepsInv(st1, SkipBits(st1.ordered, Draining(st1)), 0);
      } else {
        RefuseKeepsInv(st);
      }
    }
  }

  lemma PeekKeepsInv(st: State)
    requires Inv(st) && st.head != []
    ensures Inv(DoPeek(st))
  {
    DoOrderedKeepsInv(st);
    var (st1, verdict) := DoOrdered(st);
    if verdict == Hand && st1.head != [] { MarkKeepsInv(st1); }
  }

  lemma StepKeepsInv(st: State, s: Step)
    requires Inv(st) && Enabled(st, s)
    ensures Inv(Apply(st, s))
  {
    match s
    case Add(_, _, _, _, _, _, _) => AddKeepsInv(st, s);
    case Dispatch(rq, k) => DispatchKeepsInv(st, rq, k);
    case Peek => PeekKeepsInv(st);
    case Start(k) => StartKeepsInv(st, k);
    case Complete(rq, error) => CompleteKeepsInv(st, rq, error);
    case BarError(error) => BarErrorKeepsInv(st, error);
    case Requeue(rq) => RequeueKeepsInv(st, rq);
  }
}
