/**
 The order invariant of the draining modes: how the dispatch list, the driver
 and the scheduler are partitioned by barrier generation, and why the single
 colour bit tells the generations apart wherever the code looks at it.
 */
module BarrierOrder {
  import opened Barrier
  import opened BarrierInvariant

  /** A submitted fs request, the kind the barrier orders. */
  predicate Fs(r: Request) { r.role.Submitted? && r.fs }

  /** Generations never go back in submission order, and step up after a barrier. */
  ghost predicate GensOk(st: State) {
    && (forall i :: 0 <= i < |st.subs| ==> GenOk(st, st.subs[i]))
    && (forall i, j :: 0 <= i < j < |st.subs| ==> Before(st.subs[i], st.subs[j]))
    && st.ordcolor == (st.bars % 2 == 1)
  }

  predicate GenOk(st: State, r: Request) {
    && r.gen <= st.bars
    && (r.hard ==> r.fs && r.gen < st.bars)
    && r.color == (r.gen % 2 == 1)
  }

  predicate Before(a: Request, b: Request) {
    a.gen <= b.gen && (a.hard ==> a.gen < b.gen)
  }

  /** The scheduler holds only the newest generation, and no barrier. */
  predicate SchedOk(st: State, r: Request) {
    !r.hard && !r.soft && !r.started && (r.fs ==> r.gen == st.bars)
  }

  predicate BarrierAt(head: seq<Request>, g: nat) {
    exists k :: 0 <= k < |head| && Fs(head[k]) && head[k].hard && head[k].gen == g
  }

  /** The barriers not yet taken are all in the dispatch list, which is in
      generation order. */
  ghost predicate ListOk(st: State) {
    && st.taken <= st.bars
    && (forall g :: st.taken <= g < st.bars ==> BarrierAt(st.head, g))
    && (forall j, k :: 0 <= j < k < |st.head| && Fs(st.head[j]) && Fs(st.head[k]) ==> Before(st.head[j], st.head[k]))
    && (forall k :: 0 <= k < |st.head| && Fs(st.head[k]) && st.head[k].hard ==> st.head[k].gen >= st.taken)
  }

  /** Waits in front of the running sequence: a request of an earlier
      generation, or one barriers do not order. */
  predicate InFront(st: State, r: Request) {
    r.role.Submitted? && (!r.fs || r.gen < st.taken)
  }

  predicate StillDraining(st: State) {
    st.ordseq != IDLE && !st.ordseq.drain
  }

  /** An unfinished request from before the running barrier forces the drain
      stage to be open; in the list it was requeued, so it is at the front. */
  ghost predicate OldOk(st: State, k: nat)
    requires k < |st.head|
  {
    Fs(st.head[k]) && st.head[k].gen < st.taken ==>
      && StillDraining(st)
      && st.head[k].gen == st.taken - 1
      && st.head[k].soft
      && forall j :: 0 <= j < k ==> InFront(st, st.head[j])
  }

  /** Started but still listed: it may be handed over at any time. */
  predicate StartedOk(st: State, r: Request) {
    r.started ==>
      if r.role.Submitted? then
        r.fs ==> !r.hard && (if st.ordseq == IDLE then r.gen <= st.taken else r.gen < st.taken)
      else st.ordseq != IDLE && StageSeq(r.role) == CurSeq(st.ordseq)
  }

  /** At the driver: the current generation, or the one being drained. */
  predicate FlightOk(st: State, r: Request) {
    if r.role.Submitted? then
      r.fs ==> !r.hard && (if st.ordseq == IDLE then r.gen == st.taken else StillDraining(st) && r.gen == st.taken - 1)
    else st.ordseq != IDLE && StageSeq(r.role) == CurSeq(st.ordseq)
  }

  predicate OrigOk(st: State) {
    && st.mode.byDrain && !st.mode.byTag
    && (st.ordseq != IDLE ==>
          st.ordered.byDrain && !st.ordered.byTag && st.taken > 0 && st.orig.gen == st.taken - 1 && st.orig.fs)
  }

  ghost predicate Ordered(st: State) {
    && GensOk(st)
    && (forall r :: r in st.sched ==> SchedOk(st, r))
    && ListOk(st)
    && (forall k :: 0 <= k < |st.head| ==> OldOk(st, k) && StartedOk(st, st.head[k]))
    && (forall r :: r in st.flight ==> FlightOk(st, r))
    && OrigOk(st)
  }

  // ---------------------------------------------------------------- consequences

  /** Every listed request of generation g comes after barrier g - 1 if that is still listed. */
  lemma BarrierFirst(st: State, k: nat)
    requires ListOk(st) && k < |st.head| && Fs(st.head[k]) && st.head[k].gen > st.taken
    requires st.head[k].gen <= st.bars
    ensures k > 0
  {
    assert BarrierAt(st.head, st.taken);
    var j :| 0 <= j < |st.head| && Fs(st.head[j]) && st.head[j].hard && st.head[j].gen == st.taken;
  }

  lemma KnownGen(st: State, r: Request)
    requires GensOk(st) && Known(st, r) && r.role.Submitted?
    ensures GenOk(st, r)
  {
  }

  lemma OrigGen(st: State)
    requires GensOk(st) && SubsOk(st) && st.ordseq != IDLE
    ensures GenOk(st, st.orig)
  {
  }

  lemma DrainIsLeast(st: State, r: Request)
    ensures ReqSeq(st, r) >= ORDSEQ_DRAIN
  {
  }

  /** The colour test is exact for a request at the head of the list or at the
      driver, although generations two apart share a colour. */
  lemma ColorExact(st: State, r: Request)
    requires Inv(st) && Ordered(st) && st.ordseq != IDLE && Fs(r)
    requires (st.head != [] && r == st.head[0]) || r in st.flight
    ensures ReqSeq(st, r) == ORDSEQ_DRAIN <==> r.gen <= st.orig.gen
  {
    OrigGen(st);
    if r in st.flight {
      assert FlightOk(st, r);
      assert Known(st, r);
      KnownGen(st, r);
    } else {
      assert Known(st, r);
      KnownGen(st, r);
      assert OldOk(st, 0);
      if r.gen > st.taken { BarrierFirst(st, 0); }
    }
  }

  /** blk_do_ordered's WARN_ON never fires. */
  lemma GateNeverLate(st: State)
    requires Inv(st) && Ordered(st) && st.ordseq != IDLE && st.head != []
    requires st.head[0].fs || st.head[0].role in {PreFlush, PostFlush}
    ensures ReqSeq(st, st.head[0]) >= CurSeq(st.ordseq)
  {
    var r := st.head[0];
    assert Known(st, r);
    if r.role.Submitted? {
      ColorExact(st, r);
      assert OldOk(st, 0);
    } else {
      assert AtHead(st.head, r.role, r.id);
    }
  }
}
