/**
 What every step of the barrier protocol keeps, in every ordering mode:
 requests are neither lost nor duplicated, and the stage bits agree with the
 proxy requests that are still outstanding.
 */
module BarrierInvariant {
  import opened Barrier

  /** The same request structure. */
  predicate Same(a: Request, b: Request) {
    a.role == b.role && a.id == b.id
  }

  /** Each outstanding request is in one place. */
  ghost predicate Distinct(head: seq<Request>, sched: set<Request>, flight: set<Request>) {
    && (forall j, k :: 0 <= j < k < |head| ==> !Same(head[j], head[k]))
    && (forall k, r :: 0 <= k < |head| && r in sched ==> !Same(head[k], r))
    && (forall k, r :: 0 <= k < |head| && r in flight ==> !Same(head[k], r))
    && Apart(sched, flight)
  }

  ghost predicate Apart(sched: set<Request>, flight: set<Request>) {
    && (forall r, t :: r in sched && t in sched && Same(r, t) ==> r == t)
    && (forall r, t :: r in flight && t in flight && Same(r, t) ==> r == t)
    && (forall r, t :: r in sched && t in flight ==> !Same(r, t))
  }

  /** An outstanding request is a stage of the running sequence, or an
      unfinished submission. */
  predicate Known(st: State, r: Request) {
    if r.role.Submitted? then
      && r.id < |st.subs|
      && r.Core() == st.subs[r.id]
      && r.id !in st.done
      && (st.ordseq != IDLE ==> r.id != st.orig.id)
    else
      st.ordseq != IDLE && r.id == st.orig.id && r.hard && r.soft && !r.discard && (r.fs <==> r.role == BarProxy)
  }

  ghost predicate AllKnown(st: State) {
    && (forall k :: 0 <= k < |st.head| ==> Known(st, st.head[k]))
    && (forall r :: r in st.sched ==> Known(st, r) && r.role.Submitted?)
    && (forall r :: r in st.flight ==> Known(st, r) && r.started)
  }

  ghost predicate SubsOk(st: State) {
    && (st.ordseq != IDLE ==>
          st.orig.role.Submitted? && st.orig.id < |st.subs| && st.orig.Core() == st.subs[st.orig.id]
          && st.orig.id !in st.done && st.orig.IsBarrier())
    && (forall i :: i in st.done ==> i < |st.subs|)
    && (forall i :: 0 <= i < |st.subs| ==> st.subs[i].id == i && st.subs[i].role.Submitted?)
  }

  predicate AtHead(head: seq<Request>, role: Role, id: nat) {
    exists k :: 0 <= k < |head| && head[k].role == role && head[k].id == id
  }

  ghost predicate Among(s: set<Request>, role: Role, id: nat) {
    exists r :: r in s && r.role == role && r.id == id
  }

  ghost predicate Outstanding(st: State, role: Role, id: nat) {
    AtHead(st.head, role, id) || Among(st.sched, role, id) || Among(st.flight, role, id)
  }

  /** Nothing is lost: a submission is finished, outstanding, or the barrier
      whose sequence is running. */
  ghost predicate Covered(st: State, i: nat) {
    i in st.done || Outstanding(st, Role.Submitted, i) || (st.ordseq != IDLE && st.orig.id == i)
  }

  ghost predicate AllCovered(st: State) {
    forall i :: 0 <= i < |st.subs| ==> Covered(st, i)
  }

  /** Stages whose bit is in `covered` have no proxy outstanding, the others have theirs. */
  ghost predicate StagesAre(st: State, covered: Bits) {
    && (!covered.preflush <==> Outstanding(st, PreFlush, st.orig.id))
    && (!covered.bar <==> Outstanding(st, BarProxy, st.orig.id))
    && (!covered.postflush <==> Outstanding(st, PostFlush, st.orig.id))
  }

  predicate WellFormedBits(ordseq: Bits) {
    ordseq != IDLE ==> ordseq.started && ordseq != ALL
  }

  function CoveredBits(ordseq: Bits): Bits {
    if ordseq == IDLE then ALL else ordseq
  }

  function AccountedIn(flight: set<Request>): set<Request> {
    set r | r in flight && r.Accounted()
  }

  /** The first error reported, 0 if none was. */
  function FirstNonzero(reports: seq<int>): int {
    if reports == [] then 0 else if reports[0] != 0 then reports[0] else FirstNonzero(reports[1..])
  }

  /** The counter and the error kept for the original barrier. */
  predicate CountsOk(st: State) {
    && st.inFlight == |AccountedIn(st.flight)|
    && (st.ordseq != IDLE ==> st.orderr == FirstNonzero(st.reports))
  }

  /** Inv with the stages of `bits` already off the queue but not yet marked. */
  ghost predicate InvPending(st: State, bits: Bits) {
    && Distinct(st.head, st.sched, st.flight)
    && AllKnown(st)
    && SubsOk(st)
    && AllCovered(st)
    && WellFormedBits(st.ordseq)
    && !bits.started
    && !st.ordseq.Meets(bits)
    && StagesAre(st, CoveredBits(st.ordseq).Or(bits))
    && CountsOk(st)
  }

  ghost predicate Inv(st: State) { InvPending(st, IDLE) }

  // ---------------------------------------------------------------- small facts

  lemma FirstNonzeroSnoc(reports: seq<int>, e: int)
    ensures FirstNonzero(reports + [e]) == FirstError(FirstNonzero(reports), e)
  {
    if reports != [] {
      assert (reports + [e])[1..] == reports[1..] + [e];
    }
  }

  lemma CountAdd(flight: set<Request>, r: Request)
    requires r !in flight
    ensures |AccountedIn(flight + {r})| == |AccountedIn(flight)| + (if r.Accounted() then 1 else 0)
  {
    assert AccountedIn(flight + {r}) == AccountedIn(flight) + (if r.Accounted() then {r} else {});
  }

  lemma CountDel(flight: set<Request>, r: Request)
    requires r in flight
    ensures |AccountedIn(flight - {r})| == |AccountedIn(flight)| - (if r.Accounted() then 1 else 0)
  {
    assert AccountedIn(flight - {r}) == AccountedIn(flight) - (if r.Accounted() then {r} else {});
  }

  lemma AtHeadInsert(head: seq<Request>, k: nat, r: Request, role: Role, id: nat)
    requires k <= |head|
    ensures AtHead(Insert(head, k, r), role, id) <==> (AtHead(head, role, id) || (r.role == role && r.id == id))
  {
    var h := Insert(head, k, r);
    assert h[k] == r;
    if AtHead(head, role, id) {
      var i :| 0 <= i < |head| && head[i].role == role && head[i].id == id;
      assert h[if i < k then i else i + 1] == head[i];
    }
  }

  lemma AtHeadRemove(head: seq<Request>, k: nat, role: Role, id: nat)
    requires k < |head|
    ensures AtHead(head, role, id) <==>
            (AtHead(Remove(head, k), role, id) || (head[k].role == role && head[k].id == id))
  {
    var h := Remove(head, k);
    if AtHead(head, role, id) && !(head[k].role == role && head[k].id == id) {
      var i :| 0 <= i < |head| && head[i].role == role && head[i].id == id;
      assert h[if i < k then i else i - 1] == head[i];
    }
  }

  lemma AmongAdd(s: set<Request>, r: Request, role: Role, id: nat)
    ensures Among(s + {r}, role, id) <==> (Among(s, role, id) || (r.role == role && r.id == id))
  {
  }

  lemma AmongDel(s: set<Request>, r: Request, role: Role, id: nat)
    requires r in s
    requires forall t :: t in s && Same(r, t) ==> r == t
    ensures Among(s - {r}, role, id) <==> (Among(s, role, id) && !(r.role == role && r.id == id))
  {
  }

  /** A step that moves requests about but finishes none keeps coverage and stages. */
  lemma MoveKeeps(st: State, st': State, bits: Bits)
    requires AllCovered(st) && StagesAre(st, bits)
    requires st'.subs == st.subs && st'.done == st.done && st'.ordseq == st.ordseq && st'.orig == st.orig
    requires forall role, id :: Outstanding(st', role, id) <==> Outstanding(st, role, id)
    ensures AllCovered(st') && StagesAre(st', bits)
  {
    forall i | 0 <= i < |st'.subs| ensures Covered(st', i) { assert Covered(st, i); }
  }

  lemma DistinctInsert(head: seq<Request>, sched: set<Request>, flight: set<Request>, k: nat, r: Request)
    requires Distinct(head, sched, flight)
    requires k <= |head|
    requires forall i :: 0 <= i < |head| ==> !Same(head[i], r)
    requires forall t :: t in sched || t in flight ==> !Same(r, t)
    ensures Distinct(Insert(head, k, r), sched, flight)
  {
  }

  lemma DistinctRemove(head: seq<Request>, sched: set<Request>, flight: set<Request>, k: nat)
    requires Distinct(head, sched, flight)
    requires k < |head|
    ensures Distinct(Remove(head, k), sched, flight)
    ensures forall i :: 0 <= i < |head| - 1 ==> !Same(Remove(head, k)[i], head[k])
  {
  }

  lemma DistinctLessSched(head: seq<Request>, sched: set<Request>, flight: set<Request>, r: Request)
    requires Distinct(head, sched, flight) && r in sched
    ensures Distinct(head, sched - {r}, flight)
    ensures forall i :: 0 <= i < |head| ==> !Same(head[i], r)
    ensures forall t :: t in sched - {r} || t in flight ==> !Same(r, t)
  {
  }

  lemma DistinctLessFlight(head: seq<Request>, sched: set<Request>, flight: set<Request>, r: Request)
    requires Distinct(head, sched, flight) && r in flight
    ensures Distinct(head, sched, flight - {r})
    ensures forall i :: 0 <= i < |head| ==> !Same(head[i], r)
    ensures forall t :: t in sched || t in flight - {r} ==> !Same(r, t)
  {
  }

  lemma DistinctMoreSched(head: seq<Request>, sched: set<Request>, flight: set<Request>, r: Request)
    requires Distinct(head, sched, flight)
    requires forall i :: 0 <= i < |head| ==> !Same(head[i], r)
    requires forall t :: t in sched || t in flight ==> !Same(r, t)
    ensures Distinct(head, sched + {r}, flight)
  {
  }
}
