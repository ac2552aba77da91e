/**
 The ordered-write (barrier) protocol of the block layer: the stage bits of
 `q->ordseq`, the gate `blk_do_ordered`, the insertion points of `elv_insert`
 and the drain test of `elv_completed_request`, as a step system.

 Every step is one critical section under the queue lock.  What the scheduler,
 the driver and the submitters choose freely (which request is dispatched and
 where, which request completes and with which error) is a parameter of the
 step, so a run is a start state and a sequence of steps.
 */
module Barrier {

  // Values of the stage bits, include/linux/blkdev.h.
  const ORDSEQ_STARTED: int := 0x01
  const ORDSEQ_DRAIN: int := 0x02
  const ORDSEQ_PREFLUSH: int := 0x04
  const ORDSEQ_BAR: int := 0x08
  const ORDSEQ_POSTFLUSH: int := 0x10
  const ORDSEQ_DONE: int := 0x20

  /** The word q->ordseq, bit by bit. */
  datatype Bits = Bits(started: bool, drain: bool, preflush: bool, bar: bool, postflush: bool) {
    function Or(b: Bits): Bits {
      Bits(started || b.started, drain || b.drain, preflush || b.preflush, bar || b.bar, postflush || b.postflush)
    }

    /** The words have a common bit. */
    predicate Meets(b: Bits) {
      (started && b.started) || (drain && b.drain) || (preflush && b.preflush) || (bar && b.bar)
      || (postflush && b.postflush)
    }

    /** The value of the word. */
    function Word(): int {
      (if started then ORDSEQ_STARTED else 0) + (if drain then ORDSEQ_DRAIN else 0)
      + (if preflush then ORDSEQ_PREFLUSH else 0)
      + (if bar then ORDSEQ_BAR else 0) + (if postflush then ORDSEQ_POSTFLUSH else 0)
    }
  }

  const IDLE := Bits(false, false, false, false, false)
  const ALL := Bits(true, true, true, true, true)
  const STARTED_BIT := IDLE.(started := true)
  const DRAIN_BIT := IDLE.(drain := true)
  const PREFLUSH_BIT := IDLE.(preflush := true)
  const BAR_BIT := IDLE.(bar := true)
  const POSTFLUSH_BIT := IDLE.(postflush := true)

  const EOPNOTSUPP: int := 95

  /** The QUEUE_ORDERED_* flag word; all false is QUEUE_ORDERED_NONE. */
  datatype Mode = Mode(byDrain: bool, byTag: bool, preflush: bool, bar: bool, postflush: bool, fua: bool)

  const NONE := Mode(false, false, false, false, false, false)
  const DRAIN := Mode(true, false, false, true, false, false)
  const DRAIN_FLUSH := DRAIN.(preflush := true, postflush := true)
  const DRAIN_FUA := DRAIN.(preflush := true, fua := true)
  const TAG := Mode(false, true, false, true, false, false)
  const TAG_FLUSH := TAG.(preflush := true, postflush := true)
  const TAG_FUA := TAG.(preflush := true, fua := true)

  /** The values blk_queue_ordered accepts. */
  predicate ValidMode(m: Mode) {
    m in {NONE, DRAIN, DRAIN_FLUSH, DRAIN_FUA, TAG, TAG_FLUSH, TAG_FUA}
  }

  /** Which request structure this is: a submitted one, or one of the three
      that live inside the queue and carry the stages of a sequence. */
  datatype Role = Submitted | PreFlush | BarProxy | PostFlush

  /** `id` is the submission number and `gen` the number of fs barriers
      submitted earlier; the code sees neither, only the one bit `color`. */
  datatype Request = Request(
    role: Role, id: nat, gen: nat, fs: bool, discard: bool, empty: bool,
    hard: bool, color: bool, soft: bool, started: bool)
  {
    /** blk_account_rq, apart from the REQ_STARTED test. */
    predicate Accounted() { fs || discard }

    /** What does not change between submission and completion. */
    function Core(): Request { this.(soft := false, started := false) }

    /** The flags elv_dispatch_sort never passes. */
    predicate Stops() { soft || hard || started }

    predicate IsBarrier() { fs && hard }
  }

  datatype Event =
    | Submitted(id: nat)
    | Issued(role: Role, id: nat)
    | Completed(id: nat)
    | StageDone(role: Role, id: nat)
    | Ended(id: nat, error: int)

  datatype State = State(
    mode: Mode,                // q->next_ordered
    ordered: Mode,             // q->ordered
    ordseq: Bits,
    orderr: int,
    ordcolor: bool,
    orig: Request,             // q->orig_bar_rq, meaningful while ordseq != IDLE
    head: seq<Request>,        // q->queue_head
    sched: set<Request>,       // held by the I/O scheduler
    flight: set<Request>,      // handed to the driver
    inFlight: int,             // q->in_flight[0] + q->in_flight[1]
    // history
    subs: seq<Request>,        // as submitted, by submission number
    bars: nat,                 // fs barriers submitted
    taken: nat,               // fs barriers taken off the queue
    done: set<nat>,            // completed submissions
    reports: seq<int>,         // errors reported since the sequence started
    log: seq<Event>)

  datatype Where = Front | Back | Sort

  datatype Step =
    | Add(fs: bool, discard: bool, empty: bool, hard: bool, soft: bool, elvpriv: bool, where: Where)
    | Dispatch(rq: Request, k: nat)
    | Peek
    | Start(k: nat)
    | Complete(rq: Request, error: int)
    | BarError(error: int)
    | Requeue(rq: Request)

  function Insert<T>(s: seq<T>, k: nat, x: T): (r: seq<T>)
    requires k <= |s|
    ensures |r| == |s| + 1
    ensures forall i :: 0 <= i < |r| ==> r[i] == if i < k then s[i] else if i == k then x else s[i - 1]
  {
    s[..k] + [x] + s[k..]
  }

  function Remove<T>(s: seq<T>, k: nat): (r: seq<T>)
    requires k < |s|
    ensures |r| == |s| - 1
    ensures forall i :: 0 <= i < |r| ==> r[i] == if i < k then s[i] else s[i + 1]
  {
    s[..k] + s[k + 1..]
  }

  // ---------------------------------------------------------------- stage bits

  /** blk_ordered_cur_seq: the value of the first zero bit. */
  function CurSeq(b: Bits): int {
    if b == IDLE then 0
    else if !b.started then ORDSEQ_STARTED
    else if !b.drain then ORDSEQ_DRAIN
    else if !b.preflush then ORDSEQ_PREFLUSH
    else if !b.bar then ORDSEQ_BAR
    else if !b.postflush then ORDSEQ_POSTFLUSH
    else ORDSEQ_DONE
  }

  /** On the word, this is 1 << ffz(word): every lower bit is set, this one is not. */
  lemma CurSeqIsFirstZero(b: Bits)
    requires b != IDLE
    ensures b.Word() % (2 * CurSeq(b)) == CurSeq(b) - 1
  {
  }

  /** blk_ordered_req_seq */
  function ReqSeq(st: State, rq: Request): int {
    match rq.role
    case PreFlush => ORDSEQ_PREFLUSH
    case BarProxy => ORDSEQ_BAR
    case PostFlush => ORDSEQ_POSTFLUSH
    case Submitted =>
      if !rq.fs then ORDSEQ_DRAIN
      else if rq.color == st.orig.color then ORDSEQ_DRAIN
      else ORDSEQ_DONE
  }

  /** The stage a proxy carries, and its bit. */
  function StageSeq(role: Role): int
    requires !role.Submitted?
  {
    match role
    case PreFlush => ORDSEQ_PREFLUSH
    case BarProxy => ORDSEQ_BAR
    case PostFlush => ORDSEQ_POSTFLUSH
  }

  function StageBit(role: Role): Bits
    requires !role.Submitted?
  {
    match role
    case PreFlush => PREFLUSH_BIT
    case BarProxy => BAR_BIT
    case PostFlush => POSTFLUSH_BIT
  }

  /** The original barrier request ends (__blk_end_request_all). */
  function EndOrig(st: State, id: nat, error: int): State {
    st.(done := st.done + {id}, log := st.log + [Ended(id, error)])
  }

  function FirstError(orderr: int, error: int): int {
    if error != 0 && orderr == 0 then error else orderr
  }

  /** blk_ordered_complete_seq; the code traps when one of the bits is already set. */
  function CompleteSeq(st: State, bits: Bits, error: int): State {
    var st1 := st.(orderr := FirstError(st.orderr, error), ordseq := st.ordseq.Or(bits),
                   reports := st.reports + [error]);
    if CurSeq(st1.ordseq) != ORDSEQ_DONE then st1
    else EndOrig(st1.(ordseq := IDLE), st1.orig.id, st1.orderr)
  }

  /** Did blk_ordered_complete_seq reach its end-of-sequence branch? */
  predicate Finishes(st: State, bits: Bits) {
    CurSeq(st.ordseq.Or(bits)) == ORDSEQ_DONE
  }

  // ---------------------------------------------------------------- the gate

  /** The requests queued for a sequence, first to be served first. */
  function Proxies(ordered: Mode, orig: Request): seq<Request> {
    (if ordered.preflush then [Flush(PreFlush, orig)] else [])
    + (if ordered.bar then [Proxy(orig)] else [])
    + (if ordered.postflush then [Flush(PostFlush, orig)] else [])
  }

  /** queue_flush: a fresh non-fs request with REQ_HARDBARRIER, inserted at the front. */
  function Flush(role: Role, orig: Request): Request {
    Request(role, orig.id, orig.gen, false, false, true, true, false, true, false)
  }

  /** The bar_rq built from the original barrier's bio. */
  function Proxy(orig: Request): Request {
    Request(BarProxy, orig.id, orig.gen, true, false, orig.empty, true, false, true, false)
  }

  /** start_ordered's adjustment of q->ordered for an empty barrier. */
  function OrderedFor(mode: Mode, empty: bool): Mode {
    if !empty then mode
    else
      var m := mode.(bar := false, postflush := false);
      if m.byTag && !m.preflush then m.(byTag := false, byDrain := true) else m
  }

  /** The stages a sequence leaves out. */
  function SkipBits(ordered: Mode, draining: bool): Bits {
    Bits(false, !draining, !ordered.preflush, !ordered.bar, !ordered.postflush)
  }

  /** What the gate tells __elv_next_request. */
  datatype Verdict =
    | Hand   // true, and the request now at the head may be handed over
    | Hold   // true, *rqp == NULL
    | Gone   // false: the request was consumed

  function FirstBits(st: State): State
    requires st.head != []
  {
    var ordered := OrderedFor(st.mode, st.head[0].empty);
    st.(orderr := 0, reports := [], ordered := ordered, ordseq := st.ordseq.Or(STARTED_BIT),
    orig := st.head[0], taken := st.taken + 1, head := Proxies(ordered, st.head[0]) + st.head[1..])
  }

  predicate Draining(st: State) {
    st.ordered.byDrain && st.inFlight != 0
  }

  /** start_ordered */
  function StartOrdered(st: State): (State, Verdict)
    requires st.head != []
  {
    var st1 := FirstBits(st);
    var skip := SkipBits(st1.ordered, Draining(st1));
    var verdict :=
      if Finishes(st1, skip) then Gone
      else if Draining(st1) || Proxies(st1.ordered, st1.orig) == [] then Hold
      else Hand;
    (CompleteSeq(st1, skip, 0), verdict)
  }

  /** blk_do_ordered on the request at the head of the queue. */
  function DoOrdered(st: State): (State, Verdict)
    requires st.head != []
  {
    var rq := st.head[0];
    if st.ordseq == IDLE then
      if !rq.IsBarrier() then (st, Hand)
      else if st.mode != NONE then StartOrdered(st)
      else (EndOrig(st.(head := st.head[1..], taken := st.taken + 1), rq.id, -EOPNOTSUPP), Gone)
    else if !rq.fs && rq.role != PreFlush && rq.role != PostFlush then (st, Hand)
    else if st.ordered.byTag then
      (st, if rq.IsBarrier() && rq.role != BarProxy then Hold else Hand)
    else
      (st, if ReqSeq(st, rq) > CurSeq(st.ordseq) then Hold else Hand)
  }

  /** One pass of __elv_next_request plus blk_peek_request's REQ_STARTED mark. */
  function DoPeek(st: State): State
    requires st.head != []
  {
    var (st1, verdict) := DoOrdered(st);
    if verdict == Hand && st1.head != [] then st1.(head := [st1.head[0].(started := true)] + st1.head[1..]) else st1
  }

  // ---------------------------------------------------------------- the other steps

  /** __elv_add_request's choice of insertion point. */
  function Route(s: Step): Where
    requires s.Add?
  {
    if s.where == Sort && (s.hard || s.soft || !s.elvpriv) then Back else s.where
  }

  function NewRequest(st: State, s: Step): Request
    requires s.Add?
  {
    Request(Role.Submitted, |st.subs|, st.bars, s.fs, s.discard, s.empty, s.hard, st.ordcolor, s.soft, false)
  }

  function DoAdd(st: State, s: Step): State
    requires s.Add?
  {
    var rq := NewRequest(st, s);
    var st1 := st.(
      ordcolor := if s.hard then !st.ordcolor else st.ordcolor,
      subs := st.subs + [rq.Core()],
      bars := if rq.IsBarrier() then st.bars + 1 else st.bars,
      log := st.log + [Event.Submitted(rq.id)]);
    match Route(s)
    case Front => st1.(head := [rq.(soft := true)] + st.head)
    case Back => st1.(head := st.head + [rq.(soft := true)])
    case Sort => st1.(sched := st.sched + {rq})
  }

  /** The scheduler moves a request to the dispatch list, through
      elv_dispatch_sort or elv_dispatch_add_tail. */
  function DoDispatch(st: State, rq: Request, k: nat): State
    requires k <= |st.head|
  {
    st.(sched := st.sched - {rq}, head := Insert(st.head, k, rq))
  }

  /** blk_start_request */
  function DoStart(st: State, k: nat): State
    requires k < |st.head|
  {
    var rq := st.head[k];
    st.(head := Remove(st.head, k), flight := st.flight + {rq},
    inFlight := if rq.Accounted() then st.inFlight + 1 else st.inFlight,
    log := st.log + [Issued(rq.role, rq.id)])
  }

  /** elv_completed_request */
  function CompletedRequest(st: State, rq: Request): State {
    var st1 := st.(inFlight := if rq.started && rq.Accounted() then st.inFlight - 1 else st.inFlight);
    if DrainOver(st1) then CompleteSeq(st1, DRAIN_BIT, 0) else st1
  }

  predicate DrainOver(st: State) {
    && st.ordseq != IDLE
    && st.inFlight == 0
    && CurSeq(st.ordseq) == ORDSEQ_DRAIN
    && (st.head == [] || ReqSeq(st, st.head[0]) > ORDSEQ_DRAIN)
  }

  /** The driver is through with a request. */
  function Leaving(rq: Request): Event {
    if rq.role.Submitted? then Completed(rq.id) else StageDone(rq.role, rq.id)
  }

  function DoComplete(st: State, rq: Request, error: int): State {
    var st1 := st.(flight := st.flight - {rq}, log := st.log + [Leaving(rq)]);
    match rq.role
    case Submitted =>
      CompletedRequest(st1.(done := st1.done + {rq.id}), rq)
    case BarProxy =>
      // req_bio_endio records the error before bar_end_io runs
      var st2 := st1.(orderr := FirstError(st1.orderr, error), reports := st1.reports + [error]);
      CompleteSeq(CompletedRequest(st2, rq), BAR_BIT, error)
    case PreFlush => CompleteSeq(CompletedRequest(st1, rq), PREFLUSH_BIT, error)
    case PostFlush => CompleteSeq(CompletedRequest(st1, rq), POSTFLUSH_BIT, error)
  }

  /** The place elv_insert finds for a requeued request: before the first
      request whose stage is not earlier. */
  function RequeuePoint(st: State, stage: int, k: nat): (r: nat)
    requires k <= |st.head|
    ensures k <= r <= |st.head|
    ensures forall i :: k <= i < r ==> ReqSeq(st, st.head[i]) < stage
    ensures r < |st.head| ==> stage <= ReqSeq(st, st.head[r])
    decreases |st.head| - k
  {
    if k == |st.head| || stage <= ReqSeq(st, st.head[k]) then k else RequeuePoint(st, stage, k + 1)
  }

  /** elv_requeue_request and ELEVATOR_INSERT_REQUEUE */
  function DoRequeue(st: State, rq: Request): State {
    var back := rq.(started := false, soft := true);
    var k := if st.ordseq == IDLE then 0 else RequeuePoint(st, ReqSeq(st, rq), 0);
    st.(flight := st.flight - {rq}, head := Insert(st.head, k, back),
    inFlight := if rq.started && rq.Accounted() then st.inFlight - 1 else st.inFlight)
  }

  /** When each step can be taken at all. */
  predicate Enabled(st: State, s: Step) {
    match s
    case Add(fs, discard, _, _, _, _, _) =>
      // back insertion drains the scheduler first; only fs and discard requests are sorted
      && (Route(s) == Back ==> st.sched == {})
      && (Route(s) == Sort ==> fs || discard)
    case Dispatch(rq, k) =>
      && rq in st.sched
      && k <= |st.head|
      && forall i :: k <= i < |st.head| ==> !st.head[i].Stops() && st.head[i].discard == rq.discard
    case Peek => st.head != []
    case Start(k) => k < |st.head| && st.head[k].started
    case Complete(rq, _) => rq in st.flight
    case BarError(_) => exists rq :: rq in st.flight && rq.role == BarProxy
    case Requeue(rq) => rq in st.flight
  }

  function Apply(st: State, s: Step): State
    requires Enabled(st, s)
  {
    match s
    case Add(_, _, _, _, _, _, _) => DoAdd(st, s)
    case Dispatch(rq, k) => DoDispatch(st, rq, k)
    case Peek => DoPeek(st)
    case Start(k) => DoStart(st, k)
    case Complete(rq, error) => DoComplete(st, rq, error)
    case BarError(error) => st.(orderr := FirstError(st.orderr, error), reports := st.reports + [error])
    case Requeue(rq) => DoRequeue(st, rq)
  }

  /** The two rules submitters must follow: no fs request is inserted at the
      front (blk-barrier.c relies on it), and only fs requests carry
      REQ_HARDBARRIER into __elv_add_request. */
  predicate Disciplined(s: Step) {
    s.Add? ==> (s.where == Front ==> !s.fs) && (s.hard ==> s.fs)
  }

  predicate Runs(st: State, steps: seq<Step>)
    decreases |steps|
  {
    steps == [] || (Enabled(st, steps[0]) && Runs(Apply(st, steps[0]), steps[1..]))
  }

  function Exec(st: State, steps: seq<Step>): State
    requires Runs(st, steps)
    decreases |steps|
  {
    if steps == [] then st else Exec(Apply(st, steps[0]), steps[1..])
  }

  /** `steps` is a run from st to st'. */
  predicate Leads(st: State, steps: seq<Step>, st': State) {
    Runs(st, steps) && Exec(st, steps) == st'
  }

  lemma {:induction false} RunAppend(st: State, steps: seq<Step>, mid: State, more: seq<Step>, st': State)
    requires Leads(st, steps, mid) && Leads(mid, more, st')
    ensures Leads(st, steps + more, st')
    decreases |steps|
  {
    if steps == [] {
      assert steps + more == more;
    } else {
      assert (steps + more)[1..] == steps[1..] + more;
      RunAppend(Apply(st, steps[0]), steps[1..], mid, more, st');
    }
  }

  lemma RunOne(st: State, s: Step)
    requires Enabled(st, s)
    ensures Leads(st, [s], Apply(st, s))
  {
    assert [s][1..] == [];
  }

  lemma RunSnoc(st: State, steps: seq<Step>, s: Step)
    requires Runs(st, steps) && Enabled(Exec(st, steps), s)
    ensures Runs(st, steps + [s]) && Exec(st, steps + [s]) == Apply(Exec(st, steps), s)
  {
    var mid := Exec(st, steps);
    RunOne(mid, s);
    RunAppend(st, steps, mid, [s], Apply(mid, s));
  }

  function Init(mode: Mode): State {
    State(mode, mode, IDLE, 0, false, Request(Role.Submitted, 0, 0, true, false, false, true, false, false, false),
          [], {}, {}, 0, [], 0, 0, {}, [], [])
  }
}
