/**
 The anticipatory scheduler: batches of one direction, switched only when the
 old batch has drained, and the anticipation state machine on top.

 Time and the think-time heuristics are answers of an oracle.  Sync requests
 are the Read side, async requests the Write side.  Dispatch is not forced.
 */
module Anticipatory {
  import opened RbTree
  import opened Lanes

  datatype Antic = Off | WaitReq | WaitNext | Finished

  /** The batch: its direction, whether the old one still drains, whether the
      first read is awaited, and the write batch sizes. */
  datatype Batch = Batch(dir: Dir, changed: bool, newBatch: bool, batchCount: int, writeCount: nat, idled: bool)

  /** The anticipation state, and whose requests it is about. */
  datatype Wait = Wait(antic: Antic, ioc: Ref, iocFinished: bool)

  /** as_data; outstanding maps each request the driver holds to its direction. */
  datatype State = State(lane: Pair<Lane>, lastSector: Pair<nat>, batch: Batch, wait: Wait,
                         outstanding: map<nat, Dir>, nrDispatched: int)

  /** The io context of each request, null when none could be allocated, and
      whether anticipation is on. */
  datatype Config = Config(ioc: nat -> Ref, anticipates: bool)

  /** What one dispatch call is told about time and about candidates. */
  datatype Oracle = Oracle(syncExpired: bool, batchExpired: bool, canBreak: bool, headExpired: bool, end: nat)

  // ---------------------------------------------------------------- the queues

  /** as_choose_req: backward seeks within MAXBACK sectors, at twice the cost. */
  function Choice(last: nat): Chooser { (a: Node, b: Node) => SeekChoice(Seek(last, 1024 * 1024, 2), a, b) }

  function PutLane(st: State, d: Dir, l: Lane): State { st.(lane := st.lane.Put(d, l)) }

  predicate Waiting(w: Wait) { w.antic == WaitReq || w.antic == WaitNext }

  /** as_add_request and as_update_rq, at a position that is free. */
  function AddFree(st: State, d: Dir, n: Node, canBreak: bool): State
    requires st.lane.At(d).next == Null || st.lane.At(d).next.id in TreeIds(st.lane.At(d).sort)
    requires !Taken(st.lane.At(d).sort, n.pos)
  {
    var s := PutLane(st, d, AddQueued(st.lane.At(d), n, Choice(st.lastSector.At(d))));
    if Waiting(st.wait) && canBreak then s.(wait := st.wait.(antic := Finished)) else s
  }

  /** as_merged_requests: next leaves, and may leave its place to req. */
  function Merged(st: State, d: Dir, req: nat, next: nat, earlier: bool): State
    requires Queued(st.lane.At(d), req) && Queued(st.lane.At(d), next) && req != next
  {
    PutLane(st, d, MergeQueued(st.lane.At(d), req, next, earlier, Choice(st.lastSector.At(d))))
  }

  // ---------------------------------------------------------------- dispatching

  /** as_move_to_dispatch. */
  function MoveToDispatch(cfg: Config, st: State, d: Dir, id: nat, end: nat): State
    requires Queued(st.lane.At(d), id)
  {
    var l := st.lane.At(d);
    var l1 := l.(next := FindNext(l.sort, id, Choice(end)));
    var ioc := if d == Write then Null else if cfg.ioc(id) == Null then st.wait.ioc else cfg.ioc(id);
    var left := if d == Write && st.batch.writeCount != 0 then st.batch.writeCount - 1 else st.batch.writeCount;
    State(st.lane.Put(d, RemoveQueued(l1, id, Choice(end))), st.lastSector.Put(d, end), st.batch.(writeCount := left),
          Wait(Off, ioc, false),
          st.outstanding[id := d], st.nrDispatched + 1)
  }

  /** as_batch_expired. */
  predicate BatchOver(b: Batch, o: Oracle) {
    !b.changed && !b.newBatch && (o.batchExpired || (b.dir == Write && b.writeCount == 0))
  }

  /** as_can_anticipate. */
  predicate CanAnticipate(w: Wait, o: Oracle) { w.ioc != Null && w.antic != Finished && !o.canBreak }

  /** as_antic_waitreq. */
  function WaitForRequest(w: Wait): Wait {
    if w.antic != Off then w
    else w.(antic := if w.ioc == Null || w.iocFinished then WaitNext else WaitReq)
  }

  predicate Some(st: State, d: Dir) { st.lane.At(d).fifo != [] }

  /** A batch of direction d is selected; if it is a new one the old one must drain first. */
  function SwitchTo(b: Batch, d: Dir): Batch {
    var c := b.(changed := b.changed || b.dir != d, dir := d);
    if d == Read then c
    else c.(newBatch := b.newBatch && b.dir != Read, writeCount := if b.batchCount >= 0 then b.batchCount else 0,
            idled := false)
  }

  /** The write batch went idle, so it cannot be timed. */
  function NoteIdle(b: Batch, someReads: bool, someWrites: bool): Batch {
    if b.dir == Write && !someReads && (b.writeCount == 0 || !someWrites) then b.(idled := true) else b
  }

  /** Where a dispatch call goes: nowhere, into anticipation, on to a request,
      or to the BUG at the end of the selection. */
  datatype Plan = Nothing | Anticipate | Go(batch: Batch, rq: Ref, skipCheck: bool) | Bug

  /** as_dispatch_request up to the label dispatch_request. */
  function Decide(cfg: Config, st: State, o: Oracle): Plan {
    var someReads, someWrites := Some(st, Read), Some(st, Write);
    var b := NoteIdle(st.batch, someReads, someWrites);
    if !(someReads || someWrites) || Waiting(st.wait) || b.changed then Nothing
    else
      var goOn := !(someReads && someWrites && BatchOver(b, o));
      if goOn && b.dir == Read && cfg.anticipates && o.syncExpired && someReads then
        Go(b, To(st.lane.read.fifo[0]), true)
      else if goOn && b.dir == Read && cfg.anticipates && CanAnticipate(st.wait, o) then Anticipate
      else if goOn && st.lane.At(b.dir).next != Null then Go(b, st.lane.At(b.dir).next, false)
      else if someReads && !(someWrites && b.dir == Read) then Go(SwitchTo(b, Read), To(st.lane.read.fifo[0]), false)
      else if someWrites then Go(SwitchTo(b, Write), To(st.lane.write.fifo[0]), false)
      else Bug
  }

  /** as_dispatch_request: the state after the call, and the request it
      dispatched, if any. */
  datatype Result = Result(st: State, rq: Ref)

  predicate Performable(st: State, p: Plan) {
    p.Go? ==> p.rq != Null && Queued(st.lane.At(p.batch.dir), p.rq.id)
              && forall x :: x in st.lane.At(p.batch.dir).fifo ==> x in TreeIds(st.lane.At(p.batch.dir).sort)
  }

  /** An expired head goes before the request of the plan. */
  function Candidate(st: State, p: Plan, o: Oracle): nat
    requires p.Go? && p.rq != Null
  {
    var f := st.lane.At(p.batch.dir).fifo;
    if !p.skipCheck && o.headExpired && f != [] then f[0] else p.rq.id
  }

  function DispatchRequest(cfg: Config, st: State, o: Oracle): Result
    requires Performable(st, Decide(cfg, st, o))
  {
    var b := NoteIdle(st.batch, Some(st, Read), Some(st, Write));
    match Decide(cfg, st, o)
    case Nothing => Result(st.(batch := b), Null)
    case Bug => Result(st.(batch := b), Null)
    case Anticipate => Result(st.(batch := b, wait := WaitForRequest(st.wait)), Null)
    case Go(c, rq, skip) =>
      if c.changed && st.nrDispatched != 0 then Result(st.(batch := c), Null)
      else
        var c1 := if c.changed then c.(changed := false, newBatch := c.newBatch || c.dir == Read) else c;
        var id := Candidate(st, Go(c, rq, skip), o);
        Result(MoveToDispatch(cfg, st.(batch := c1), c.dir, id, o.end), To(id))
  }

  // ---------------------------------------------------------------- completion

  /** update_write_batch, given the time the batch took and should take. */
  function ResizeBatch(b: Batch, took: nat, target: nat): Batch {
    var n :=
      if took > target && !b.idled then (if took > 3 * target then b.batchCount / 2 else b.batchCount - 1)
      else if took < target && b.writeCount == 0 then (if target > 3 * took then 2 * b.batchCount else b.batchCount + 1)
      else b.batchCount;
    b.(batchCount := if n < 1 then 1 else n)
  }

  /** The batch when a request of direction d completes and nr were outstanding. */
  function CompleteBatch(b: Batch, d: Dir, nr: int, took: nat, target: nat): Batch {
    var c := if b.changed && nr == 1 then b.(changed := false, newBatch := b.newBatch || b.dir == Read) else b;
    if c.newBatch && c.dir == d then ResizeBatch(c, took, target).(newBatch := false) else c
  }

  function CompleteWait(w: Wait, ioc: Ref): Wait {
    if w.ioc != ioc || ioc == Null then w
    else w.(iocFinished := true, antic := if w.antic == WaitReq then WaitNext else w.antic)
  }

  /** as_completed_request. */
  function Complete(cfg: Config, st: State, id: nat, took: nat, target: nat): State
    requires id in st.outstanding
  {
    st.(batch := CompleteBatch(st.batch, st.outstanding[id], st.nrDispatched, took, target),
        wait := CompleteWait(st.wait, cfg.ioc(id)),
        outstanding := st.outstanding - {id}, nrDispatched := st.nrDispatched - 1)
  }

  /** as_antic_stop, and as_antic_timeout, whose timer is set in WaitNext only. */
  function Stopped(st: State): State { if Waiting(st.wait) then st.(wait := st.wait.(antic := Finished)) else st }
}
