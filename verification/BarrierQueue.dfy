/**
 The request queue as the code has it: one object whose fields the functions
 update in place.  Each method is proved to take the steps of the model, so
 the theorems about runs hold for the object.
 */
module BarrierQueue {
  import opened Barrier

  /** What the model remembers about a run; the code keeps none of it. */
  datatype History = History(
    subs: seq<Request>, bars: nat, taken: nat, done: set<nat>, reports: seq<int>, log: seq<Event>)
  {
    function Finish(id: nat, e: Event): History { this.(done := done + {id}, log := log + [e]) }
  }

  /** What is known of the I/O scheduler.  An eager one gives a request whenever
      it has one; the anticipatory scheduler and CFQ may hold theirs back.  A
      thorough one does so when it is forced to. */
  datatype Scheduler = Scheduler(eager: bool, thorough: bool) {
    predicate Gives(force: bool) { eager || (force && thorough) }
  }

  class RequestQueue {
    const scheduler: Scheduler
    var mode: Mode
    var ordered: Mode
    var ordseq: Bits
    var orderr: int
    var ordcolor: bool
    var orig: Request
    var head: seq<Request>
    var sched: set<Request>
    var flight: set<Request>
    var inFlight: int
    var past: History

    function View(): State
      reads this
    {
      State(mode, ordered, ordseq, orderr, ordcolor, orig, head, sched, flight, inFlight,
            past.subs, past.bars, past.taken, past.done, past.reports, past.log)
    }

    constructor (mode: Mode, scheduler: Scheduler)
      ensures View() == Init(mode) && this.scheduler == scheduler
    {
      this.scheduler := scheduler;
      this.mode, ordered, ordseq, orderr, ordcolor := mode, mode, IDLE, 0, false;
      orig := Init(mode).orig;
      head, sched, flight, inFlight := [], {}, {}, 0;
      past := History([], 0, 0, {}, [], []);
    }

    /** blk_ordered_complete_seq */
    method CompleteSequence(bits: Bits, error: int) returns (over: bool)
      modifies this
      ensures View() == CompleteSeq(old(View()), bits, error)
      ensures over == Finishes(old(View()), bits)
    {
      RecordError(error);
      ordseq := ordseq.Or(bits);
      if CurSeq(ordseq) != ORDSEQ_DONE { return false; }
      ordseq := IDLE;
      past := past.Finish(orig.id, Ended(orig.id, orderr));
      return true;
    }

    /** start_ordered's choice of stages, stacked at the front in reverse order. */
    method QueueStages() returns (skip: Bits, due: bool)
      modifies this`head
      ensures head == Proxies(ordered, orig) + old(head)
      ensures skip == SkipBits(ordered, true) && due == (Proxies(ordered, orig) != [])
    {
      skip, due := IDLE, false;
      if ordered.postflush {
        head, due := [Flush(PostFlush, orig)] + head, true;
      } else {
        skip := skip.Or(POSTFLUSH_BIT);
      }
      if ordered.bar {
        head, due := [Proxy(orig)] + head, true;
      } else {
        skip := skip.Or(BAR_BIT);
      }
      if ordered.preflush {
        head, due := [Flush(PreFlush, orig)] + head, true;
      } else {
        skip := skip.Or(PREFLUSH_BIT);
      }
    }

    /** start_ordered's mode for this sequence: an empty barrier has no BAR stage. */
    method ChooseMode(empty: bool)
      modifies this`ordered
      ensures ordered == OrderedFor(mode, empty)
    {
      ordered := mode;
      if empty {
        ordered := ordered.(bar := false, postflush := false);
        if ordered.byTag && !ordered.preflush {
          ordered := ordered.(byTag := false, byDrain := true);
        }
      }
    }

    /** start_ordered, up to the queueing of the stages. */
    method TakeBarrier() returns (skip: Bits, due: bool)
      requires head != []
      modifies this
      ensures View() == FirstBits(old(View()))
      ensures skip == SkipBits(ordered, true) && due == (Proxies(ordered, orig) != [])
    {
      orderr, ordseq := 0, ordseq.Or(STARTED_BIT);
      ChooseMode(head[0].empty);
      orig, head, past := head[0], head[1..], past.(reports := [], taken := past.taken + 1);
      skip, due := QueueStages();
    }

    /** start_ordered */
    method StartSequence() returns (verdict: Verdict)
      requires head != []
      modifies this
      ensures View() == StartOrdered(old(View())).0
      ensures verdict == StartOrdered(old(View())).1
    {
      var skip, due := TakeBarrier();
      if ordered.byDrain && inFlight != 0 { due := false; } else { skip := skip.Or(DRAIN_BIT); }
      var over := CompleteSequence(skip, 0);
      verdict := if over then Gone else if due then Hand else Hold;
    }

    /** blk_do_ordered */
    method Gate() returns (verdict: Verdict)
      requires head != []
      modifies this
      ensures View() == DoOrdered(old(View())).0
      ensures verdict == DoOrdered(old(View())).1
    {
      var rq := head[0];
      if ordseq == IDLE {
        if !rq.IsBarrier() { return Hand; }
        if mode != NONE {
          verdict := StartSequence();
          return;
        }
        head := head[1..];
        past := past.Finish(rq.id, Ended(rq.id, -EOPNOTSUPP)).(taken := past.taken + 1);
        return Gone;
      }
      if !rq.fs && rq.role != PreFlush && rq.role != PostFlush { return Hand; }
      if ordered.byTag {
        return if rq.IsBarrier() && rq.role != BarProxy then Hold else Hand;
      }
      return if ReqSeq(View(), rq) > CurSeq(ordseq) then Hold else Hand;
    }

    /** The elevator's dispatch function, for any scheduler: it gives any of its
        requests, to any place elv_dispatch_sort or elv_dispatch_add_tail may
        choose, or holds them back if it may. */
    method DispatchOne(force: bool) returns (moved: bool, ghost step: Step)
      modifies this
      ensures old(sched) == {} ==> !moved
      ensures scheduler.Gives(force) && old(sched) != {} ==> moved
      ensures moved ==> step.Dispatch? && Leads(old(View()), [step], View()) && |sched| == |old(sched)| - 1
      ensures !moved ==> View() == old(View())
    {
      if sched == {} { return false, Peek; }
      var holdBack: bool := *;
      if holdBack && !scheduler.Gives(force) { return false, Peek; }
      var rq :| rq in sched;
      var low := |head|;
      while low > 0 && !head[low - 1].Stops() && head[low - 1].discard == rq.discard
        invariant 0 <= low <= |head| && View() == old(View())
        invariant forall i :: low <= i < |head| ==> !head[i].Stops() && head[i].discard == rq.discard
      {
        low := low - 1;
      }
      var k :| low <= k <= |head|;
      step := Dispatch(rq, k);
      RunOne(View(), step);
      sched, head := sched - {rq}, Insert(head, k, rq);
      moved := true;
    }

    /** The inner loop of __elv_next_request: ask the gate about the head until
        it answers.  `asked` is the last state it was asked about. */
    method ServeHead() returns (verdict: Verdict, ghost steps: seq<Step>, ghost asked: State)
      modifies this
      ensures Leads(old(View()), steps, View())
      ensures forall s :: s in steps ==> s.Peek?
      ensures verdict == Gone ==> head == []
      ensures verdict == Hand ==> head != [] && head[0].started
      ensures verdict == Hold ==> asked.head != [] && DoOrdered(asked).1 == Hold && View() == DoOrdered(asked).0
      ensures sched == old(sched)
    {
      ghost var start := View();
      steps, asked := [], start;
      while head != []
        invariant Leads(start, steps, View())
        invariant forall s :: s in steps ==> s.Peek?
        invariant sched == old(sched)
        decreases |head|
      {
        asked := View();
        RunOne(asked, Peek);
        GateLists(asked);
        verdict := Gate();
        if verdict == Hand { head := [head[0].(started := true)] + head[1..]; }
        assert View() == Apply(asked, Peek);
        RunAppend(start, steps, asked, [Peek], View());
        steps := steps + [Peek];
        if verdict != Gone { return; }
      }
      verdict := Gone;
    }

    /** __elv_next_request and the mark of blk_peek_request.  Whatever the two
        loops do is a run of the model; no request is returned only when the list
        is empty and the scheduler gave nothing, or when the gate said "wait"
        about the state `asked`. */
    method PeekRequest() returns (found: bool, ghost steps: seq<Step>, ghost asked: State)
      modifies this
      ensures Leads(old(View()), steps, View())
      ensures forall s :: s in steps ==> s.Peek? || s.Dispatch?
      ensures found ==> head != [] && head[0].started
      ensures !found ==>
                || (head == [] && (scheduler.eager ==> sched == {}))
                || (asked.head != [] && DoOrdered(asked).1 == Hold && View() == DoOrdered(asked).0)
    {
      ghost var start := View();
      steps := [];
      while true
        invariant Leads(start, steps, View())
        invariant forall s :: s in steps ==> s.Peek? || s.Dispatch?
        decreases |sched|
      {
        ghost var more, mid := [], View();
        var verdict;
        verdict, more, asked := ServeHead();
        RunAppend(start, steps, mid, more, View());
        steps, mid := steps + more, View();
        if verdict != Gone { return verdict == Hand, steps, asked; }
        var moved;
        ghost var step;
        moved, step := DispatchOne(false);
        if !moved { return false, steps, asked; }
        RunAppend(start, steps, mid, [step], View());
        steps := steps + [step];
      }
    }

    /** blk_start_request on a request the driver peeked at. */
    method StartRequest(k: nat)
      requires Enabled(View(), Start(k))
      modifies this
      ensures View() == Apply(old(View()), Start(k))
    {
      var rq := head[k];
      head := Remove(head, k);
      if rq.Accounted() { inFlight := inFlight + 1; }
      flight, past := flight + {rq}, past.(log := past.log + [Issued(rq.role, rq.id)]);
    }

    /** The scan of ELEVATOR_INSERT_REQUEUE for the first request of no earlier stage. */
    method FindPlace(stage: int) returns (k: nat)
      ensures k == RequeuePoint(View(), stage, 0)
    {
      k := 0;
      while k < |head| && ReqSeq(View(), head[k]) < stage
        invariant k <= |head|
        invariant RequeuePoint(View(), stage, k) == RequeuePoint(View(), stage, 0)
      {
        k := k + 1;
      }
    }

    /** elv_requeue_request and ELEVATOR_INSERT_REQUEUE */
    method RequeueRequest(rq: Request)
      requires Enabled(View(), Requeue(rq))
      modifies this
      ensures View() == Apply(old(View()), Requeue(rq))
    {
      var k := 0;
      if ordseq != IDLE { k := FindPlace(ReqSeq(View(), rq)); }
      if rq.started && rq.Accounted() { inFlight := inFlight - 1; }
      flight := flight - {rq};
      head := Insert(head, k, rq.(started := false, soft := true));
    }

    /** elv_completed_request */
    method CompletedOne(rq: Request)
      modifies this
      ensures View() == CompletedRequest(old(View()), rq)
    {
      if rq.started && rq.Accounted() { inFlight := inFlight - 1; }
      if ordseq != IDLE {
        if inFlight == 0 && CurSeq(ordseq) == ORDSEQ_DRAIN && (head == [] || ReqSeq(View(), head[0]) > ORDSEQ_DRAIN) {
          var over := CompleteSequence(DRAIN_BIT, 0);
        }
      }
    }

    /** The end of a request at the driver, through its end_io callback. */
    method EndRequest(rq: Request, error: int)
      requires Enabled(View(), Complete(rq, error))
      modifies this
      ensures View() == Apply(old(View()), Complete(rq, error))
    {
      flight := flight - {rq};
      if rq.role.Submitted? {
        past := past.Finish(rq.id, Leaving(rq));
        CompletedOne(rq);
      } else {
        past := past.(log := past.log + [Leaving(rq)]);
        if rq.role == BarProxy { RecordError(error); }
        EndStage(rq, error);
      }
    }

    /** req_bio_endio on the barrier proxy */
    method RecordError(error: int)
      modifies this`orderr, this`past
      ensures orderr == FirstError(old(orderr), error) && past == old(past).(reports := old(past).reports + [error])
    {
      if error != 0 && orderr == 0 { orderr := error; }
      past := past.(reports := past.reports + [error]);
    }

    /** pre_flush_end_io, bar_end_io and post_flush_end_io */
    method EndStage(rq: Request, error: int)
      requires !rq.role.Submitted?
      modifies this
      ensures View() == CompleteSeq(CompletedRequest(old(View()), rq), StageBit(rq.role), error)
    {
      CompletedOne(rq);
      var over := CompleteSequence(StageBit(rq.role), error);
    }

    /** elv_drain_elevator, which reports a scheduler that is not empty then. */
    method DrainElevator() returns (broken: bool, ghost steps: seq<Step>)
      modifies this
      ensures Leads(old(View()), steps, View())
      ensures forall t :: t in steps ==> t.Dispatch?
      ensures (broken <==> sched != {}) && (scheduler.Gives(true) ==> !broken)
    {
      ghost var start := View();
      steps := [];
      var more := true;
      while more
        invariant Leads(start, steps, View())
        invariant forall t :: t in steps ==> t.Dispatch?
        invariant !more && scheduler.Gives(true) ==> sched == {}
        decreases |sched|, more
      {
        ghost var step, mid := Peek, View();
        more, step := DispatchOne(true);
        if more {
          RunAppend(start, steps, mid, [step], View());
          steps := steps + [step];
        }
      }
      broken := sched != {};
    }

    /** __elv_add_request and elv_insert, after the drain. */
    method InsertRequest(s: Step)
      requires s.Add?
      modifies this
      ensures View() == DoAdd(old(View()), s)
    {
      var rq := NewRequest(View(), s);
      if s.hard { ordcolor := !ordcolor; }
      past := past.(
        bars := if rq.IsBarrier() then past.bars + 1 else past.bars,
        subs := past.subs + [rq.Core()],
        log := past.log + [Event.Submitted(rq.id)]);
      match Route(s)
      case Front => head := [rq.(soft := true)] + head;
      case Back => head := head + [rq.(soft := true)];
      case Sort => sched := sched + {rq};
    }

    /** __elv_add_request; back insertion drains the scheduler first.  It is a
        step of the model if and only if that left nothing behind. */
    method AddRequest(s: Step) returns (broken: bool, ghost steps: seq<Step>, ghost mid: State)
      requires s.Add? && (Route(s) == Sort ==> s.fs || s.discard)
      modifies this
      ensures Leads(old(View()), steps, mid) && View() == DoAdd(mid, s)
      ensures forall t :: t in steps ==> t.Dispatch?
      ensures broken <==> !Enabled(mid, s)
      ensures !broken ==> Leads(old(View()), steps + [s], View())
      ensures Route(s) != Back || scheduler.Gives(true) ==> !broken
    {
      ghost var start := View();
      broken, steps := false, [];
      if Route(s) == Back { broken, steps := DrainElevator(); }
      mid := View();
      InsertRequest(s);
      if !broken {
        RunOne(mid, s);
        RunAppend(start, steps, mid, [s], View());
      }
    }
  }

  /** What the gate leaves of the two lists. */
  lemma GateLists(st: State)
    requires st.head != []
    ensures var (st', verdict) := DoOrdered(st);
            && st'.sched == st.sched
            && (verdict == Gone ==> st'.head == st.head[1..])
            && (verdict == Hand ==> st'.head != [])
  {
  }
}
