/**
 Where the guarantees stop.  In the draining modes the order theorem holds for
 a set of submissions if and only if each of them is disciplined; and the
 colour test is exact if and only if the mode does not order by tag.
 */
module BarrierLimits {
  import opened Barrier
  import opened BarrierInvariant
  import opened BarrierSteps
  import opened BarrierOrder
  import opened BarrierOrderSteps
  import opened BarrierTheorems
  import opened BarrierStages

  /** An ordinary read and an ordinary write barrier. */
  const READ := Add(true, false, false, false, false, true, Sort)
  const BARRIER := Add(true, false, false, true, false, true, Sort)

  predicate DrainingMode(mode: Mode) { ValidMode(mode) && mode.byDrain }

  /** Every submission of the run is s or an ordinary one. */
  predicate OnlyBeside(steps: seq<Step>, s: Step) {
    forall t :: t in steps && t.Add? ==> t == s || t == READ || t == BARRIER
  }

  function R0(started: bool): Request {
    Request(Role.Submitted, 0, 0, true, false, false, false, false, false, started)
  }

  lemma ReadSorted(mode: Mode) returns (steps: seq<Step>)
    ensures Runs(Init(mode), steps) && forall t :: t in steps && t.Add? ==> t == READ
    ensures Exec(Init(mode), steps) ==
              Init(mode).(sched := {R0(false)}, subs := [R0(false)], log := [Event.Submitted(0)])
  {
    RunSnoc(Init(mode), [], READ);
    steps := [READ];
    assert [] + [READ] == steps;
  }

  /** A read is submitted, sorted, dispatched and handed to the driver. */
  lemma ReadInFlight(mode: Mode) returns (steps: seq<Step>)
    ensures Runs(Init(mode), steps) && forall t :: t in steps && t.Add? ==> t == READ
    ensures Exec(Init(mode), steps) ==
            Init(mode).(flight := {R0(true)}, inFlight := 1, subs := [R0(false)],
                        log := [Event.Submitted(0), Issued(Role.Submitted, 0)])
  {
    steps := ReadSorted(mode);
    var st := Init(mode);
    RunSnoc(st, steps, Dispatch(R0(false), 0));
    steps := steps + [Dispatch(R0(false), 0)];
    assert Exec(st, steps).head == [R0(false)];
    RunSnoc(st, steps, Peek);
    steps := steps + [Peek];
    assert Exec(st, steps).head == [R0(true)];
    RunSnoc(st, steps, Start(0));
    steps := steps + [Start(0)];
    assert Exec(st, steps).head == [];
    assert Exec(st, steps).sched == {};
  }

  // ---------------------------------------------------------------- a barrier flag on a request that is not fs

  function Packet(s: Step, started: bool): Request
    requires s.Add?
  {
    Request(Role.Submitted, 1, 0, false, s.discard, s.empty, true, false, true, started)
  }

  function Beside(s: Step): int
    requires s.Add?
  {
    if s.discard then 1 else 0
  }

  const EARLY := [Event.Submitted(0), Issued(Role.Submitted, 0), Event.Submitted(1), Issued(Role.Submitted, 1)]

  lemma PacketAdded(st: State, s: Step)
    requires s.Add? && s.hard && !s.fs && st.head == [] && |st.subs| == 1 && st.bars == 0 && !st.ordcolor
    ensures DoAdd(st, s) ==
              st.(head := [Packet(s, false)], ordcolor := true, subs := st.subs + [Packet(s, false).Core()],
                  log := st.log + [Event.Submitted(1)])
  {
  }

  /** It goes to the driver past the gate, which starts sequences only for fs requests. */
  lemma PacketStarts(st: State, s: Step)
    requires s.Add? && s.hard && !s.fs && st.ordseq == IDLE && st.head == [Packet(s, false)]
    ensures DoPeek(st) == st.(head := [Packet(s, true)])
  {
  }

  lemma PacketIssued(st: State, s: Step)
    requires s.Add? && s.hard && !s.fs && st.head == [Packet(s, true)]
    ensures DoStart(st, 0) ==
              st.(head := [], flight := st.flight + {Packet(s, true)}, inFlight := st.inFlight + Beside(s),
                  log := st.log + [Issued(Role.Submitted, 1)])
  {
    assert Remove(st.head, 0) == [];
  }

  /** It toggles the colour without starting a sequence. */
  lemma PacketInFlight(mode: Mode, s: Step) returns (steps: seq<Step>)
    requires s.Add? && s.hard && !s.fs
    ensures Runs(Init(mode), steps) && OnlyBeside(steps, s)
    ensures var st := Exec(Init(mode), steps);
            st == Init(mode).(flight := {R0(true), Packet(s, true)}, inFlight := 1 + Beside(s), ordcolor := true,
            subs := [R0(false), Packet(s, false).Core()], log := EARLY)
  {
    hide DoPeek, DoStart, DoAdd;
    steps := ReadInFlight(mode);
    var st := Init(mode);
    PacketAdded(Exec(st, steps), s);
    RunSnoc(st, steps, s);
    steps := steps + [s];
    PacketStarts(Exec(st, steps), s);
    RunSnoc(st, steps, Peek);
    steps := steps + [Peek];
    PacketIssued(Exec(st, steps), s);
    RunSnoc(st, steps, Start(0));
    steps := steps + [Start(0)];
    assert Exec(st, steps).flight == {R0(true), Packet(s, true)};
  }

  const B2 := Request(Role.Submitted, 2, 0, true, false, false, true, true, true, false)

  /** The first request of its sequence. */
  function FirstStage(mode: Mode): Request { if mode.preflush then Flush(PreFlush, B2) else Proxy(B2) }

  lemma FirstStageFirst(mode: Mode)
    requires DrainingMode(mode)
    ensures var p := Proxies(mode, B2); |p| > 0 && p[0] == FirstStage(mode)
  {
  }

  function Waiting(mode: Mode): Bits { STARTED_BIT.Or(SkipBits(mode, true)) }

  lemma DrainStarts(st: State)
    requires st.head == [B2] && st.ordseq == IDLE && DrainingMode(st.mode) && st.inFlight > 0
    ensures DoPeek(st) == st.(head := Proxies(st.mode, B2), orig := B2, ordseq := Waiting(st.mode), ordered := st.mode,
            orderr := 0, reports := [0], taken := st.taken + 1)
  {
    assert Proxies(st.mode, B2) + [] == Proxies(st.mode, B2);
  }

  lemma BarrierAdded(st: State)
    requires st.head == [] && |st.subs| == 2 && st.bars == 0 && st.ordcolor
    ensures DoAdd(st, BARRIER) == st.(head := [B2], ordcolor := false, bars := 1, subs := st.subs + [B2.Core()],
            log := st.log + [Event.Submitted(2)])
  {
  }

  /** The barrier has been taken and waits for the read. */
  ghost predicate Waits(st: State, mode: Mode, s: Step)
    requires s.Add?
  {
    && st.mode == st.ordered == mode && st.orig == B2 && st.ordseq == Waiting(mode) && st.sched == {}
    && |st.subs| == 3 && st.subs[0] == R0(false) && st.log == EARLY + [Event.Submitted(2)]
    && |st.head| > 0 && st.head[0] == FirstStage(mode)
  }

  lemma BarrierWaits(mode: Mode, s: Step) returns (steps: seq<Step>)
    requires DrainingMode(mode) && s.Add? && s.hard && !s.fs
    ensures Runs(Init(mode), steps) && OnlyBeside(steps, s)
    ensures var st := Exec(Init(mode), steps);
            && Waits(st, mode, s) && st.flight == {R0(true), Packet(s, true)} && st.inFlight == 1 + Beside(s)
            && st.head == Proxies(mode, B2)
  {
    hide DoPeek, DoAdd;
    steps := PacketInFlight(mode, s);
    var st := Init(mode);
    BarrierAdded(Exec(st, steps));
    RunSnoc(st, steps, BARRIER);
    steps := steps + [BARRIER];
    FirstStageFirst(mode);
    DrainStarts(Exec(st, steps));
    RunSnoc(st, steps, Peek);
    steps := steps + [Peek];
  }

  /** The read comes back and is queued behind the barrier, whose colour it does not share. */
  lemma ReadRequeuedBehind(mode: Mode, s: Step) returns (steps: seq<Step>)
    requires DrainingMode(mode) && s.Add? && s.hard && !s.fs
    ensures Runs(Init(mode), steps) && OnlyBeside(steps, s)
    ensures var st := Exec(Init(mode), steps);
            Waits(st, mode, s) && st.flight == {Packet(s, true)} && st.inFlight == Beside(s)
  {
    steps := BarrierWaits(mode, s);
    var st := Init(mode);
    var st1 := Exec(st, steps);
    assert ReqSeq(st1, R0(true)) == ORDSEQ_DONE && RequeuePoint(st1, ORDSEQ_DONE, 0) > 0;
    RunSnoc(st, steps, Requeue(R0(true)));
    steps := steps + [Requeue(R0(true))];
    assert Exec(st, steps).flight == {Packet(s, true)};
  }

  lemma DrainEnds(st: State, mode: Mode, s: Step)
    requires DrainingMode(mode) && s.Add? && s.hard && !s.fs
    requires Waits(st, mode, s) && st.flight == {Packet(s, true)} && st.inFlight == Beside(s)
    ensures var st' := DoComplete(st, Packet(s, true), 0);
            && st'.mode == st.mode && st'.ordered == st.ordered && st'.head == st.head && st'.subs == st.subs
            && st'.ordseq == st.ordseq.Or(DRAIN_BIT) && st'.log == st.log + [Completed(1)]
  {
  }

  /** The drain is over although the read is not finished. */
  lemma DrainMisjudged(mode: Mode, s: Step) returns (steps: seq<Step>)
    requires DrainingMode(mode) && s.Add? && s.hard && !s.fs
    ensures Runs(Init(mode), steps) && OnlyBeside(steps, s)
    ensures var st := Exec(Init(mode), steps);
            && st.mode == st.ordered == mode && st.ordseq == Waiting(mode).Or(DRAIN_BIT) && |st.subs| == 3
            && st.subs[0] == R0(false)
            && st.log == EARLY + [Event.Submitted(2), Completed(1)] && |st.head| > 0 && st.head[0] == FirstStage(mode)
  {
    steps := ReadRequeuedBehind(mode, s);
    var st := Init(mode);
    DrainEnds(Exec(st, steps), mode, s);
    hide DoComplete;
    RunSnoc(st, steps, Complete(Packet(s, true), 0));
    steps := steps + [Complete(Packet(s, true), 0)];
  }

  /** Every kind of submission that is not fs and carries the barrier flag
      breaks the order in every draining mode: a stage of a barrier is issued
      while a read submitted before it is unfinished. */
  lemma NonFsBarrierBreaksOrder(mode: Mode, s: Step) returns (steps: seq<Step>)
    requires DrainingMode(mode) && s.Add? && s.hard && !s.fs
    ensures Runs(Init(mode), steps) && OnlyBeside(steps, s) && !AllInOrder(Exec(Init(mode), steps))
  {
    steps := DrainMisjudged(mode, s);
    var st := Init(mode);
    StageServed(Exec(st, steps), mode);
    hide DoPeek;
    RunSnoc(st, steps, Peek);
    steps := steps + [Peek];
    RunSnoc(st, steps, Start(0));
    steps := steps + [Start(0)];
    var end := Exec(st, steps);
    assert end.log == EARLY + [Event.Submitted(2), Completed(1), Issued(FirstStage(mode).role, 2)];
    UnfinishedRead(end, 6);
  }

  lemma StageServed(st: State, mode: Mode)
    requires DrainingMode(mode) && st.mode == st.ordered == mode && st.ordseq == Waiting(mode).Or(DRAIN_BIT)
    requires |st.head| > 0 && st.head[0] == FirstStage(mode)
    ensures DoPeek(st) == st.(head := [FirstStage(mode).(started := true)] + st.head[1..])
  {
  }

  /** Read 0 is unfinished when event i about a later barrier happens. */
  lemma UnfinishedRead(st: State, i: nat)
    requires i < |st.log| && |st.subs| > 0 && st.subs[0].fs
    requires (st.log[i].Issued? && !st.log[i].role.Submitted?) || st.log[i].Ended?
    requires st.log[i].id > 0 && !FinishedBefore(st.log, i, 0)
    ensures !AllInOrder(st)
  {
    assert !FsBeforeFinished(st.subs, st.log, i, st.log[i].id);
    assert !InOrder(st.subs, st.log, i);
  }

  // ---------------------------------------------------------------- an fs request at the front

  function FrontRq(s: Step, id: nat, gen: nat, color: bool, started: bool): Request
    requires s.Add?
  {
    Request(Role.Submitted, id, gen, true, s.discard, s.empty, s.hard, color, true, started)
  }

  /** A barrier at the front is taken while a read is still in the scheduler. */
  lemma FrontBarrierTaken(mode: Mode, s: Step) returns (steps: seq<Step>)
    requires DrainingMode(mode) && s.Add? && s.fs && s.where == Front && s.hard
    ensures Runs(Init(mode), steps) && OnlyBeside(steps, s)
    ensures var st := Exec(Init(mode), steps); |st.subs| == 2 && st.subs[0] == R0(false) && TakenAtOnce(st)
  {
    hide DoPeek, DoAdd;
    steps := ReadSorted(mode);
    var st := Init(mode);
    FrontAdded(Exec(st, steps), s);
    RunSnoc(st, steps, s);
    steps := steps + [s];
    FrontStarts(Exec(st, steps), FrontRq(s, 1, 0, false, false));
    RunSnoc(st, steps, Peek);
    steps := steps + [Peek];
  }

  /** Submission 1 has ended or its first stage may be handed over. */
  predicate TakenAtOnce(st: State) {
    || st.log == [Event.Submitted(0), Event.Submitted(1), Ended(1, 0)]
    || (&& st.log == [Event.Submitted(0), Event.Submitted(1)] && st.head != []
        && st.head[0].started && !st.head[0].role.Submitted? && st.head[0].id == 1)
  }

  /** So it overtakes the read. */
  lemma FrontBarrierBreaksOrder(mode: Mode, s: Step) returns (steps: seq<Step>)
    requires DrainingMode(mode) && s.Add? && s.fs && s.where == Front && s.hard
    ensures Runs(Init(mode), steps) && OnlyBeside(steps, s) && !AllInOrder(Exec(Init(mode), steps))
  {
    steps := FrontBarrierTaken(mode, s);
    var st := Init(mode);
    if |Exec(st, steps).log| == 2 {
      RunSnoc(st, steps, Start(0));
      steps := steps + [Start(0)];
    }
    UnfinishedRead(Exec(st, steps), 2);
  }

  lemma FrontAdded(st: State, s: Step)
    requires s.Add? && s.hard && s.fs && s.where == Front && st.head == [] && |st.subs| == 1 && st.bars == 0
             && !st.ordcolor
    ensures var b := FrontRq(s, 1, 0, false, false);
            DoAdd(st, s) == st.(head := [b], ordcolor := true, bars := 1, subs := st.subs + [b.Core()],
                                log := st.log + [Event.Submitted(1)])
  {
  }

  /** With nothing at the driver the first stage is handed over at once, or the
      barrier has none and ends. */
  lemma FrontStarts(st: State, b: Request)
    requires st.head == [b] && b.IsBarrier() && b.role.Submitted? && st.ordseq == IDLE && DrainingMode(st.mode)
             && st.inFlight == 0
    ensures var st' := DoPeek(st); var p := Proxies(OrderedFor(st.mode, b.empty), b);
            && st'.subs == st.subs
            && if p == [] then st'.log == st.log + [Ended(b.id, 0)]
               else st'.log == st.log && |st'.head| > 0 && st'.head[0] == p[0].(started := true)
  {
  }

  // ---------------------------------------------------------------- a scheduler that is not drained

  /** Back insertion relies on the forced drain.  If that leaves a read in the
      scheduler, every barrier inserted at the back overtakes it. */
  lemma LeftBehindBreaksOrder(mode: Mode, s: Step) returns (steps: seq<Step>, more: seq<Step>)
    requires DrainingMode(mode) && s.Add? && s.fs && s.hard && Route(s) == Back
    ensures Runs(Init(mode), steps) && forall t :: t in steps && t.Add? ==> t == READ
    ensures var st := Exec(Init(mode), steps);
            && st.sched != {} && Runs(DoAdd(st, s), more) && !AllInOrder(Exec(DoAdd(st, s), more))
            && forall t :: t in more ==> !t.Add?
  {
    hide DoPeek;
    steps := ReadSorted(mode);
    var st := DoAdd(Exec(Init(mode), steps), s);
    FrontStarts(st, FrontRq(s, 1, 0, false, false));
    RunSnoc(st, [], Peek);
    more := [Peek];
    assert [] + [Peek] == more;
    if |Exec(st, more).log| == 2 {
      RunSnoc(st, more, Start(0));
      more := more + [Start(0)];
    }
    UnfinishedRead(Exec(st, more), 2);
  }

  const B0 := Request(Role.Submitted, 0, 0, true, false, false, true, false, true, false)

  lemma RequestBeforeBarrier(mode: Mode, s: Step) returns (steps: seq<Step>)
    requires s.Add? && s.fs && s.where == Front && !s.hard
    ensures Runs(Init(mode), steps) && OnlyBeside(steps, s)
    ensures var st := Exec(Init(mode), steps);
            && st.ordseq == IDLE && st.head == [FrontRq(s, 1, 1, true, false), B0] && |st.subs| == 2
            && st.subs[0].IsBarrier()
            && st.subs[1].fs && st.log == [Event.Submitted(0), Event.Submitted(1)]
  {
    var st := Init(mode);
    RunSnoc(st, [], BARRIER);
    steps := [BARRIER];
    assert [] + [BARRIER] == steps;
    assert Exec(st, steps).head == [B0];
    RunSnoc(st, steps, s);
    steps := steps + [s];
  }

  /** Any other fs request at the front overtakes a barrier that waits in the list. */
  lemma FrontRequestBreaksOrder(mode: Mode, s: Step) returns (steps: seq<Step>)
    requires DrainingMode(mode) && s.Add? && s.fs && s.where == Front && !s.hard
    ensures Runs(Init(mode), steps) && OnlyBeside(steps, s) && !AllInOrder(Exec(Init(mode), steps))
  {
    steps := RequestBeforeBarrier(mode, s);
    var st := Init(mode);
    RunSnoc(st, steps, Peek);
    steps := steps + [Peek];
    assert Exec(st, steps).head == [FrontRq(s, 1, 1, true, true), B0];
    RunSnoc(st, steps, Start(0));
    steps := steps + [Start(0)];
    var end := Exec(st, steps);
    assert end.log == [Event.Submitted(0), Event.Submitted(1), Issued(Role.Submitted, 1)];
    assert end.subs[0].IsBarrier() && !EndedBefore(end.log, 2, 0);
    assert !InOrder(end.subs, end.log, 2);
  }

  // ---------------------------------------------------------------- exactly the disciplined submissions

  /** Every undisciplined submission breaks the order. */
  lemma UndisciplinedBreaksOrder(mode: Mode, s: Step) returns (steps: seq<Step>)
    requires DrainingMode(mode) && s.Add? && !Disciplined(s)
    ensures Runs(Init(mode), steps) && OnlyBeside(steps, s) && !AllInOrder(Exec(Init(mode), steps))
  {
    if s.hard && !s.fs {
      steps := NonFsBarrierBreaksOrder(mode, s);
    } else if s.hard {
      steps := FrontBarrierBreaksOrder(mode, s);
    } else {
      steps := FrontRequestBreaksOrder(mode, s);
    }
  }

  /** Submissions come from `kinds` only. */
  ghost predicate Uses(kinds: iset<Step>, steps: seq<Step>) {
    forall t :: t in steps && t.Add? ==> t in kinds
  }

  /** Every run with these submissions keeps barrier order. */
  ghost predicate KeepsOrder(mode: Mode, kinds: iset<Step>) {
    forall steps :: Uses(kinds, steps) && Runs(Init(mode), steps) ==> AllInOrder(Exec(Init(mode), steps))
  }

  /** Submitters that also issue ordinary reads and barriers get barrier order
      if and only if all their submissions are disciplined. */
  lemma OrderIffDisciplined(mode: Mode, kinds: iset<Step>)
    requires DrainingMode(mode) && READ in kinds && BARRIER in kinds
    ensures KeepsOrder(mode, kinds) <==> forall s :: s in kinds ==> Disciplined(s)
  {
    if forall s :: s in kinds ==> Disciplined(s) {
      forall steps | Uses(kinds, steps) && Runs(Init(mode), steps) ensures AllInOrder(Exec(Init(mode), steps)) {
        BarrierOrderHolds(mode, steps);
      }
    } else {
      var s :| s in kinds && !Disciplined(s);
      var steps := UndisciplinedBreaksOrder(mode, s);
      assert Uses(kinds, steps);
    }
  }

  // ---------------------------------------------------------------- ordering by tag

  predicate TagMode(mode: Mode) { ValidMode(mode) && mode.byTag }

  /** A barrier with a single stage: its write, or the preflush of an empty one. */
  function OneStage(mode: Mode): Step { BARRIER.(empty := mode.preflush) }

  function TagBarrier(mode: Mode, id: nat, color: bool): Request
    requires id > 0
  {
    Request(Role.Submitted, id, id - 1, true, false, mode.preflush, true, color, true, false)
  }

  function TagStage(mode: Mode): Request {
    var b := TagBarrier(mode, 1, false);
    (if mode.preflush then Flush(PreFlush, b) else Proxy(b)).(started := true)
  }

  function TagBits(mode: Mode): Bits { Bits(true, true, !mode.preflush, mode.preflush, true) }

  /** By tag a sequence starts at once, whatever is at the driver. */
  lemma TagStarts(st: State, id: nat, color: bool)
    requires TagMode(st.mode) && id > 0 && st.head == [TagBarrier(st.mode, id, color)] && st.ordseq == IDLE
    ensures var st' := DoPeek(st);
            && st' == st.(ordered := OrderedFor(st.mode, st.mode.preflush), ordseq := TagBits(st.mode),
                          orig := st.head[0], taken := st.taken + 1, orderr := 0, reports := [0], head := st'.head)
            && (id == 1 && !color ==> st'.head == [TagStage(st.mode)])
  {
  }

  lemma TagBarrierAdded(st: State, color: bool)
    requires st.head == [] && |st.subs| == st.bars + 1 && st.ordcolor == color
    ensures var b := TagBarrier(st.mode, st.bars + 1, color);
            DoAdd(st, OneStage(st.mode)) == st.(head := [b], ordcolor := !color, bars := st.bars + 1,
                                                subs := st.subs + [b.Core()], log := st.log + [Event.Submitted(b.id)])
  {
  }

  /** A sequence starts while an older read is at the driver. */
  lemma SequenceBesideRead(mode: Mode) returns (steps: seq<Step>)
    requires TagMode(mode)
    ensures Runs(Init(mode), steps) && forall t :: t in steps ==> Disciplined(t)
    ensures var st := Exec(Init(mode), steps);
            && st.flight == {R0(true)} && st.inFlight == 1 && st.head == [TagStage(mode)] && st.sched == {}
            && st.mode == mode
            && st.ordseq == TagBits(mode) && st.orig == TagBarrier(mode, 1, false) && st.ordcolor && st.bars == 1
            && |st.subs| == 2
  {
    hide DoPeek, DoAdd;
    steps := ReadInFlight(mode);
    var st := Init(mode);
    TagBarrierAdded(Exec(st, steps), false);
    RunSnoc(st, steps, OneStage(mode));
    steps := steps + [OneStage(mode)];
    TagStarts(Exec(st, steps), 1, false);
    RunSnoc(st, steps, Peek);
    steps := steps + [Peek];
  }

  lemma TagStageEnds(st: State, mode: Mode)
    requires TagMode(mode) && st.ordseq == TagBits(mode) && TagStage(mode) in st.flight
    ensures var st' := DoComplete(st, TagStage(mode), 0);
            && st' == st.(ordseq := IDLE, flight := st.flight - {TagStage(mode)}, orderr := st'.orderr,
                          done := st'.done, reports := st'.reports, log := st'.log,
                          inFlight := if mode.preflush then st.inFlight else st.inFlight - 1)
  {
  }

  /** And finishes. */
  lemma SequenceOverRead(mode: Mode) returns (steps: seq<Step>)
    requires TagMode(mode)
    ensures Runs(Init(mode), steps) && forall t :: t in steps ==> Disciplined(t)
    ensures var st := Exec(Init(mode), steps);
            && st.flight == {R0(true)} && st.inFlight == 1 && st.head == [] && st.sched == {} && st.mode == mode
            && st.ordseq == IDLE && st.ordcolor && st.bars == 1 && |st.subs| == 2
  {
    steps := SequenceBesideRead(mode);
    var st := Init(mode);
    RunSnoc(st, steps, Start(0));
    steps := steps + [Start(0)];
    assert Exec(st, steps).head == [];
    hide DoComplete, DoStart;
    TagStageEnds(Exec(st, steps), mode);
    RunSnoc(st, steps, Complete(TagStage(mode), 0));
    steps := steps + [Complete(TagStage(mode), 0)];
    assert Exec(st, steps).flight == {R0(true)};
  }

  /** The colour test gives the answer the generations would give. */
  predicate ColorRight(st: State, r: Request) { ReqSeq(st, r) == ORDSEQ_DRAIN <==> r.gen <= st.orig.gen }

  /** In every state of every disciplined run, wherever the code looks. */
  ghost predicate ColorsExact(mode: Mode) {
    forall steps, r ::
      Runs(Init(mode), steps) && (forall s :: s in steps ==> Disciplined(s)) && Looked(Exec(Init(mode), steps), r)
      ==> ColorRight(Exec(Init(mode), steps), r)
  }

  /** An fs request at the head of the list or at the driver while a sequence runs. */
  predicate Looked(st: State, r: Request) {
    st.ordseq != IDLE && Fs(r) && ((st.head != [] && r == st.head[0]) || r in st.flight)
  }

  /** After one barrier has come and gone, the next has the other colour, and
      the read from before both is taken for a later request. */
  lemma TagModeMisjudgesColor(mode: Mode) returns (steps: seq<Step>)
    requires TagMode(mode)
    ensures Runs(Init(mode), steps) && forall t :: t in steps ==> Disciplined(t)
    ensures var st := Exec(Init(mode), steps);
            Looked(st, R0(true)) && R0(true).gen < st.orig.gen && ReqSeq(st, R0(true)) == ORDSEQ_DONE
  {
    hide DoPeek, DoAdd;
    steps := SequenceOverRead(mode);
    var st := Init(mode);
    TagBarrierAdded(Exec(st, steps), true);
    RunSnoc(st, steps, OneStage(mode));
    steps := steps + [OneStage(mode)];
    TagStarts(Exec(st, steps), 2, true);
    RunSnoc(st, steps, Peek);
    steps := steps + [Peek];
  }

  lemma {:induction false} NoneNeverRuns(st: State, steps: seq<Step>)
    requires Inv(st) && st.mode == NONE && st.ordseq == IDLE && Runs(st, steps)
    ensures Exec(st, steps).ordseq == IDLE
    decreases |steps|
  {
    if steps != [] {
      var s := steps[0];
      StepKeepsInv(st, s);
      StepSupported(st, s);
      StepKeepsMode(st, s);
      NoneNeverRuns(Apply(st, s), steps[1..]);
    }
  }

  lemma StepKeepsMode(st: State, s: Step)
    requires Inv(st) && Enabled(st, s)
    ensures Apply(st, s).mode == st.mode
  {
    hide DoPeek, DoComplete;
    match s
    case Peek => PeekLog(st);
    case Complete(rq, error) => CompleteLog(st, rq, error);
    case _ =>
  }

  lemma DrainingColorsExact(mode: Mode, steps: seq<Step>, r: Request)
    requires DrainingMode(mode) && Runs(Init(mode), steps) && (forall s :: s in steps ==> Disciplined(s))
    requires Looked(Exec(Init(mode), steps), r)
    ensures ColorRight(Exec(Init(mode), steps), r)
  {
    InitInv(mode);
    assert Ordered(Init(mode));
    RunKeepsOrder(Init(mode), steps);
    ColorExact(Exec(Init(mode), steps), r);
  }

  /** One colour bit is enough if and only if the mode does not order by tag. */
  lemma ColorsExactIffNoTag(mode: Mode)
    requires ValidMode(mode)
    ensures ColorsExact(mode) <==> !mode.byTag
  {
    if mode.byTag {
      var steps := TagModeMisjudgesColor(mode);
      assert Looked(Exec(Init(mode), steps), R0(true)) && !ColorRight(Exec(Init(mode), steps), R0(true));
    } else {
      forall steps, r | Runs(Init(mode), steps) && (forall s :: s in steps ==> Disciplined(s))
                      && Looked(Exec(Init(mode), steps), r)
        ensures ColorRight(Exec(Init(mode), steps), r)
      {
        if mode == NONE {
          InitInv(mode);
          NoneNeverRuns(Init(mode), steps);
        } else {
          DrainingColorsExact(mode, steps, r);
        }
      }
    }
  }
}
