/**
 What as_can_break_anticipation answers.  The clock and the statistics it looks
 at are values of the model; which request it is asked about, and what the
 process waited for has queued, come from the state.
 */
module AnticipatoryAnswers {
  import opened RbTree
  import opened Lanes
  import opened Anticipatory
  import opened AnticipatoryProofs

  /** Jiffies since antic_start, and the statistics of the process waited for
      and of new processes.  `listed`: a request of the process is still on the
      dispatch list; `running`: it has not exited. */
  datatype Stats = Stats(anticExpire: nat, delay: nat, listed: bool, running: bool,
                         seekSamples: nat, seekMean: nat, ttimeSamples: nat, ttimeMean: nat,
                         newSeekMean: nat, newTtimeMean: nat, exitProb: nat, exitNoCoop: nat)

  /** What the function is asked about. */
  datatype About = NoRequest | Request(dir: Dir, node: Node)

  ghost predicate Busy(cfg: Config, ioc: Ref, out: map<nat, Dir>) { exists x :: x in out && cfg.ioc(x) == ioc }

  /** A request of the process is queued. */
  ghost predicate QueuedBy(cfg: Config, st: State, ioc: Ref) {
    exists x :: (x in TreeIds(st.lane.read.sort) || x in TreeIds(st.lane.write.sort)) && cfg.ioc(x) == ioc
  }

  function Pow2(n: nat): nat { if n == 0 then 1 else 2 * Pow2(n - 1) }

  predicate Near(last: nat, pos: nat, delay: nat) {
    last <= pos + 4096 * Pow2(delay) && pos <= last + 8192 * Pow2(delay)
  }

  // 20 milliseconds in jiffies, with HZ 1000.
  const CLOSE_DELAY: nat := 20

  /** as_close_req. */
  predicate CloseReq(st: State, pos: nat, s: Stats) {
    var last := st.lastSector.At(st.batch.dir);
    var delay := if st.wait.antic == Off || !st.wait.iocFinished then 0 else s.delay;
    var mean := if s.seekSamples == 0 then s.newSeekMean else s.seekMean;
    || delay > CLOSE_DELAY || delay > s.anticExpire
    || Near(last, pos, delay)
    || (if last < pos then pos - last else last - pos) < mean
  }

  /** The last part: the process has exited, or thinks for too long. */
  predicate Hopeless(s: Stats) {
    var exitProb := if !s.running && s.ttimeSamples == 0 then (7 * s.exitProb + 256) / 8 else s.exitProb;
    || (!s.running && s.exitNoCoop > 128)
    || (if s.ttimeSamples == 0 then s.newTtimeMean > s.anticExpire || exitProb * s.exitNoCoop > 128 * 256
        else s.ttimeMean > s.anticExpire)
  }

  /** as_can_break_anticipation; a context always has its as_io_context. */
  ghost predicate CanBreak(cfg: Config, st: State, a: About, s: Stats) {
    var ioc := st.wait.ioc;
    || (a.Request? && cfg.ioc(a.node.id) == ioc)
    || (st.wait.iocFinished && s.delay >= s.anticExpire)
    || QueuedBy(cfg, st, ioc)
    || (s.listed && Busy(cfg, ioc, st.outstanding))
    || (a.Request? && a.dir == Read && CloseReq(st, a.node.pos, s))
    || Hopeless(s)
  }

  /** A process that has done one read, on a queue without other history. */
  const FRESH := Stats(6, 0, false, true, 0, 0, 0, 0, 0, 0, 0, 0)

  /** The request is of the process, or close, or the process has another queued. */
  ghost predicate MustBreak(cfg: Config, st: State, a: About) {
    || (a.Request? && cfg.ioc(a.node.id) == st.wait.ioc)
    || QueuedBy(cfg, st, st.wait.ioc)
    || (a.Request? && a.dir == Read && Near(st.lastSector.At(st.batch.dir), a.node.pos, 0))
  }

  lemma {:induction false} Pow2Grows(n: nat)
    ensures Pow2(n) >= 1
  {
    if n > 0 { Pow2Grows(n - 1); }
  }

  /** Exactly when the answer is yes whatever the clock and the statistics say. */
  lemma {:induction false} MustBreakIff(cfg: Config, st: State, a: About)
    ensures MustBreak(cfg, st, a) <==> forall s: Stats :: CanBreak(cfg, st, a, s)
  {
    hide QueuedBy, Busy;
    forall s: Stats | MustBreak(cfg, st, a) ensures CanBreak(cfg, st, a, s) {
      Pow2Grows(s.delay);
    }
    assert CanBreak(cfg, st, a, FRESH) ==> MustBreak(cfg, st, a);
  }

  /** The next read, as as_dispatch_request passes it on. */
  function NextRead(st: State): About
    requires LaneFit(st.lane.read)
  {
    var l := st.lane.read;
    if l.next == Null then NoRequest else NextInLane(l); Request(Read, l.sort[NodeAt(l.sort, l.next.id)])
  }

  /** Where the answer of a step matters, it is the one of the code. */
  ghost predicate Honest(cfg: Config, st: State, s: Step, h: Stats)
    requires Inv(st)
  {
    match s
    case Adding(d, n, canBreak, _) =>
      Waiting(st.wait) && !Taken(st.lane.At(d).sort, n.pos) ==> canBreak == CanBreak(cfg, st, Request(d, n), h)
    case Dispatching(o) =>
      Decide(cfg, st, o.(canBreak := false)).Anticipate? ==> o.canBreak == CanBreak(cfg, st, NextRead(st), h)
    case _ => true
  }

  ghost predicate AllHonest(cfg: Config, st: State, steps: seq<Step>, h: Stats)
    requires Inv(st) && Runs(cfg, st, steps)
    decreases |steps|
  {
    steps == [] ||
    (Honest(cfg, st, steps[0], h)
     && (StepKeeps(cfg, st, steps[0]); AllHonest(cfg, Apply(cfg, st, steps[0]), steps[1..], h)))
  }
}
