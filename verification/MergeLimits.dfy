/**
 Runs on which merging goes wrong, on every queue that clusters segments and
 has room: a discard in front of a read loses a segment, and a read in front of
 a discard reads a vector that is not there.
 */
module MergeLimits {
  import opened Segments
  import opened Merging
  import opened MergeBound
  import opened MergeRuns

  predicate Roomy(q: Queue) {
    q.seg.cluster && q.seg.maxSegment >= 512 && q.maxSectors >= 3 && q.maxPhys >= 2 && q.maxHw >= 2
  }

  const READS := Kind(false, 0, false, 0)

  /** A discard of one sector, as BLKDISCARD submits it, and a read of one sector. */
  function DiscardAt(sector: nat): Bio { Bio(sector, READS, sector, 512, [], true, true, 0, 0, 0) }

  function ReadAt(sector: nat, addr: nat): Bio {
    Bio(sector, READS, sector, 512, [Vec(addr, 512)], false, true, 1, 512, 512)
  }

  lemma {:induction false} DiscardCounts(q: Queue, sector: nat)
    ensures SegOk(q, [DiscardAt(sector)], 0)
  {
    var d := DiscardAt(sector);
    ChainOne(d);
    assert SegCut(q, [d], 0, []);
  }

  lemma {:induction false} ReadCounts(q: Queue, sector: nat, addr: nat)
    requires q.seg.maxSegment >= 512
    ensures SegOk(q, [ReadAt(sector, addr)], 1)
  {
    var v, b := Vec(addr, 512), ReadAt(sector, addr);
    ChainOne(b);
    TotalOne([], v);
    FlatOne([], [v]);
    assert [] + [v] == [v] && [] + [[v]] == [[v]];
    assert Total([]) == 0 && Flat([]) == [];
    assert SegCut(q, [b], 1, [[v]]);
  }

  lemma {:induction false} OneVector(q: Limits, v: Vec)
    ensures |Greedy(q, false, [v])| == 1
  {
    assert [v][..0] == [];
  }

  // ---------------------------------------------------------------- two requests and a bio between them

  lemma {:induction false} RunSnoc(q: Queue, st: State, steps: seq<Step>, s: Step)
    requires Runs(q, st, steps) && Enabled(q, Exec(q, st, steps), s)
    ensures Runs(q, st, steps + [s]) && Exec(q, st, steps + [s]) == Apply(q, Exec(q, st, steps), s)
    decreases |steps|
  {
    if steps == [] {
      assert steps + [s] == [s] && [s][1..] == [];
    } else {
      assert (steps + [s])[1..] == steps[1..] + [s];
      RunSnoc(q, Apply(q, st, steps[0]), steps[1..], s);
    }
  }

  lemma {:induction false} TwoSubmitted(q: Queue, a: Bio, b: Bio) returns (steps: seq<Step>)
    ensures steps == [Submit(a, false), Submit(b, false)] && Runs(q, EMPTY, steps)
    ensures Exec(q, EMPTY, steps).rqs == [NewRq(q, a, false), NewRq(q, b, false)]
  {
    var x, y := Submit(a, false), Submit(b, false);
    RunSnoc(q, EMPTY, [], x);
    assert [] + [x] == [x];
    RunSnoc(q, EMPTY, [x], y);
    steps := [x] + [y];
  }

  /** Back-merge the bio into the first request, then offer it the second. */
  function Between(bio: Bio): Step { Merge(true, 0, bio, At(1)) }

  // ---------------------------------------------------------------- a discard, then a read

  lemma {:induction false} DiscardsJoined(q: Queue, addr: nat, st: State)
    requires Roomy(q) && st.rqs == [NewRq(q, DiscardAt(0), false), NewRq(q, ReadAt(2, addr), false)]
    ensures var s := Between(DiscardAt(1));
            && Enabled(q, st, s)
            && Apply(q, st, s).rqs ==
              [Rq([DiscardAt(0), DiscardAt(1), ReadAt(2, addr)], READS, 0, 1536, 0, false, false, false)]
  {
    var s := Between(DiscardAt(1));
    var r := Rq([DiscardAt(0), DiscardAt(1)], READS, 0, 1024, 0, false, false, false);
    var n := Rq([ReadAt(2, addr)], READS, 2, 512, 1, false, false, false);
    assert [DiscardAt(0)] + [DiscardAt(1)] == [DiscardAt(0), DiscardAt(1)];
    assert Grown(q, st.rqs[0], s) == Verdict(true, r, DiscardAt(1));
    assert st.rqs[0 := r] == [r, n];
    assert WithBack(n.bios, 512) == n.bios;
    assert r.bios + n.bios == [DiscardAt(0), DiscardAt(1), ReadAt(2, addr)];
  }

  /** On every such queue there is a run of sound bios after which a request
      claims no segment and needs one: two discards are merged, and the read
      behind them joins as if it were contiguous with nothing. */
  lemma {:induction false} DiscardMergeUndercounts(q: Queue, addr: nat) returns (steps: seq<Step>)
    requires Roomy(q)
    ensures Runs(q, EMPTY, steps) && forall s :: s in steps ==> SoundBio(q, s)
    ensures exists r :: r in Exec(q, EMPTY, steps).rqs && r.nr < |Greedy(q.seg, false, ChainVecs(r.bios))|
  {
    hide Greedy, SegOk;
    DiscardCounts(q, 0);
    DiscardCounts(q, 1);
    ReadCounts(q, 2, addr);
    steps := TwoSubmitted(q, DiscardAt(0), ReadAt(2, addr));
    var s := Between(DiscardAt(1));
    DiscardsJoined(q, addr, Exec(q, EMPTY, steps));
    RunSnoc(q, EMPTY, steps, s);
    steps := steps + [s];
    var r := Exec(q, EMPTY, steps).rqs[0];
    ChainJoin([DiscardAt(0), DiscardAt(1)], [ReadAt(2, addr)]);
    ChainJoin([DiscardAt(0)], [DiscardAt(1)]);
    ChainOne(DiscardAt(0));
    ChainOne(DiscardAt(1));
    ChainOne(ReadAt(2, addr));
    assert r.bios == [DiscardAt(0), DiscardAt(1)] + [ReadAt(2, addr)]
           && [DiscardAt(0), DiscardAt(1)] == [DiscardAt(0)] + [DiscardAt(1)];
    assert ChainVecs(r.bios) == [Vec(addr, 512)];
    OneVector(q.seg, Vec(addr, 512));
  }

  // ---------------------------------------------------------------- a read, then a discard

  /** The second merge of the step reads a missing vector. */
  predicate StepFaults(q: Queue, st: State, s: Step)
    requires Enabled(q, st, s)
  {
    Offered(s) &&
    var (a, b) := Pair(s);
    var v := Grown(q, st.rqs[s.i], s);
    var rqs := st.rqs[s.i := v.rq];
    v.ok && ReadsMissing(q, rqs[a], rqs[b])
  }

  lemma {:induction false} DiscardOffered(q: Queue, addr: nat, st: State)
    requires Roomy(q) && st.rqs == [NewRq(q, ReadAt(0, addr), false), NewRq(q, DiscardAt(2), false)]
    ensures var s := Between(ReadAt(1, addr)); Enabled(q, st, s) && StepFaults(q, st, s)
  {
    var s := Between(ReadAt(1, addr));
    var r := Rq([ReadAt(0, addr), ReadAt(1, addr)], READS, 0, 1024, 2, false, false, false);
    assert [ReadAt(0, addr)] + [ReadAt(1, addr)] == [ReadAt(0, addr), ReadAt(1, addr)];
    assert Grown(q, st.rqs[0], s) == Verdict(true, r, ReadAt(1, addr));
    assert st.rqs[0 := r][1] == NewRq(q, DiscardAt(2), false);
  }

  /** On every such queue there is a run of sound bios whose next step reads
      the first vector of a bio without vectors: a read grows up to a discard. */
  lemma {:induction false} ReadThenDiscardFaults(q: Queue, addr: nat) returns (steps: seq<Step>, s: Step)
    requires Roomy(q)
    ensures Runs(q, EMPTY, steps) && SoundBio(q, s) && forall t :: t in steps ==> SoundBio(q, t)
    ensures Enabled(q, Exec(q, EMPTY, steps), s) && StepFaults(q, Exec(q, EMPTY, steps), s)
  {
    hide SegOk;
    DiscardCounts(q, 2);
    ReadCounts(q, 0, addr);
    ReadCounts(q, 1, addr);
    steps := TwoSubmitted(q, ReadAt(0, addr), DiscardAt(2));
    s := Between(ReadAt(1, addr));
    DiscardOffered(q, addr, Exec(q, EMPTY, steps));
  }
}
