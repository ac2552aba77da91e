/**
 The scatterlist bound over whole runs: after any run of submissions and merges
 the segments a request counts are enough to map it, as long as no merge puts
 data beside a bio without data; on a queue that does not cluster, always.
 */
module MergeScatter {
  import opened Segments
  import opened Merging
  import opened MergeBound
  import opened MergeRuns

  // ---------------------------------------------------------------- requests without data

  /** All bios are discards; the count may be anything. */
  ghost predicate Dataless(r: Rq) { !r.barrier && Homogeneous(r.bios) && r.bios[0].discard }

  /** The count is right, or there is nothing to map. */
  ghost predicate BoundRq(q: Queue, r: Rq) { SegRq(q, r) || Dataless(r) }

  /** The same bios apart from what is cached about them. */
  lemma {:induction false} StillDataless(r: Rq, r1: Rq)
    requires Dataless(r) && Stripped(r1.bios) == Stripped(r.bios) && r1.barrier == r.barrier
    ensures Dataless(r1)
  {
    HomogeneousStripped(r.bios, r1.bios);
    assert Strip(r1.bios[0]) == Strip(r.bios[0]);
  }

  /** Adding a bio. */
  lemma {:induction false} GrownBound(q: Queue, r: Rq, s: Step)
    requires BoundRq(q, r) && s.Merge? && SoundBio(q, s) && MergeOk(r, s.bio)
    ensures var v := Grown(q, r, s); BoundRq(q, v.rq) && BioOk(q, v.bio)
  {
    if SegRq(q, r) {
      GrownSeg(q, r, s);
    } else {
      GrownDataless(q, r, s);
    }
  }

  lemma {:induction false} GrownDataless(q: Queue, r: Rq, s: Step)
    requires Dataless(r) && s.Merge? && SoundBio(q, s) && MergeOk(r, s.bio)
    ensures var v := Grown(q, r, s); Dataless(v.rq) && BioOk(q, v.bio)
  {
    hide SegOk, Sectors, Greedy, Recount, Strip;
    var b := s.bio;
    var v := if s.back then BackMergeFn(q, r, b) else FrontMergeFn(q, r, b);
    ChecksOnly(q, r, b, v);
    RecountOk(q, b);
    MergeFlags(q, r, b, v);
    HomogeneousStripped(r.bios, v.rq.bios);
    assert Homogeneous([b]);
    assert Stripped([v.bio]) == Stripped([b]);
    HomogeneousStripped([b], [v.bio]);
    StripDiscard(v.rq.bios, r.bios);
    StripDiscard([v.bio], [b]);
    HomogeneousJoin(v.rq.bios, [v.bio]);
    HomogeneousJoin([v.bio], v.rq.bios);
  }

  lemma {:induction false} StripDiscard(a: seq<Bio>, b: seq<Bio>)
    requires a != [] && Stripped(a) == Stripped(b)
    ensures b != [] && a[0].discard == b[0].discard
  {
    assert Strip(a[0]) == Stripped(a)[0] == Strip(b[0]);
  }

  lemma {:induction false} MergeFlags(q: Queue, r: Rq, b: Bio, v: Verdict)
    requires r.bios != [] && (v == BackMergeFn(q, r, b) || v == FrontMergeFn(q, r, b))
    ensures v.rq.barrier == r.barrier
  {
  }

  // ---------------------------------------------------------------- two requests

  predicate Tail(r: Rq)
    requires r.bios != []
  {
    HasData(r.bios[|r.bios| - 1])
  }

  predicate Head(r: Rq)
    requires r.bios != []
  {
    HasData(r.bios[0])
  }

  /** In a request that may be merged, one bio tells whether there is data. */
  lemma {:induction false} AllOrNone(q: Queue, r: Rq)
    requires BoundRq(q, r) && Mergeable(r)
    ensures r.bios != [] && (Tail(r) <==> Head(r)) && (Dataless(r) <==> !Head(r)) && (Head(r) ==> SegRq(q, r))
  {
    assert r.bios[0] in r.bios && r.bios[|r.bios| - 1] in r.bios;
  }

  /** Two requests without data, merged or not. */
  lemma {:induction false} BothDataless(q: Queue, r: Rq, n: Rq)
    requires Dataless(r) && Dataless(n)
    ensures var j := AttemptMerge(q, r, n); j.Joint? ==> Dataless(j.rq) && (!j.ok ==> Dataless(j.next))
  {
    hide Sectors, MergeRequestsFn, Stripped, Strip, Homogeneous;
    assert r.bios != [] && n.bios != [] by { NotEmpty(r); NotEmpty(n); }
    var m := MergeRequestsFn(q, r, n);
    if m.Joint? {
      JointOnly(q, r, n);
      JointFlags(q, r, n);
      StillDataless(r, m.rq);
      StillDataless(n, m.next);
      HomogeneousJoin(m.rq.bios, m.next.bios);
      JoinedFirst(m.rq.bios, m.next.bios);
    }
  }

  lemma {:induction false} NotEmpty(r: Rq)
    requires Dataless(r)
    ensures r.bios != []
  {
  }

  lemma {:induction false} JoinedFirst(a: seq<Bio>, b: seq<Bio>)
    requires a != []
    ensures (a + b)[0] == a[0]
  {
  }

  /** No data in front of data, refused: the last size behind may grow, no more. */
  lemma {:induction false} DatalessFirst(q: Queue, r: Rq, n: Rq)
    requires Dataless(r) && SegRq(q, n) && !n.barrier && Head(n) && !Accepts(q, r, n)
    ensures var j := AttemptMerge(q, r, n); j.Joint? ==> Dataless(j.rq) && SegRq(q, j.next)
  {
    hide Sectors, SegOk, Homogeneous;
    NotEmpty(r);
    var size := r.bios[|r.bios| - 1].back + n.bios[0].front;
    var r1, n1 := r.(bios := WithFront(r.bios, size)), n.(bios := WithBack(n.bios, size));
    assert Stripped(r1.bios) == Stripped(r.bios) && Stripped(n1.bios) == Stripped(n.bios);
    StillDataless(r, r1);
    HomogeneousStripped(n.bios, n1.bios);
    if n.nr == 1 { SizesCover(q, n.bios, size); }
  }

  /** Data in front of no data, refused: nothing is written. */
  lemma {:induction false} DatalessSecond(q: Queue, r: Rq, n: Rq)
    requires r.bios != [] && n.bios != [] && Tail(r) && !Head(n) && !Accepts(q, r, n)
    ensures var j := AttemptMerge(q, r, n); j.Joint? ==> j.rq == r && j.next == n
  {
    hide Sectors;
  }

  /** An attempt that puts data beside no data only to be refused. */
  lemma {:induction false} AttemptBound(q: Queue, r: Rq, n: Rq)
    requires q.maxPhys < U16 && BoundRq(q, r) && BoundRq(q, n) && r.bios != [] && n.bios != []
    requires Accepts(q, r, n) ==> (Tail(r) <==> Head(n))
    ensures var j := AttemptMerge(q, r, n); j.Joint? ==> BoundRq(q, j.rq) && (!j.ok ==> BoundRq(q, j.next))
  {
    hide Sectors, SegRq, MergeRequestsFn;
    if Mergeable(r) && Mergeable(n) {
      AllOrNone(q, r);
      AllOrNone(q, n);
      if Tail(r) && Head(n) {
        AttemptSeg(q, r, n);
      } else if !Tail(r) && !Head(n) {
        BothDataless(q, r, n);
      } else if Tail(r) {
        DatalessSecond(q, r, n);
      } else {
        DatalessFirst(q, r, n);
      }
    }
  }

  // ---------------------------------------------------------------- runs

  ghost predicate BoundInv(q: Queue, st: State) { forall r :: r in st.rqs ==> BoundRq(q, r) }

  /** If the step does merge two requests, both carry data where they meet, or neither does. */
  ghost predicate LikeMeetsLike(q: Queue, st: State, s: Step)
    requires Enabled(q, st, s)
  {
    Offered(s) ==>
      var (a, b) := Pair(s);
      var v := Grown(q, st.rqs[s.i], s);
      v.ok ==>
        var rqs := st.rqs[s.i := v.rq];
        Accepts(q, rqs[a], rqs[b]) ==> (Tail(rqs[a]) <==> Head(rqs[b]))
  }

  lemma {:induction false} FlagBound(q: Queue, rqs: seq<Rq>, i: nat, on: bool)
    requires i < |rqs| && forall r :: r in rqs ==> BoundRq(q, r)
    ensures forall r :: r in rqs[i := rqs[i].(noMerge := on)] ==> BoundRq(q, r)
  {
    hide SegOk, Homogeneous;
    assert rqs[i] in rqs;
    assert BoundRq(q, rqs[i].(noMerge := on));
  }

  lemma {:induction false} OfferBound(q: Queue, rqs: seq<Rq>, a: nat, b: nat)
    requires q.maxPhys < U16 && a < |rqs| && b < |rqs| && a != b && (forall r :: r in rqs ==> BoundRq(q, r))
    requires rqs[a].bios != [] && rqs[b].bios != []
    requires Accepts(q, rqs[a], rqs[b]) ==> (Tail(rqs[a]) <==> Head(rqs[b]))
    ensures forall r :: r in Absorb(q, rqs, a, b) ==> BoundRq(q, r)
  {
    hide BoundRq, AttemptMerge, Accepts, Tail, Head;
    assert rqs[a] in rqs && rqs[b] in rqs;
    AttemptBound(q, rqs[a], rqs[b]);
    var j := AttemptMerge(q, rqs[a], rqs[b]);
    if j.Joint? { RemoveIn(rqs[a := j.rq], b); }
  }

  lemma {:induction false} StepKeepsBound(q: Queue, st: State, s: Step)
    requires q.maxPhys < U16 && BoundInv(q, st) && Enabled(q, st, s) && SoundBio(q, s) && LikeMeetsLike(q, st, s)
    ensures BoundInv(q, Apply(q, st, s))
  {
    hide SegRq, Dataless, Grown, Absorb, NewRq, Accepts;
    match s
    case Submit(b, barrier) => NewSeg(q, b, barrier);
    case Flag(i, on) => FlagBound(q, st.rqs, i, on);
    case Merge(_, _, _, _) =>
      var v := Grown(q, st.rqs[s.i], s);
      assert st.rqs[s.i] in st.rqs;
      GrownBound(q, st.rqs[s.i], s);
      if !v.ok {
        RefusedBio(q, st.rqs[s.i], s);
        NewSeg(q, v.bio, false);
      } else if Offered(s) {
        var rqs := st.rqs[s.i := v.rq];
        var (a, b) := Pair(s);
        OfferBound(q, rqs, a, b);
      }
  }

  /** Every step of a run has a sound bio, and like meets like. */
  ghost predicate Sound(q: Queue, st: State, steps: seq<Step>)
    requires Runs(q, st, steps)
    decreases |steps|
  {
    steps == []
    || (SoundBio(q, steps[0]) && LikeMeetsLike(q, st, steps[0]) && Sound(q, Apply(q, st, steps[0]), steps[1..]))
  }

  lemma {:induction false} RunKeepsBound(q: Queue, st: State, steps: seq<Step>)
    requires q.maxPhys < U16 && BoundInv(q, st) && Runs(q, st, steps) && Sound(q, st, steps)
    ensures BoundInv(q, Exec(q, st, steps))
    decreases |steps|
  {
    if steps != [] {
      StepKeepsBound(q, st, steps[0]);
      RunKeepsBound(q, Apply(q, st, steps[0]), steps[1..]);
    }
  }

  /** The scatterlist bound survives every such run: mapping a request needs no
      more entries than it counts segments, and merged requests with data stay
      within the limits of the hardware. */
  lemma {:induction false} ScatterBoundHolds(q: Queue, steps: seq<Step>)
    requires q.maxPhys < U16 && Runs(q, EMPTY, steps) && Sound(q, EMPTY, steps)
    ensures forall r :: r in Exec(q, EMPTY, steps).rqs ==>
              && |Greedy(q.seg, false, ChainVecs(r.bios))| <= r.nr
              && (|r.bios| > 1 && ChainVecs(r.bios) != [] ==> r.nr <= q.maxPhys && r.nr <= q.maxHw)
  {
    hide SegOk, Greedy, ChainVecs;
    RunKeepsBound(q, EMPTY, steps);
    forall r | r in Exec(q, EMPTY, steps).rqs
      ensures |Greedy(q.seg, false, ChainVecs(r.bios))| <= r.nr
      ensures |r.bios| > 1 && ChainVecs(r.bios) != [] ==> r.nr <= q.maxPhys && r.nr <= q.maxHw
    {
      if SegRq(q, r) {
        SegOkBounds(q, r.bios, r.nr);
      } else {
        AllEmpty(r.bios);
        NoVectors(q);
      }
    }
  }

  // ---------------------------------------------------------------- without clustering

  /** No vector joins another. */
  lemma {:induction false} EachAlone(q: Limits, counting: bool, vs: seq<Vec>)
    requires !q.cluster
    ensures |Greedy(q, counting, vs)| == |vs|
  {
    if vs != [] { EachAlone(q, counting, vs[..|vs| - 1]); }
  }

  lemma {:induction false} CutAlone(q: Limits, counting: bool, p: seq<seq<Vec>>, vs: seq<Vec>)
    requires !q.cluster && Cut(q, counting, p, vs)
    ensures |p| == |vs|
    decreases |p|
  {
    if p != [] {
      var g := p[|p| - 1];
      assert g in p && Solid(q, counting, g);
      assert |g| > 1 ==> Link(q, counting, g[0], g[1]);
      assert forall h :: h in p[..|p| - 1] ==> h in p;
      CutAlone(q, counting, p[..|p| - 1], Flat(p[..|p| - 1]));
    }
  }

  /** So a right count is the number of vectors. */
  ghost predicate ExactRq(q: Queue, r: Rq) {
    r.bios != [] && r.nr == |ChainVecs(r.bios)| && (|r.bios| > 1 ==> r.nr <= q.maxPhys && r.nr <= q.maxHw)
  }

  lemma {:induction false} RecountExact(q: Queue, b: Bio)
    requires !q.seg.cluster && BioOk(q, b)
    ensures Recount(q, b).segs == |b.vecs| && Recount(q, b).vecs == b.vecs
  {
    if b.valid {
      var p :| SegCut(q, [b], b.segs, p);
      ChainOne(b);
      CutAlone(q.seg, false, p, b.vecs);
    } else {
      EachAlone(q.seg, true, b.vecs);
    }
  }

  lemma {:induction false} NewExact(q: Queue, b: Bio, barrier: bool)
    requires !q.seg.cluster && BioOk(q, b)
    ensures ExactRq(q, NewRq(q, b, barrier))
  {
    hide Recount;
    RecountExact(q, b);
    ChainOne(Recount(q, b));
  }

  lemma {:induction false} GrownExact(q: Queue, r: Rq, s: Step)
    requires !q.seg.cluster && ExactRq(q, r) && s.Merge? && BioOk(q, s.bio)
    ensures var v := Grown(q, r, s); ExactRq(q, v.rq) && BioOk(q, v.bio)
  {
    hide Recount, Sectors, SegOk, ChainVecs;
    var c := Recount(q, s.bio);
    RecountExact(q, s.bio);
    RecountOk(q, s.bio);
    SameVecs(q, r.bios[0]);
    SameVecs(q, r.bios[|r.bios| - 1]);
    ChainUpdate(r.bios, 0, Recount(q, r.bios[0]));
    ChainUpdate(r.bios, |r.bios| - 1, Recount(q, r.bios[|r.bios| - 1]));
    ChainOne(c);
    ChainJoin(RecountAt(q, r.bios, |r.bios| - 1), [c]);
    ChainJoin([c], RecountAt(q, r.bios, 0));
  }

  lemma {:induction false} SameVecs(q: Queue, b: Bio)
    ensures Recount(q, b).vecs == b.vecs
  {
  }

  lemma {:induction false} AttemptExact(q: Queue, r: Rq, n: Rq)
    requires !q.seg.cluster && q.maxPhys < U16 && ExactRq(q, r) && ExactRq(q, n)
    ensures var j := AttemptMerge(q, r, n); j.Joint? && ExactRq(q, j.rq) && (!j.ok ==> ExactRq(q, j.next))
  {
    hide Sectors, ChainVecs;
    ChainJoin(r.bios, n.bios);
  }

  lemma {:induction false} StepKeepsExact(q: Queue, st: State, s: Step)
    requires !q.seg.cluster && q.maxPhys < U16 && (forall r :: r in st.rqs ==> ExactRq(q, r))
    requires Enabled(q, st, s) && (s.Flag? || BioOk(q, s.bio))
    ensures forall r :: r in Apply(q, st, s).rqs ==> ExactRq(q, r)
  {
    hide Grown, AttemptMerge, NewRq, ChainVecs;
    match s
    case Submit(b, barrier) => NewExact(q, b, barrier);
    case Flag(i, on) => assert st.rqs[i] in st.rqs;
    case Merge(_, _, _, _) =>
      var v := Grown(q, st.rqs[s.i], s);
      assert st.rqs[s.i] in st.rqs;
      GrownExact(q, st.rqs[s.i], s);
      if !v.ok {
        NewExact(q, v.bio, false);
      } else if Offered(s) {
        var rqs := st.rqs[s.i := v.rq];
        var (a, b) := Pair(s);
        assert rqs[a] in rqs && rqs[b] in rqs;
        AttemptExact(q, rqs[a], rqs[b]);
        RemoveIn(rqs[a := AttemptMerge(q, rqs[a], rqs[b]).rq], b);
      }
  }

  lemma {:induction false} RunKeepsExact(q: Queue, st: State, steps: seq<Step>)
    requires !q.seg.cluster && q.maxPhys < U16 && (forall r :: r in st.rqs ==> ExactRq(q, r)) && Runs(q, st, steps)
    requires forall s :: s in steps ==> s.Flag? || BioOk(q, s.bio)
    ensures forall r :: r in Exec(q, st, steps).rqs ==> ExactRq(q, r)
    decreases |steps|
  {
    if steps != [] {
      StepKeepsExact(q, st, steps[0]);
      RunKeepsExact(q, Apply(q, st, steps[0]), steps[1..]);
    }
  }

  /** On a queue that does not cluster the count is exact after every run of
      bios with right counts, whatever is merged with what. */
  lemma {:induction false} UnclusteredCountsExact(q: Queue, steps: seq<Step>)
    requires !q.seg.cluster && q.maxPhys < U16 && Runs(q, EMPTY, steps)
    requires forall s :: s in steps ==> s.Flag? || BioOk(q, s.bio)
    ensures forall r :: r in Exec(q, EMPTY, steps).rqs ==>
              && |Greedy(q.seg, false, ChainVecs(r.bios))| == r.nr
              && (|r.bios| > 1 ==> r.nr <= q.maxPhys && r.nr <= q.maxHw)
  {
    hide SegOk, Greedy;
    RunKeepsExact(q, EMPTY, steps);
    forall r | r in Exec(q, EMPTY, steps).rqs ensures |Greedy(q.seg, false, ChainVecs(r.bios))| == r.nr {
      EachAlone(q.seg, false, ChainVecs(r.bios));
    }
  }
}
