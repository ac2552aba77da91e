/** The segment count of a request stays an upper bound for its scatterlist. */
module MergeBound {
  import opened Segments
  import opened Merging

  /** p is a legal cut of the chain with nr segments, and the first and last
      bio remember enough about its first and last segment. */
  ghost predicate SegCut(q: Queue, bios: seq<Bio>, nr: nat, p: seq<seq<Vec>>) {
    && bios != [] && Cut(q.seg, false, p, ChainVecs(bios)) && |p| == nr
    && (p != [] ==> Total(p[0]) <= bios[0].front && Total(p[|p| - 1]) <= bios[|bios| - 1].back)
  }

  /** What a count has to mean: some legal cut has that many segments. */
  ghost predicate SegOk(q: Queue, bios: seq<Bio>, nr: nat) { exists p :: SegCut(q, bios, nr, p) }

  ghost predicate BioOk(q: Queue, b: Bio) { b.valid ==> SegOk(q, [b], b.segs) }

  /** The bound the driver relies on when it allocates its scatterlist. */
  lemma {:induction false} SegOkBounds(q: Queue, bios: seq<Bio>, nr: nat)
    requires SegOk(q, bios, nr)
    ensures |Greedy(q.seg, false, ChainVecs(bios))| <= nr
  {
    var p :| SegCut(q, bios, nr, p);
    ScatterBound(q.seg, false, ChainVecs(bios), p);
  }

  // ---------------------------------------------------------------- counting

  lemma {:induction false} ChainOne(b: Bio)
    ensures ChainVecs([b]) == b.vecs
  {
  }

  lemma {:induction false} RecountOk(q: Queue, b: Bio)
    requires BioOk(q, b)
    ensures var c := Recount(q, b);
            c.valid && SegOk(q, [c], c.segs) && c.vecs == b.vecs && c.front >= b.front && c.back >= b.back
  {
    if !b.valid {
      var p, c := Greedy(q.seg, true, b.vecs), Recount(q, b);
      GreedyCuts(q.seg, true, b.vecs);
      assert Cut(q.seg, false, p, b.vecs);
      ChainOne(c);
      assert SegCut(q, [c], c.segs, p);
    }
  }

  /** Chains with the same vectors whose ends remember no less. */
  predicate Covers(a: seq<Bio>, b: seq<Bio>) {
    && a != [] && b != [] && ChainVecs(a) == ChainVecs(b)
    && a[0].front <= b[0].front && a[|a| - 1].back <= b[|b| - 1].back
  }

  lemma {:induction false} CoversKeeps(q: Queue, a: seq<Bio>, b: seq<Bio>, nr: nat)
    requires SegOk(q, a, nr) && Covers(a, b)
    ensures SegOk(q, b, nr)
  {
    var p :| SegCut(q, a, nr, p);
    assert SegCut(q, b, nr, p);
  }

  lemma {:induction false} ChainUpdate(bios: seq<Bio>, i: nat, b: Bio)
    requires i < |bios| && b.vecs == bios[i].vecs
    ensures ChainVecs(bios[i := b]) == ChainVecs(bios)
    decreases |bios|
  {
    var n := |bios| - 1;
    if i < n {
      ChainUpdate(bios[..n], i, b);
      assert bios[i := b][..n] == bios[..n][i := b];
    } else {
      assert bios[i := b][..n] == bios[..n];
    }
  }

  lemma {:induction false} ChainJoin(a: seq<Bio>, b: seq<Bio>)
    ensures ChainVecs(a + b) == ChainVecs(a) + ChainVecs(b)
  {
    if b == [] {
      assert a + b == a;
    } else {
      var n := |b| - 1;
      ChainJoin(a, b[..n]);
      assert (a + b)[..|a + b| - 1] == a + b[..n];
      assert ChainVecs(a) + ChainVecs(b[..n]) + b[n].vecs == ChainVecs(a) + (ChainVecs(b[..n]) + b[n].vecs);
    }
  }

  lemma {:induction false} RecountAtOk(q: Queue, bios: seq<Bio>, i: nat, nr: nat)
    requires SegOk(q, bios, nr) && i < |bios|
    ensures SegOk(q, RecountAt(q, bios, i), nr)
  {
    if bios[i].valid {
      assert RecountAt(q, bios, i) == bios;
    } else {
      RecountOk(q, bios[i]);
      ChainUpdate(bios, i, Recount(q, bios[i]));
      CoversKeeps(q, bios, RecountAt(q, bios, i), nr);
    }
  }

  // ---------------------------------------------------------------- joining two chains

  lemma {:induction false} FlatJoin(a: seq<seq<Vec>>, b: seq<seq<Vec>>)
    ensures Flat(a + b) == Flat(a) + Flat(b)
  {
    if b == [] {
      assert a + b == a;
    } else {
      var n := |b| - 1;
      FlatJoin(a, b[..n]);
      assert (a + b)[..|a + b| - 1] == a + b[..n];
      assert Flat(a) + Flat(b[..n]) + b[n] == Flat(a) + (Flat(b[..n]) + b[n]);
    }
  }

  lemma {:induction false} TotalJoin(a: seq<Vec>, b: seq<Vec>)
    ensures Total(a + b) == Total(a) + Total(b)
  {
    if b == [] {
      assert a + b == a;
    } else {
      TotalJoin(a, b[..|b| - 1]);
      assert (a + b)[..|a + b| - 1] == a + b[..|b| - 1];
    }
  }

  lemma {:induction false} CutJoin(q: Queue, p: seq<seq<Vec>>, s: seq<Vec>, r: seq<seq<Vec>>, t: seq<Vec>)
    requires Cut(q.seg, false, p, s) && Cut(q.seg, false, r, t)
    ensures Cut(q.seg, false, p + r, s + t)
  {
    hide Solid;
    FlatJoin(p, r);
  }

  /** Segments side by side: the counts add up. */
  lemma {:induction false} JoinAdds(q: Queue, a: seq<Bio>, m: nat, b: seq<Bio>, n: nat)
    requires SegOk(q, a, m) && SegOk(q, b, n) && (m == 0 <==> n == 0)
    ensures SegOk(q, a + b, m + n)
  {
    var p :| SegCut(q, a, m, p);
    var r :| SegCut(q, b, n, r);
    CutJoin(q, p, ChainVecs(a), r, ChainVecs(b));
    ChainJoin(a, b);
    hide Cut, Total, ChainVecs;
    assert SegCut(q, a + b, m + n, p + r);
  }

  /** The cut in which the last segment of p and the first of r are one. */
  function Fused(p: seq<seq<Vec>>, r: seq<seq<Vec>>): seq<seq<Vec>>
    requires p != [] && r != []
  {
    p[..|p| - 1] + [p[|p| - 1] + r[0]] + r[1..]
  }

  lemma {:induction false} FlatHead(r: seq<seq<Vec>>)
    requires r != []
    ensures Flat(r) == r[0] + Flat(r[1..])
  {
    FlatOne([], r[0]);
    assert [] + [r[0]] == [r[0]] && Flat([r[0]]) == r[0];
    FlatJoin([r[0]], r[1..]);
    assert r == [r[0]] + r[1..];
  }

  lemma {:induction false} FusedFlat(p: seq<seq<Vec>>, r: seq<seq<Vec>>)
    requires p != [] && r != []
    ensures Flat(Fused(p, r)) == Flat(p) + Flat(r)
  {
    hide Flat;
    var h, g, k, t := p[..|p| - 1], p[|p| - 1], r[0], r[1..];
    FlatJoin(h + [g + k], t);
    FlatOne(h, g + k);
    FlatOne(h, g);
    assert p == h + [g];
    FlatHead(r);
    assert Flat(h) + (g + k) + Flat(t) == Flat(h) + g + (k + Flat(t));
  }

  lemma {:induction false} FlatEnds(p: seq<seq<Vec>>)
    requires p != [] && forall g :: g in p ==> g != []
    ensures p[0] != [] && p[|p| - 1] != [] && Flat(p) != [] && Flat(p)[0] == p[0][0]
            && Flat(p)[|Flat(p)| - 1] == p[|p| - 1][|p[|p| - 1]| - 1]
  {
    var h := p[..|p| - 1];
    assert p[|p| - 1] in p && p[0] in p;
    if h != [] {
      assert forall g :: g in h ==> g in p;
      FlatEnds(h);
    } else {
      assert Flat(h) == [];
    }
  }

  lemma {:induction false} FusedSolid(q: Queue, g: seq<Vec>, k: seq<Vec>)
    requires Solid(q.seg, false, g) && Solid(q.seg, false, k) && Total(g) + Total(k) <= q.seg.maxSegment
    requires Link(q.seg, false, g[|g| - 1], k[0])
    ensures Solid(q.seg, false, g + k)
  {
    TotalJoin(g, k);
  }

  /** The "minus one" case: the end of one request and the start of the next
      share a segment. */
  lemma {:induction false} JoinFuses(q: Queue, a: seq<Bio>, m: nat, p: seq<seq<Vec>>, b: seq<Bio>, n: nat,
                                     r: seq<seq<Vec>>)
    requires SegCut(q, a, m, p) && SegCut(q, b, n, r) && p != [] && r != []
    requires a[|a| - 1].back + b[0].front <= q.seg.maxSegment
    requires var s, t := ChainVecs(a), ChainVecs(b); s != [] && t != [] && Link(q.seg, false, s[|s| - 1], t[0])
    ensures Cut(q.seg, false, Fused(p, r), ChainVecs(a + b)) && |Fused(p, r)| == m + n - 1
    ensures Total(p[|p| - 1] + r[0]) <= a[|a| - 1].back + b[0].front
  {
    assert p[|p| - 1] in p && r[0] in r;
    FlatEnds(p);
    FlatEnds(r);
    FusedSolid(q, p[|p| - 1], r[0]);
    hide Flat, ChainVecs, Total, Solid;
    ChainJoin(a, b);
    FusedFlat(p, r);
    TotalJoin(p[|p| - 1], r[0]);
    forall g | g in Fused(p, r) ensures Solid(q.seg, false, g) {
      if g != p[|p| - 1] + r[0] {
        assert g in p || g in r;
      }
    }
  }

  // ---------------------------------------------------------------- the three merges

  /** Either every bio carries data or none does; the flag agrees. */
  predicate Homogeneous(bios: seq<Bio>) {
    bios != [] && forall b :: b in bios ==> b.discard == bios[0].discard && (b.vecs == [] <==> b.discard)
  }

  lemma {:induction false} NoVecsNoCut(q: Queue, bios: seq<Bio>, nr: nat)
    requires Homogeneous(bios) && SegOk(q, bios, nr)
    ensures nr == 0 <==> bios[0].discard
    ensures ChainVecs(bios) == [] <==> bios[0].discard
  {
    var p :| SegCut(q, bios, nr, p);
    var n := |bios| - 1;
    assert bios[n] in bios && bios[0] in bios;
    if bios[0].discard {
      AllEmpty(bios);
    }
    if p != [] {
      assert p[0] in p;
      assert forall g :: g in p ==> Solid(q.seg, false, g);
      FlatEnds(p);
    }
  }

  lemma {:induction false} AllEmpty(bios: seq<Bio>)
    requires forall b :: b in bios ==> b.vecs == []
    ensures ChainVecs(bios) == []
  {
    if bios != [] {
      assert bios[|bios| - 1] in bios;
      assert forall b :: b in bios[..|bios| - 1] ==> b in bios;
      AllEmpty(bios[..|bios| - 1]);
    }
  }

  /** A back merge keeps the count meaningful, whether it is accepted or not. */
  lemma {:induction false} BackMergeKeeps(q: Queue, r: Rq, b: Bio)
    requires Homogeneous(r.bios + [b]) && r.bios != [] && SegOk(q, r.bios, r.nr) && BioOk(q, b)
    ensures var v := BackMergeFn(q, r, b);
            SegOk(q, if v.ok then AddBack(v.rq, v.bio).bios else v.rq.bios, v.rq.nr)
  {
    hide SegOk, BioOk, Recount, Sectors;
    var v := BackMergeFn(q, r, b);
    if Sectors(r.dataLen) + Sectors(b.size) <= q.maxSectors {
      var bios, c := RecountAt(q, r.bios, |r.bios| - 1), Recount(q, b);
      RecountAtOk(q, r.bios, |r.bios| - 1, r.nr);
      RecountOk(q, b);
      SameSign(q, r.bios, r.nr, b);
      if v.ok {
        JoinAdds(q, bios, r.nr, [c], c.segs);
      }
    }
  }

  /** Data and counts go together, before and after recounting. */
  lemma {:induction false} SameSign(q: Queue, bios: seq<Bio>, nr: nat, b: Bio)
    requires bios != [] && Homogeneous(bios + [b]) && SegOk(q, bios, nr)
             && SegOk(q, [Recount(q, b)], Recount(q, b).segs)
    ensures nr == 0 <==> Recount(q, b).segs == 0
  {
    var all := bios + [b];
    assert all[0] == bios[0] && b in all;
    assert forall x :: x in bios ==> x in all;
    NoVecsNoCut(q, bios, nr);
    NoVecsNoCut(q, [Recount(q, b)], Recount(q, b).segs);
  }

  lemma {:induction false} FrontMergeKeeps(q: Queue, r: Rq, b: Bio)
    requires Homogeneous(r.bios + [b]) && r.bios != [] && SegOk(q, r.bios, r.nr) && BioOk(q, b)
    ensures var v := FrontMergeFn(q, r, b);
            SegOk(q, if v.ok then AddFront(v.rq, v.bio).bios else v.rq.bios, v.rq.nr)
  {
    hide SegOk, BioOk, Recount, Sectors;
    var v := FrontMergeFn(q, r, b);
    if Sectors(r.dataLen) + Sectors(b.size) <= q.maxSectors {
      var bios, c := RecountAt(q, r.bios, 0), Recount(q, b);
      RecountAtOk(q, r.bios, 0, r.nr);
      RecountOk(q, b);
      SameSign(q, r.bios, r.nr, b);
      if v.ok {
        JoinAdds(q, [c], c.segs, bios, r.nr);
      }
    }
  }

  lemma {:induction false} ChainEnds(bios: seq<Bio>)
    requires bios != []
    ensures bios[0].vecs != [] ==> ChainVecs(bios) != [] && ChainVecs(bios)[0] == bios[0].vecs[0]
    ensures var t := bios[|bios| - 1].vecs;
            t != [] ==> ChainVecs(bios) != [] && ChainVecs(bios)[|ChainVecs(bios)| - 1] == t[|t| - 1]
  {
    if |bios| > 1 {
      ChainEnds(bios[..|bios| - 1]);
    } else {
      assert bios == [bios[0]];
      ChainOne(bios[0]);
    }
  }

  /** A segment that is first and last fits what the last bio remembers, so
      larger sizes may be written before the merge is decided. */
  lemma {:induction false} SizesCover(q: Queue, bios: seq<Bio>, size: nat)
    requires SegOk(q, bios, 1)
    ensures size >= bios[|bios| - 1].back ==> SegOk(q, WithFront(bios, size), 1)
    ensures size >= bios[0].front ==> SegOk(q, WithBack(bios, size), 1)
  {
    hide Cut, Total, ChainVecs;
    var p :| SegCut(q, bios, 1, p);
    ChainUpdate(bios, 0, bios[0].(front := size));
    ChainUpdate(bios, |bios| - 1, bios[|bios| - 1].(back := size));
    if size >= bios[|bios| - 1].back {
      assert SegCut(q, WithFront(bios, size), 1, p);
    }
    if size >= bios[0].front {
      assert SegCut(q, WithBack(bios, size), 1, p);
    }
  }

  /** The joined chain after the "minus one" case, sizes included. */
  lemma {:induction false} FusedOk(q: Queue, a: seq<Bio>, m: nat, b: seq<Bio>, n: nat)
    requires SegOk(q, a, m) && SegOk(q, b, n) && a[|a| - 1].vecs != [] && b[0].vecs != []
    requires PhysContig(q, a[|a| - 1], b[0]) == Contig(true)
    ensures var size := a[|a| - 1].back + b[0].front;
            && m > 0 && n > 0
            && SegOk(q, (if m == 1 then WithFront(a, size) else a) +
                     (if n == 1 then WithBack(b, size) else b), m + n - 1)
  {
    hide Total, ChainVecs, Flat, Solid, Fused;
    var size := a[|a| - 1].back + b[0].front;
    var a1, b1 := if m == 1 then WithFront(a, size) else a, if n == 1 then WithBack(b, size) else b;
    var p :| SegCut(q, a, m, p);
    var k :| SegCut(q, b, n, k);
    ChainEnds(a);
    ChainEnds(b);
    NotEmpty(p);
    NotEmpty(k);
    JoinFuses(q, a, m, p, b, n, k);
    ChainUpdate(a, 0, a[0].(front := size));
    ChainUpdate(b, |b| - 1, b[|b| - 1].(back := size));
    ChainJoin(a, b);
    ChainJoin(a1, b1);
    FusedSizes(p, k);
    assert SegCut(q, a1 + b1, m + n - 1, Fused(p, k));
  }

  lemma {:induction false} NotEmpty(p: seq<seq<Vec>>)
    requires Flat(p) != []
    ensures p != []
  {
  }

  lemma {:induction false} FusedSizes(p: seq<seq<Vec>>, r: seq<seq<Vec>>)
    requires p != [] && r != []
    ensures var f := Fused(p, r);
            && f[0] == (if |p| == 1 then p[0] + r[0] else p[0])
            && f[|f| - 1] == (if |r| == 1 then p[|p| - 1] + r[0] else r[|r| - 1])
  {
  }

  /** A request merge of data with data keeps the counts of both requests
      meaningful, whether it goes through or not. */
  lemma {:induction false} AttemptMergeKeeps(q: Queue, r: Rq, n: Rq)
    requires q.maxPhys < U16 && r.bios != [] && n.bios != []
    requires SegOk(q, r.bios, r.nr) && SegOk(q, n.bios, n.nr) && r.bios[|r.bios| - 1].vecs != [] && n.bios[0].vecs != []
    ensures var j := AttemptMerge(q, r, n);
            j.Joint? && SegOk(q, j.rq.bios, j.rq.nr) && SegOk(q, j.next.bios, j.next.nr)
            && (j.ok ==> j.rq.nr <= q.maxPhys && j.rq.nr <= q.maxHw)
  {
    hide SegOk, Sectors, Link;
    var size := r.bios[|r.bios| - 1].back + n.bios[0].front;
    if r.nr == 1 {
      SizesCover(q, r.bios, size);
    }
    if n.nr == 1 {
      SizesCover(q, n.bios, size);
    }
    if PhysContig(q, r.bios[|r.bios| - 1], n.bios[0]).yes {
      FusedOk(q, r.bios, r.nr, n.bios, n.nr);
    } else {
      Counted(q, r.bios, r.nr);
      Counted(q, n.bios, n.nr);
      JoinAdds(q, r.bios, r.nr, n.bios, n.nr);
    }
  }

  /** A chain with data at either end has a segment. */
  lemma {:induction false} Counted(q: Queue, bios: seq<Bio>, nr: nat)
    requires SegOk(q, bios, nr) && bios != [] && (bios[0].vecs != [] || bios[|bios| - 1].vecs != [])
    ensures nr > 0
  {
    var p :| SegCut(q, bios, nr, p);
    ChainEnds(bios);
    NotEmpty(p);
  }

  // ---------------------------------------------------------------- where the count goes wrong

  /** A request whose bios carry no data, in front of one with data: the code
      takes the first for contiguous with anything.  The count is then right
      if and only if the second count had a segment to spare. */
  lemma {:induction false} DatalessMerge(q: Queue, r: Rq, n: Rq)
    requires q.maxPhys < U16 && r.bios != [] && n.bios != [] && ChainVecs(r.bios) == [] && r.nr == 0 && n.nr > 0
    requires q.seg.cluster && r.bios[|r.bios| - 1].back + n.bios[0].front <= q.seg.maxSegment
    requires AttemptMerge(q, r, n).Joint? && AttemptMerge(q, r, n).ok
    ensures var j := AttemptMerge(q, r, n);
            (|Greedy(q.seg, false, ChainVecs(j.rq.bios))| <= j.rq.nr <==>
             |Greedy(q.seg, false, ChainVecs(n.bios))| < n.nr)
  {
    hide Greedy, ChainVecs, Sectors;
    var j := AttemptMerge(q, r, n);
    ChainEnds(r.bios);
    assert PhysContig(q, r.bios[|r.bios| - 1], n.bios[0]) == Contig(true);
    var size := r.bios[|r.bios| - 1].back + n.bios[0].front;
    ChainUpdate(n.bios, |n.bios| - 1, n.bios[|n.bios| - 1].(back := size));
    ChainJoin(r.bios, j.next.bios);
    assert [] + ChainVecs(n.bios) == ChainVecs(n.bios);
  }

  /** blk_phys_contig_segment reads the first vector of a bio that has none in
      exactly these cases. */
  lemma {:induction false} FaultsIff(q: Queue, r: Rq, n: Rq)
    requires r.bios != [] && n.bios != []
    ensures AttemptMerge(q, r, n).Faults? <==> ReadsMissing(q, r, n)
  {
  }

  /** And two discards wrap the 16-bit count. */
  lemma {:induction false} DiscardsWrap(q: Queue, r: Rq, n: Rq)
    requires q.seg.cluster && r.bios != [] && n.bios != [] && ChainVecs(r.bios) == [] && r.nr == 0 && n.nr == 0
    requires r.bios[|r.bios| - 1].back + n.bios[0].front <= q.seg.maxSegment
    requires AttemptMerge(q, r, n).Joint? && AttemptMerge(q, r, n).ok
    ensures AttemptMerge(q, r, n).rq.nr == 65535
  {
  }
}
