/**
 Physical segments: how the vectors of a bio chain are grouped, and why no
 grouping is smaller than the one blk_rq_map_sg builds.

 Pages are addressed physically.  Whether an architecture and a queue let two
 adjacent vectors share a segment (BIOVEC_PHYS_MERGEABLE and
 BIOVEC_SEG_BOUNDARY) is a predicate of the queue; that mergeable vectors are
 contiguous in memory is part of Link.
 */
module Segments {

  datatype Vec = Vec(addr: nat, len: nat)

  datatype Limits = Limits(cluster: bool, maxSegment: nat, high: Vec -> bool, together: (Vec, Vec) -> bool)

  /** Two vectors that may share a segment; when counting, a page that would
      be bounced shares with nobody. */
  predicate Link(q: Limits, counting: bool, v: Vec, w: Vec) {
    q.cluster && v.addr + v.len == w.addr && q.together(v, w) && (counting ==> !q.high(v) && !q.high(w))
  }

  function Total(g: seq<Vec>): nat { if g == [] then 0 else Total(g[..|g| - 1]) + g[|g| - 1].len }

  /** What one segment may hold: a single vector, or linked vectors within the size limit. */
  predicate Solid(q: Limits, counting: bool, g: seq<Vec>) {
    && |g| > 0
    && (|g| > 1 ==> Total(g) <= q.maxSegment)
    && forall i :: 0 <= i < |g| - 1 ==> Link(q, counting, g[i], g[i + 1])
  }

  function Flat(p: seq<seq<Vec>>): seq<Vec> { if p == [] then [] else Flat(p[..|p| - 1]) + p[|p| - 1] }

  /** A legal way to cut vs into segments. */
  predicate Cut(q: Limits, counting: bool, p: seq<seq<Vec>>, vs: seq<Vec>) {
    Flat(p) == vs && forall g :: g in p ==> Solid(q, counting, g)
  }

  /** The cut both loops compute: a vector joins the last segment when it can. */
  predicate Joins(q: Limits, counting: bool, g: seq<Vec>, v: Vec) {
    |g| > 0 && Total(g) + v.len <= q.maxSegment && Link(q, counting, g[|g| - 1], v)
  }

  function Put(q: Limits, counting: bool, p: seq<seq<Vec>>, v: Vec): (r: seq<seq<Vec>>)
    ensures r != []
  {
    if p != [] && Joins(q, counting, p[|p| - 1], v)
    then p[..|p| - 1] + [p[|p| - 1] + [v]]
    else p + [[v]]
  }

  function Greedy(q: Limits, counting: bool, vs: seq<Vec>): seq<seq<Vec>> {
    if vs == [] then [] else Put(q, counting, Greedy(q, counting, vs[..|vs| - 1]), vs[|vs| - 1])
  }

  // ---------------------------------------------------------------- cuts

  lemma {:induction false} FlatOne(p: seq<seq<Vec>>, g: seq<Vec>)
    ensures Flat(p + [g]) == Flat(p) + g
  {
  }

  lemma {:induction false} TotalOne(g: seq<Vec>, v: Vec)
    ensures Total(g + [v]) == Total(g) + v.len
  {
  }

  lemma {:induction false} PutCuts(q: Limits, counting: bool, p: seq<seq<Vec>>, vs: seq<Vec>, v: Vec)
    requires Cut(q, counting, p, vs)
    ensures Cut(q, counting, Put(q, counting, p, v), vs + [v])
  {
    if p != [] && Joins(q, counting, p[|p| - 1], v) {
      var h, g := p[..|p| - 1], p[|p| - 1];
      assert g in p;
      TotalOne(g, v);
      FlatOne(h, g + [v]);
      assert Solid(q, counting, g + [v]);
      assert Flat(h) + g + [v] == Flat(h) + (g + [v]);
    } else {
      FlatOne(p, [v]);
    }
  }

  lemma {:induction false} GreedyCuts(q: Limits, counting: bool, vs: seq<Vec>)
    ensures Cut(q, counting, Greedy(q, counting, vs), vs)
  {
    if vs != [] {
      GreedyCuts(q, counting, vs[..|vs| - 1]);
      PutCuts(q, counting, Greedy(q, counting, vs[..|vs| - 1]), vs[..|vs| - 1], vs[|vs| - 1]);
      assert vs == vs[..|vs| - 1] + [vs[|vs| - 1]];
    }
  }

  /** A shorter piece of the end holds less. */
  lemma {:induction false} SuffixTotal(vs: seq<Vec>, i: nat, j: nat)
    requires i <= j <= |vs|
    ensures Total(vs[j..]) <= Total(vs[i..])
  {
    if j < |vs| {
      var n := |vs| - 1;
      SuffixTotal(vs[..n], i, j);
      assert vs[i..][..|vs[i..]| - 1] == vs[..n][i..];
      assert vs[j..][..|vs[j..]| - 1] == vs[..n][j..];
    }
  }

  /** Dropping the last vector of a cut. */
  function Shorter(p: seq<seq<Vec>>): seq<seq<Vec>>
    requires p != []
  {
    var g := p[|p| - 1];
    if |g| <= 1 then p[..|p| - 1] else p[..|p| - 1] + [g[..|g| - 1]]
  }

  lemma {:induction false} ShorterCuts(q: Limits, counting: bool, p: seq<seq<Vec>>, vs: seq<Vec>)
    requires vs != [] && Cut(q, counting, p, vs)
    ensures p != [] && Cut(q, counting, Shorter(p), vs[..|vs| - 1])
    ensures var g := p[|p| - 1]; 0 < |g| <= |vs| && vs[|vs| - |g|..] == g && Solid(q, counting, g)
  {
    var h, g := p[..|p| - 1], p[|p| - 1];
    assert g in p;
    assert vs == Flat(h) + g;
    if |g| > 1 {
      FlatOne(h, g[..|g| - 1]);
      assert Flat(h) + g[..|g| - 1] == vs[..|vs| - 1];
      assert Solid(q, counting, g[..|g| - 1]);
    } else {
      assert Flat(h) == vs[..|vs| - 1];
    }
  }

  /** Greedy is best: it never uses more segments than another cut, and when
      it uses as many its last segment is no longer. */
  lemma {:induction false} GreedyBest(q: Limits, counting: bool, vs: seq<Vec>, p: seq<seq<Vec>>)
    requires Cut(q, counting, p, vs)
    ensures var b := Greedy(q, counting, vs);
            |b| < |p| || (|b| == |p| && (vs == [] || (b != [] && |b[|b| - 1]| <= |p[|p| - 1]|)))
  {
    if vs == [] {
      return;
    }
    hide Joins, Link, Solid, Put, Flat, Total, Cut;
    var ws, v := vs[..|vs| - 1], vs[|vs| - 1];
    ShorterCuts(q, counting, p, vs);
    GreedyBest(q, counting, ws, Shorter(p));
    GreedyCuts(q, counting, ws);
    var b, g := Greedy(q, counting, ws), p[|p| - 1];
    if |g| > 1 && |b| == |p| {
      ShorterCuts(q, counting, b, ws);
      MustJoin(q, counting, vs, b[|b| - 1], g);
    }
    PutSizes(q, counting, b, v);
  }

  lemma {:induction false} PutSizes(q: Limits, counting: bool, p: seq<seq<Vec>>, v: Vec)
    ensures var r := Put(q, counting, p, v);
            if p != [] && Joins(q, counting, p[|p| - 1], v)
            then |r| == |p| && |r[|r| - 1]| == |p[|p| - 1]| + 1
            else |r| == |p| + 1 && |r[|r| - 1]| == 1
  {
  }

  /** The last segment of the best cut is an end piece of a legal segment, so
      the next vector of that segment joins it. */
  lemma {:induction false} MustJoin(q: Limits, counting: bool, vs: seq<Vec>, mine: seq<Vec>, g: seq<Vec>)
    requires 1 < |g| <= |vs| && vs[|vs| - |g|..] == g && Solid(q, counting, g)
    requires var ws := vs[..|vs| - 1]; 0 < |mine| < |g| && ws[|ws| - |mine|..] == mine
    ensures Joins(q, counting, mine, vs[|vs| - 1])
  {
    var v := vs[|vs| - 1];
    SuffixTotal(g, 0, |g| - |mine| - 1);
    assert g[0..] == g;
    assert g[|g| - |mine| - 1..] == mine + [v];
    TotalOne(mine, v);
    assert Link(q, counting, g[|g| - 2], g[|g| - 1]);
  }

  /** The scatterlist bound: mapping never needs more entries than any legal
      cut has segments, counting or not. */
  lemma {:induction false} ScatterBound(q: Limits, counting: bool, vs: seq<Vec>, p: seq<seq<Vec>>)
    requires Cut(q, counting, p, vs)
    ensures |Greedy(q, false, vs)| <= |p|
  {
    assert Cut(q, false, p, vs);
    GreedyBest(q, false, vs, p);
  }

  /** In particular, never more than were counted. */
  lemma {:induction false} MapWithinCount(q: Limits, vs: seq<Vec>)
    ensures |Greedy(q, false, vs)| <= |Greedy(q, true, vs)|
  {
    GreedyCuts(q, true, vs);
    ScatterBound(q, true, vs, Greedy(q, true, vs));
  }

  lemma {:induction false} GreedyGrows(q: Limits, counting: bool, vs: seq<Vec>, i: nat)
    requires i <= |vs|
    ensures |Greedy(q, counting, vs[..i])| <= |Greedy(q, counting, vs)|
    decreases |vs|
  {
    if i < |vs| {
      GreedyGrows(q, counting, vs[..|vs| - 1], i);
      assert vs[..|vs| - 1][..i] == vs[..i];
    } else {
      assert vs[..i] == vs;
    }
  }

  // ---------------------------------------------------------------- bytes

  datatype Sg = Sg(addr: nat, len: nat)

  /** The addresses a, a + 1, ..., a + n - 1. */
  function Range(a: nat, n: nat): seq<nat> { seq(n, (i: nat) => a + i) }

  function VecBytes(vs: seq<Vec>): seq<nat> {
    if vs == [] then [] else VecBytes(vs[..|vs| - 1]) + Range(vs[|vs| - 1].addr, vs[|vs| - 1].len)
  }

  function SgBytes(es: seq<Sg>): seq<nat> {
    if es == [] then [] else SgBytes(es[..|es| - 1]) + Range(es[|es| - 1].addr, es[|es| - 1].len)
  }

  function Entry(g: seq<Vec>): Sg { Sg(if g == [] then 0 else g[0].addr, Total(g)) }

  function Entries(p: seq<seq<Vec>>): (es: seq<Sg>)
    ensures |es| == |p| && forall i :: 0 <= i < |p| ==> es[i] == Entry(p[i])
  {
    if p == [] then [] else Entries(p[..|p| - 1]) + [Entry(p[|p| - 1])]
  }

  lemma {:induction false} RangeJoin(a: nat, m: nat, n: nat)
    ensures Range(a, m) + Range(a + m, n) == Range(a, m + n)
  {
  }

  /** A segment is one physical run. */
  lemma {:induction false} SolidIsOneRun(q: Limits, counting: bool, g: seq<Vec>)
    requires Solid(q, counting, g)
    ensures VecBytes(g) == Range(g[0].addr, Total(g))
    ensures g[|g| - 1].addr + g[|g| - 1].len == g[0].addr + Total(g)
  {
    var h, v := g[..|g| - 1], g[|g| - 1];
    if h == [] {
      assert g == [v];
      assert Total(g) == v.len;
      assert VecBytes(g) == Range(v.addr, v.len);
    } else {
      SolidIsOneRun(q, counting, h);
      assert Link(q, counting, g[|g| - 2], v);
      RangeJoin(g[0].addr, Total(h), v.len);
    }
  }

  lemma {:induction false} BytesJoin(a: seq<Vec>, b: seq<Vec>)
    ensures VecBytes(a + b) == VecBytes(a) + VecBytes(b)
  {
    if b == [] {
      assert a + b == a;
    } else {
      var n := |b| - 1;
      BytesJoin(a, b[..n]);
      assert (a + b)[..|a + b| - 1] == a + b[..n];
      assert VecBytes(a) + VecBytes(b[..n]) + Range(b[n].addr, b[n].len) ==
               VecBytes(a) + (VecBytes(b[..n]) + Range(b[n].addr, b[n].len));
    }
  }

  /** The entries of any legal cut cover the bytes of the vectors, in order. */
  lemma {:induction false} EntriesCover(q: Limits, counting: bool, p: seq<seq<Vec>>, vs: seq<Vec>)
    requires Cut(q, counting, p, vs)
    ensures SgBytes(Entries(p)) == VecBytes(vs)
  {
    if p != [] {
      var h, g := p[..|p| - 1], p[|p| - 1];
      assert g in p;
      EntriesCover(q, counting, h, Flat(h));
      SolidIsOneRun(q, counting, g);
      BytesJoin(Flat(h), g);
      assert Entries(p)[..|p| - 1] == Entries(h);
    }
  }

  /** What a driver gets from blk_rq_map_sg. */
  lemma {:induction false} MappedBytes(q: Limits, vs: seq<Vec>)
    ensures forall g :: g in Greedy(q, false, vs) ==> Solid(q, false, g)
    ensures SgBytes(Entries(Greedy(q, false, vs))) == VecBytes(vs)
  {
    GreedyCuts(q, false, vs);
    EntriesCover(q, false, Greedy(q, false, vs), vs);
  }

  // ---------------------------------------------------------------- bios

  /** What has to agree for any merge.  A discard has no write bit, so its
      direction is that of a read. */
  datatype Kind = Kind(write: bool, disk: nat, integrity: bool, failfast: nat)

  /** A bio: what it carries, and what the merge code remembers about its segments. */
  datatype Bio = Bio(id: nat, kind: Kind, sector: nat, size: nat, vecs: seq<Vec>, discard: bool,
                     valid: bool, segs: nat, front: nat, back: nat)

  function ChainVecs(bios: seq<Bio>): seq<Vec> {
    if bios == [] then [] else ChainVecs(bios[..|bios| - 1]) + bios[|bios| - 1].vecs
  }

  function Max(a: nat, b: nat): nat { if a < b then b else a }

  function RaiseFront(bios: seq<Bio>, n: nat): seq<Bio>
    requires bios != []
  {
    bios[0 := bios[0].(front := Max(bios[0].front, n))]
  }

  function RaiseBack(bios: seq<Bio>, n: nat): seq<Bio>
    requires bios != []
  {
    bios[|bios| - 1 := bios[|bios| - 1].(back := Max(bios[|bios| - 1].back, n))]
  }

  /** The sizes of the first and the last segment are kept in the first and the last bio. */
  function Sized(bios: seq<Bio>, p: seq<seq<Vec>>): seq<Bio>
    requires bios != []
  {
    if p == [] then bios else RaiseBack(RaiseFront(bios, Total(p[0])), Total(p[|p| - 1]))
  }

  /** The loop state of the counting loop, after the vectors vs. */
  ghost predicate Counted(q: Limits, vs: seq<Vec>, f0: nat, n: nat, segSize: nat, prev: Vec, highPrev: bool,
                          front: nat) {
    var p := Greedy(q, true, vs);
    && n == |p|
    && (n == 0 ==> vs == [] && highPrev && segSize == 0)
    && (n > 0 ==> vs != [] && prev == vs[|vs| - 1] && highPrev == q.high(prev) && segSize == Total(p[n - 1]))
    && front == if n > 1 then Max(f0, Total(p[0])) else f0
  }

  lemma {:induction false} LastOfGreedy(q: Limits, counting: bool, vs: seq<Vec>)
    requires vs != []
    ensures var p := Greedy(q, counting, vs);
            p != [] && p[|p| - 1] != [] && p[|p| - 1][|p[|p| - 1]| - 1] == vs[|vs| - 1]
  {
  }

  /** One vector of the counting loop. */
  method CountVec(q: Limits, v: Vec, ghost vs: seq<Vec>, ghost f0: nat, n: nat, segSize: nat, prev: Vec,
                  highPrev: bool, front: nat)
    returns (n': nat, segSize': nat, prev': Vec, highPrev': bool, front': nat)
    requires Counted(q, vs, f0, n, segSize, prev, highPrev, front)
    ensures Counted(q, vs + [v], f0, n', segSize', prev', highPrev', front')
  {
    ghost var p := Greedy(q, true, vs);
    assert (vs + [v])[..|vs|] == vs;
    assert Greedy(q, true, vs + [v]) == Put(q, true, p, v);
    if vs != [] {
      LastOfGreedy(q, true, vs);
      TotalOne(p[n - 1], v);
    }
    TotalOne([], v);
    assert [] + [v] == [v];
    n', segSize', prev', highPrev', front' := n, segSize, prev, highPrev, front;
    var high := q.high(v);
    if !high && !highPrev && q.cluster && segSize + v.len <= q.maxSegment
       && prev.addr + prev.len == v.addr && q.together(prev, v) {
      segSize' := segSize + v.len;
      prev' := v;
    } else {
      if n == 1 && segSize > front {
        front' := segSize;
      }
      n' := n + 1;
      prev' := v;
      segSize' := v.len;
      highPrev' := high;
    }
  }

  lemma {:induction false} CountStart(q: Limits, f0: nat)
    ensures Counted(q, [], f0, 0, 0, Vec(0, 0), true, f0)
  {
  }

  /** The sizes written after the loop. */
  lemma {:induction false} CountEnd(q: Limits, bios: seq<Bio>, n: nat, segSize: nat, prev: Vec, highPrev: bool,
                                    front: nat)
    requires bios != [] && Counted(q, ChainVecs(bios), bios[0].front, n, segSize, prev, highPrev, front)
    ensures n == |Greedy(q, true, ChainVecs(bios))|
    ensures var last := |bios| - 1;
            var out := bios[0 := bios[0].(front := if n == 1 && segSize > front then segSize else front)];
            Sized(bios, Greedy(q, true, ChainVecs(bios))) ==
            if segSize > out[last].back then out[last := out[last].(back := segSize)] else out
  {
    hide Greedy;
    if n == 0 {
      assert bios == bios[0 := bios[0].(front := front)];
    }
  }

  /** The vectors of one bio. */
  method CountBio(q: Limits, vecs: seq<Vec>, ghost before: seq<Vec>, ghost f0: nat, n: nat, segSize: nat, prev: Vec,
                  highPrev: bool, front: nat)
    returns (n': nat, segSize': nat, prev': Vec, highPrev': bool, front': nat)
    requires Counted(q, before, f0, n, segSize, prev, highPrev, front)
    ensures Counted(q, before + vecs, f0, n', segSize', prev', highPrev', front')
  {
    hide Counted;
    n', segSize', prev', highPrev', front' := n, segSize, prev, highPrev, front;
    assert before + vecs[..0] == before;
    for j := 0 to |vecs|
      invariant Counted(q, before + vecs[..j], f0, n', segSize', prev', highPrev', front')
    {
      n', segSize', prev', highPrev', front' := CountVec(q, vecs[j], before + vecs[..j], f0, n', segSize', prev',
                                                         highPrev', front');
      assert before + vecs[..j] + [vecs[j]] == before + vecs[..j + 1];
    }
    assert vecs[..|vecs|] == vecs;
  }

  /** __blk_recalc_rq_segments. */
  method RecalcSegments(q: Limits, bios: seq<Bio>) returns (n: nat, out: seq<Bio>)
    ensures n == |Greedy(q, true, ChainVecs(bios))|
    ensures out == if bios == [] then [] else Sized(bios, Greedy(q, true, ChainVecs(bios)))
  {
    if bios == [] {
      return 0, [];
    }
    hide Counted, Greedy, Sized;
    var segSize: nat, highPrev, prev := 0, true, Vec(0, 0);
    var front: nat := bios[0].front;
    n := 0;
    CountStart(q, front);
    for i := 0 to |bios|
      invariant Counted(q, ChainVecs(bios[..i]), bios[0].front, n, segSize, prev, highPrev, front)
    {
      n, segSize, prev, highPrev, front := CountBio(q, bios[i].vecs, ChainVecs(bios[..i]), bios[0].front, n, segSize,
                                                    prev, highPrev, front);
      assert bios[..i + 1][..i] == bios[..i];
    }
    assert bios[..|bios|] == bios;
    CountEnd(q, bios, n, segSize, prev, highPrev, front);
    if n == 1 && segSize > front {
      front := segSize;
    }
    out := bios[0 := bios[0].(front := front)];
    var last := |bios| - 1;
    if segSize > out[last].back {
      out := out[last := out[last].(back := segSize)];
    }
  }

  /** The scatterlist after the vectors vs. */
  ghost predicate Mapped(q: Limits, vs: seq<Vec>, list: seq<Sg>, nsegs: nat) {
    nsegs <= |list| && list[..nsegs] == Entries(Greedy(q, false, vs))
  }

  /** The entry list after one more vector. */
  function PutEntry(es: seq<Sg>, joins: bool, v: Vec): seq<Sg>
    requires joins ==> es != []
  {
    if joins then es[|es| - 1 := Sg(es[|es| - 1].addr, es[|es| - 1].len + v.len)] else es + [Sg(v.addr, v.len)]
  }

  lemma {:induction false} EntriesPut(q: Limits, p: seq<seq<Vec>>, v: Vec)
    ensures Entries(Put(q, false, p, v)) == PutEntry(Entries(p), p != [] && Joins(q, false, p[|p| - 1], v), v)
  {
    hide Entries;
    if p != [] && Joins(q, false, p[|p| - 1], v) {
      TotalOne(p[|p| - 1], v);
    } else {
      TotalOne([], v);
      assert [] + [v] == [v];
    }
  }

  lemma {:induction false} MappedStart(q: Limits, list: seq<Sg>)
    ensures Mapped(q, [], list, 0)
  {
  }

  /** The test of the mapping loop, on the last entry and the last vector. */
  predicate SgJoins(q: Limits, es: seq<Sg>, prev: Vec, v: Vec) {
    es != [] && q.cluster && es[|es| - 1].len + v.len <= q.maxSegment && prev.addr + prev.len == v.addr
    && q.together(prev, v)
  }

  lemma {:induction false} SameTest(q: Limits, p: seq<seq<Vec>>, prev: Vec, v: Vec)
    requires p != [] ==> p[|p| - 1] != [] && p[|p| - 1][|p[|p| - 1]| - 1] == prev
    ensures SgJoins(q, Entries(p), prev, v) <==> p != [] && Joins(q, false, p[|p| - 1], v)
  {
  }

  lemma {:induction false} MapStep(q: Limits, vs: seq<Vec>, prev: Vec, v: Vec)
    requires vs != [] ==> prev == vs[|vs| - 1]
    ensures var es := Entries(Greedy(q, false, vs));
            Entries(Greedy(q, false, vs + [v])) == PutEntry(es, SgJoins(q, es, prev, v), v)
  {
    var p := Greedy(q, false, vs);
    assert (vs + [v])[..|vs|] == vs;
    assert Greedy(q, false, vs + [v]) == Put(q, false, p, v);
    if vs != [] {
      LastOfGreedy(q, false, vs);
    }
    hide Greedy, Entries, Put, Joins, SgJoins, PutEntry;
    SameTest(q, p, prev, v);
    EntriesPut(q, p, v);
  }

  /** One vector of the mapping loop. */
  method MapVec(q: Limits, v: Vec, prev: Vec, ghost vs: seq<Vec>, sglist: array<Sg>, nsegs: nat) returns (nsegs': nat)
    requires Mapped(q, vs, sglist[..], nsegs) && (vs != [] ==> prev == vs[|vs| - 1])
    requires |Greedy(q, false, vs + [v])| <= sglist.Length
    modifies sglist
    ensures Mapped(q, vs + [v], sglist[..], nsegs')
  {
    hide Greedy, Entries;
    MapStep(q, vs, prev, v);
    if nsegs > 0 && q.cluster && sglist[nsegs - 1].len + v.len <= q.maxSegment
       && prev.addr + prev.len == v.addr && q.together(prev, v) {
      sglist[nsegs - 1] := sglist[nsegs - 1].(len := sglist[nsegs - 1].len + v.len);
      nsegs' := nsegs;
    } else {
      sglist[nsegs] := Sg(v.addr, v.len);
      nsegs' := nsegs + 1;
    }
  }

  /** blk_rq_map_sg without padding and drain.  The caller made room for the
      segments of some legal cut; that is enough. */
  method MapSg(q: Limits, vs: seq<Vec>, ghost counting: bool, ghost p: seq<seq<Vec>>,
               sglist: array<Sg>) returns (nsegs: nat)
    requires Cut(q, counting, p, vs) && |p| <= sglist.Length
    modifies sglist
    ensures nsegs <= |p|
    ensures sglist[..nsegs] == Entries(Greedy(q, false, vs))
    ensures SgBytes(sglist[..nsegs]) == VecBytes(vs)
  {
    ScatterBound(q, counting, vs, p);
    MappedStart(q, sglist[..]);
    hide Cut, Greedy, Entries, VecBytes, SgBytes;
    nsegs := 0;
    var prev := Vec(0, 0);
    for k := 0 to |vs|
      invariant Mapped(q, vs[..k], sglist[..], nsegs) && (k > 0 ==> prev == vs[k - 1])
    {
      GreedyGrows(q, false, vs, k + 1);
      assert vs[..k + 1] == vs[..k] + [vs[k]];
      nsegs := MapVec(q, vs[k], prev, vs[..k], sglist, nsegs);
      prev := vs[k];
    }
    assert vs[..|vs|] == vs;
    MappedBytes(q, vs);
  }
}
