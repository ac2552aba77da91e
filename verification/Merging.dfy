/**
 Merging bios into requests and requests into each other: blk-merge.c and the
 merge half of __make_request.

 A request is a value here; class Request below is the object the kernel
 updates, and its methods are proved to compute these values.
 */
module Merging {
  import opened Segments

  datatype Queue = Queue(seg: Limits, maxSectors: nat, maxPhys: nat, maxHw: nat)

  /** A request: its bio chain and the fields merging reads or writes. */
  datatype Rq = Rq(bios: seq<Bio>, kind: Kind, sector: nat, dataLen: nat, nr: nat,
                   noMerge: bool, barrier: bool, special: bool)

  function Sectors(bytes: nat): nat { bytes / 512 }

  function End(r: Rq): nat { r.sector + Sectors(r.dataLen) }

  predicate Mergeable(r: Rq) { !r.noMerge && !r.barrier }

  /** elv_rq_merge_ok. */
  predicate MergeOk(r: Rq, b: Bio)
    requires r.bios != []
  {
    Mergeable(r) && b.discard == r.bios[0].discard && b.kind == r.kind && !r.special
  }

  // ---------------------------------------------------------------- the merge functions

  /** bio_phys_segments: count when the count is not valid. */
  function Recount(q: Queue, b: Bio): Bio {
    if b.valid then b
    else Sized([b], Greedy(q.seg, true, b.vecs))[0].(segs := |Greedy(q.seg, true, b.vecs)|, valid := true)
  }

  function RecountAt(q: Queue, bios: seq<Bio>, i: nat): seq<Bio>
    requires i < |bios|
  {
    bios[i := Recount(q, bios[i])]
  }

  datatype Verdict = Verdict(ok: bool, rq: Rq, bio: Bio)

  /** ll_new_hw_segment. */
  function NewHwSegment(q: Queue, r: Rq, b: Bio): Verdict {
    if r.nr + b.segs > q.maxHw || r.nr + b.segs > q.maxPhys
    then Verdict(false, r.(noMerge := true), b)
    else Verdict(true, r.(nr := r.nr + b.segs), b)
  }

  /** ll_back_merge_fn. */
  function BackMergeFn(q: Queue, r: Rq, b: Bio): Verdict
    requires r.bios != []
  {
    if Sectors(r.dataLen) + Sectors(b.size) > q.maxSectors then Verdict(false, r.(noMerge := true), b)
    else NewHwSegment(q, r.(bios := RecountAt(q, r.bios, |r.bios| - 1)), Recount(q, b))
  }

  /** ll_front_merge_fn. */
  function FrontMergeFn(q: Queue, r: Rq, b: Bio): Verdict
    requires r.bios != []
  {
    if Sectors(r.dataLen) + Sectors(b.size) > q.maxSectors then Verdict(false, r.(noMerge := true), b)
    else NewHwSegment(q, r.(bios := RecountAt(q, r.bios, 0)), Recount(q, b))
  }

  /** The links __make_request sets after a back or a front merge. */
  function AddBack(r: Rq, b: Bio): Rq { r.(bios := r.bios + [b], dataLen := r.dataLen + b.size) }

  function AddFront(r: Rq, b: Bio): Rq { r.(bios := [b] + r.bios, sector := b.sector, dataLen := r.dataLen + b.size) }

  /** blk_phys_contig_segment.  Missing when it reads the first vector of a bio that has none. */
  datatype Contig = Contig(yes: bool) | Missing

  function PhysContig(q: Queue, tail: Bio, next: Bio): Contig {
    if !q.seg.cluster then Contig(false)
    else if tail.back + next.front > q.seg.maxSegment then Contig(false)
    else if tail.vecs == [] then Contig(true)
    else if next.vecs == [] then Missing
    else Contig(Link(q.seg, false, tail.vecs[|tail.vecs| - 1], next.vecs[0]))
  }

  /** Both requests after ll_merge_requests_fn, which writes the segment sizes
      before it knows whether the merge is allowed. */
  datatype Joint = Joint(ok: bool, rq: Rq, next: Rq) | Faults

  const U16: nat := 0x10000

  function WithFront(bios: seq<Bio>, n: nat): seq<Bio>
    requires bios != []
  {
    bios[0 := bios[0].(front := n)]
  }

  function WithBack(bios: seq<Bio>, n: nat): seq<Bio>
    requires bios != []
  {
    bios[|bios| - 1 := bios[|bios| - 1].(back := n)]
  }

  /** ll_merge_requests_fn. */
  function MergeRequestsFn(q: Queue, r: Rq, n: Rq): Joint
    requires r.bios != [] && n.bios != []
  {
    var tail, head := r.bios[|r.bios| - 1], n.bios[0];
    if r.special || n.special then Joint(false, r, n)
    else if Sectors(r.dataLen) + Sectors(n.dataLen) > q.maxSectors then Joint(false, r, n)
    else match PhysContig(q, tail, head)
      case Missing => Faults
      case Contig(yes) =>
        var size := tail.back + head.front;
        var r1 := if yes && r.nr == 1 then r.(bios := WithFront(r.bios, size)) else r;
        var n1 := if yes && n.nr == 1 then n.(bios := WithBack(n.bios, size)) else n;
        var total := r.nr + n.nr - if yes then 1 else 0;
        if total > q.maxPhys || total > q.maxHw then Joint(false, r1, n1)
        else Joint(true, r1.(nr := total % U16), n1)
  }

  /** attempt_merge, up to the point where next is released. */
  function AttemptMerge(q: Queue, r: Rq, n: Rq): Joint
    requires r.bios != [] && n.bios != []
  {
    if !Mergeable(r) || !Mergeable(n) then Joint(false, r, n)
    else if End(r) != n.sector then Joint(false, r, n)
    else if r.kind != n.kind || n.special then Joint(false, r, n)
    else match MergeRequestsFn(q, r, n)
      case Faults => Faults
      case Joint(ok, r1, n1) =>
        if !ok then Joint(false, r1, n1)
        else Joint(true, r1.(bios := r1.bios + n1.bios, dataLen := r1.dataLen + n1.dataLen), n1)
  }

  /** Everything agrees, the sizes would fit one segment, and data meets a bio
      without vectors: the first vector of that bio is read. */
  predicate ReadsMissing(q: Queue, r: Rq, n: Rq)
    requires r.bios != [] && n.bios != []
  {
    var tail, head := r.bios[|r.bios| - 1], n.bios[0];
    && Mergeable(r) && Mergeable(n) && End(r) == n.sector && r.kind == n.kind && !r.special && !n.special
    && Sectors(r.dataLen) + Sectors(n.dataLen) <= q.maxSectors
    && q.seg.cluster && tail.back + head.front <= q.seg.maxSegment && tail.vecs != [] && head.vecs == []
  }
}
