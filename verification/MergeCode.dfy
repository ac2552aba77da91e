/** The request object and the in-place merge functions of blk-merge.c. */
module MergeCode {
  import opened Segments
  import opened Merging
  import opened MergeBound

  /** How an attempt to merge two requests ends. */
  datatype Outcome = Done | Refused | Faulted

  class Request {
    var bios: seq<Bio>
    var kind: Kind
    var sector: nat
    var dataLen: nat
    var nr: nat
    var noMerge: bool
    var barrier: bool
    var special: bool

    constructor (r: Rq)
      ensures View() == r
    {
      bios, kind, sector, dataLen, nr, noMerge, barrier, special :=
        r.bios, r.kind, r.sector, r.dataLen, r.nr, r.noMerge, r.barrier, r.special;
    }

    function View(): Rq
      reads this
    {
      Rq(bios, kind, sector, dataLen, nr, noMerge, barrier, special)
    }

    /** blk_recount_segments on a bio whose count is not valid. */
    static method RecountBio(q: Queue, b: Bio) returns (c: Bio)
      ensures c == Recount(q, b)
    {
      if b.valid {
        return b;
      }
      var n, out := RecalcSegments(q.seg, [b]);
      ChainOne(b);
      c := out[0].(segs := n, valid := true);
    }

    method NewSegment(q: Queue, b: Bio) returns (ok: bool)
      modifies this
      ensures Verdict(ok, View(), b) == NewHwSegment(q, old(View()), b)
    {
      if nr + b.segs > q.maxHw || nr + b.segs > q.maxPhys {
        noMerge := true;
        return false;
      }
      nr := nr + b.segs;
      ok := true;
    }

    /** ll_back_merge_fn and the links __make_request sets when it agrees. */
    method BackMerge(q: Queue, b: Bio) returns (ok: bool, c: Bio)
      requires bios != []
      modifies this
      ensures var v := BackMergeFn(q, old(View()), b);
              ok == v.ok && c == v.bio && View() == if v.ok then AddBack(v.rq, v.bio) else v.rq
    {
      c := b;
      if Sectors(dataLen) + Sectors(b.size) > q.maxSectors {
        noMerge := true;
        return false, c;
      }
      var tail := RecountBio(q, bios[|bios| - 1]);
      bios := bios[|bios| - 1 := tail];
      c := RecountBio(q, b);
      ok := NewSegment(q, c);
      if ok {
        bios := bios + [c];
        dataLen := dataLen + c.size;
      }
    }

    /** ll_front_merge_fn and the links __make_request sets when it agrees. */
    method FrontMerge(q: Queue, b: Bio) returns (ok: bool, c: Bio)
      requires bios != []
      modifies this
      ensures var v := FrontMergeFn(q, old(View()), b);
              ok == v.ok && c == v.bio && View() == if v.ok then AddFront(v.rq, v.bio) else v.rq
    {
      c := b;
      if Sectors(dataLen) + Sectors(b.size) > q.maxSectors {
        noMerge := true;
        return false, c;
      }
      c := RecountBio(q, b);
      var head := RecountBio(q, bios[0]);
      bios := bios[0 := head];
      ok := NewSegment(q, c);
      if ok {
        bios := [c] + bios;
        sector := c.sector;
        dataLen := dataLen + c.size;
      }
    }

    /** ll_merge_requests_fn.  Nothing has been written yet when it reads a vector that is not there. */
    method MergeRequests(q: Queue, next: Request) returns (out: Outcome)
      requires this != next && bios != [] && next.bios != []
      modifies this, next
      ensures out == Faulted ==> View() == old(View()) && next.View() == old(next.View())
      ensures MergeRequestsFn(q, old(View()), old(next.View()))
              == if out == Faulted then Faults else Joint(out == Done, View(), next.View())
    {
      var tail, head := bios[|bios| - 1], next.bios[0];
      var size := tail.back + head.front;
      if special || next.special {
        return Refused;
      }
      if Sectors(dataLen) + Sectors(next.dataLen) > q.maxSectors {
        return Refused;
      }
      var total: int := nr + next.nr;
      var contig := PhysContig(q, tail, head);
      if contig == Missing {
        return Faulted;
      }
      if contig.yes {
        if nr == 1 {
          bios := WithFront(bios, size);
        }
        if next.nr == 1 {
          next.bios := WithBack(next.bios, size);
        }
        total := total - 1;
      }
      if total > q.maxPhys {
        return Refused;
      }
      if total > q.maxHw {
        return Refused;
      }
      nr := total % U16;
      out := Done;
    }

    /** attempt_merge: this request takes the bios of the next one. */
    method Attempt(q: Queue, next: Request) returns (out: Outcome)
      requires this != next && bios != [] && next.bios != []
      modifies this, next
      ensures out == Faulted <==> old(ReadsMissing(q, View(), next.View()))
      ensures out == Faulted ==> View() == old(View()) && next.View() == old(next.View())
      ensures out == Done ==> next.bios == []
      ensures var j := AttemptMerge(q, old(View()), old(next.View()));
              out != Faulted ==>
                j.Joint? && j.ok == (out == Done) && View() == j.rq && (!j.ok ==> next.View() == j.next)
    {
      if !Mergeable(View()) || !Mergeable(next.View()) {
        return Refused;
      }
      if sector + Sectors(dataLen) != next.sector {
        return Refused;
      }
      if kind != next.kind || next.special {
        return Refused;
      }
      out := MergeRequests(q, next);
      if out == Done {
        bios := bios + next.bios;
        dataLen := dataLen + next.dataLen;
        next.bios := [];
      }
    }

    /** blk_rq_map_sg into a list with room for the counted segments: it fits,
        and the driver sees the bytes of the bios in order. */
    method Map(q: Queue, sglist: array<Sg>) returns (nsegs: nat)
      requires SegOk(q, bios, nr) && nr <= sglist.Length
      modifies sglist
      ensures nsegs <= nr && SgBytes(sglist[..nsegs]) == VecBytes(ChainVecs(bios))
    {
      ghost var p :| SegCut(q, bios, nr, p);
      var vecs := ChainVecs(bios);
      nsegs := MapSg(q.seg, vecs, false, p, sglist);
    }
  }
}
