/**
 The merge index of elevator.c: a hash from end sector to request with lazy
 removal, and the one-hit cache in front of it.
 */
module MergeIndex {
  import opened RbTree

  /** A request in the scheduler: where it starts, how long it is, and whether it may still be merged. */
  datatype Rq = Rq(pos: nat, sectors: nat, mergeable: bool)

  function End(r: Rq): nat { r.pos + r.sectors }

  type Buckets = seq<seq<nat>>

  /** Everything in a bucket is a request of the scheduler that hashes there,
      once, and every mergeable request is in its bucket. */
  ghost predicate Agree(hash: nat -> nat, rqs: map<nat, Rq>, b: Buckets) {
    && (forall x :: hash(x) < |b|)
    && (forall k, i :: 0 <= k < |b| && 0 <= i < |b[k]| ==> b[k][i] in rqs && hash(End(rqs[b[k][i]])) == k)
    && (forall k, i, j :: 0 <= k < |b| && 0 <= i < j < |b[k]| ==> b[k][i] != b[k][j])
    && (forall x :: x in rqs && rqs[x].mergeable ==> x in b[hash(End(rqs[x]))])
  }

  /** Not in any bucket. */
  ghost predicate Absent(b: Buckets, id: nat) { forall k :: 0 <= k < |b| ==> id !in b[k] }

  /** As Agree, except that request id may be missing. */
  ghost predicate AgreeBut(hash: nat -> nat, rqs: map<nat, Rq>, b: Buckets, id: nat) {
    && (forall x :: hash(x) < |b|) && Absent(b, id)
    && (forall k, i :: 0 <= k < |b| && 0 <= i < |b[k]| ==> b[k][i] in rqs && hash(End(rqs[b[k][i]])) == k)
    && (forall k, i, j :: 0 <= k < |b| && 0 <= i < j < |b[k]| ==> b[k][i] != b[k][j])
    && (forall x :: x in rqs && x != id && rqs[x].mergeable ==> x in b[hash(End(rqs[x]))])
  }

  function Removed(s: seq<nat>, id: nat): (r: seq<nat>)
    requires id in s
  {
    if s[0] == id then s[1..] else [s[0]] + Removed(s[1..], id)
  }

  lemma {:induction false} RemovedOk(s: seq<nat>, id: nat)
    requires id in s && forall i, j :: 0 <= i < j < |s| ==> s[i] != s[j]
    ensures var r := Removed(s, id);
            && id !in r && (forall x :: x in r ==> x in s) && (forall x :: x in s && x != id ==> x in r)
            && forall i, j :: 0 <= i < j < |r| ==> r[i] != r[j]
  {
    var t := s[1..];
    if s[0] == id {
      assert forall i :: 0 <= i < |t| ==> t[i] == s[i + 1];
    } else {
      assert forall i :: 0 <= i < |t| ==> t[i] == s[i + 1];
      assert id in t;
      RemovedOk(t, id);
      var r := Removed(t, id);
      assert s[0] !in t;
    }
  }

  /** A request is in no bucket but its own. */
  lemma {:induction false} OneBucket(hash: nat -> nat, rqs: map<nat, Rq>, b: Buckets, id: nat, m: nat)
    requires Agree(hash, rqs, b) && id in rqs && m < |b|
    ensures id in b[m] ==> m == hash(End(rqs[id]))
  {
  }

  /** Taking a request out of its bucket. */
  lemma {:induction false} DelKeeps(hash: nat -> nat, rqs: map<nat, Rq>, b: Buckets, id: nat)
    requires Agree(hash, rqs, b) && id in rqs
    ensures hash(End(rqs[id])) < |b|
    ensures var k := hash(End(rqs[id])); AgreeBut(hash, rqs, if id in b[k] then b[k := Removed(b[k], id)] else b, id)
  {
    var k := hash(End(rqs[id]));
    if id in b[k] {
      RemovedOk(b[k], id);
      var c := b[k := Removed(b[k], id)];
      forall m | 0 <= m < |c| ensures id !in c[m] {
        OneBucket(hash, rqs, b, id, m);
      }
      forall m, i | 0 <= m < |c| && 0 <= i < |c[m]| ensures c[m][i] in rqs && hash(End(rqs[c[m][i]])) == m {
        if m == k {
          assert c[m][i] in b[m];
          var j :| 0 <= j < |b[m]| && b[m][j] == c[m][i];
        }
      }
    } else {
      forall m | 0 <= m < |b| ensures id !in b[m] {
        OneBucket(hash, rqs, b, id, m);
      }
    }
  }

  /** Its new value, in front of the bucket of its end. */
  lemma {:induction false} AddKeeps(hash: nat -> nat, rqs: map<nat, Rq>, b: Buckets, id: nat, r: Rq)
    requires AgreeBut(hash, rqs, b, id)
    ensures hash(End(r)) < |b|
    ensures var k := hash(End(r)); Agree(hash, rqs[id := r], b[k := [id] + b[k]])
  {
  }

  /** Forgetting a request that is in no bucket. */
  lemma {:induction false} ForgetKeeps(hash: nat -> nat, rqs: map<nat, Rq>, b: Buckets, id: nat)
    requires AgreeBut(hash, rqs, b, id)
    ensures Agree(hash, rqs - {id}, b)
  {
  }

  lemma {:induction false} NewIsAbsent(hash: nat -> nat, rqs: map<nat, Rq>, b: Buckets, id: nat)
    requires Agree(hash, rqs, b) && id !in rqs
    ensures AgreeBut(hash, rqs, b, id)
  {
  }

  /** A flag that only ever goes down. */
  lemma {:induction false} FlagKeeps(hash: nat -> nat, rqs: map<nat, Rq>, b: Buckets, id: nat)
    requires Agree(hash, rqs, b) && id in rqs
    ensures Agree(hash, rqs[id := rqs[id].(mergeable := false)], b)
  {
  }

  /** A front merge moves the start, not the end. */
  lemma {:induction false} FrontKeeps(hash: nat -> nat, rqs: map<nat, Rq>, b: Buckets, id: nat, grown: nat)
    requires Agree(hash, rqs, b) && id in rqs && grown <= rqs[id].pos
    ensures Agree(hash, rqs[id := rqs[id].(pos := rqs[id].pos - grown, sectors := rqs[id].sectors + grown)], b)
  {
  }

  // ---------------------------------------------------------------- looking up

  datatype Found = Found(rq: Ref, rest: seq<nat>)

  /** The loop of elv_rqhash_find over one bucket: requests that can no longer
      be merged are dropped on the way. */
  function Scan(rqs: map<nat, Rq>, s: seq<nat>, offset: nat): Found
    requires forall x :: x in s ==> x in rqs
  {
    if s == [] then Found(Null, [])
    else
      assert s[0] in s && forall x :: x in s[1..] ==> x in s;
      if !rqs[s[0]].mergeable then Scan(rqs, s[1..], offset)
      else if End(rqs[s[0]]) == offset then Found(To(s[0]), s)
      else var f := Scan(rqs, s[1..], offset); Found(f.rq, [s[0]] + f.rest)
  }

  lemma {:induction false} ScanOk(rqs: map<nat, Rq>, s: seq<nat>, offset: nat)
    requires forall x :: x in s ==> x in rqs
    ensures var f := Scan(rqs, s, offset);
            && (f.rq != Null ==> f.rq.id in s && rqs[f.rq.id].mergeable && End(rqs[f.rq.id]) == offset)
            && (f.rq == Null ==> forall x :: x in s && rqs[x].mergeable ==> End(rqs[x]) != offset)
            && (forall x :: x in f.rest ==> x in s) && (forall x :: x in s && rqs[x].mergeable ==> x in f.rest)
    ensures (forall i, j :: 0 <= i < j < |s| ==> s[i] != s[j]) ==>
              var r := Scan(rqs, s, offset).rest; forall i, j :: 0 <= i < j < |r| ==> r[i] != r[j]
  {
    if s != [] {
      var t := s[1..];
      assert s[0] in s && forall x :: x in t ==> x in s;
      assert forall i :: 0 <= i < |t| ==> t[i] == s[i + 1];
      ScanOk(rqs, t, offset);
      assert forall x :: x in s <==> x == s[0] || x in t;
      if forall i, j :: 0 <= i < j < |s| ==> s[i] != s[j] {
        assert s[0] !in t;
      }
    }
  }

  /** Lazy removal keeps the index in agreement. */
  lemma {:induction false} ScanKeeps(hash: nat -> nat, rqs: map<nat, Rq>, b: Buckets, offset: nat)
    requires Agree(hash, rqs, b)
    ensures hash(offset) < |b| && forall x :: x in b[hash(offset)] ==> x in rqs
    ensures Agree(hash, rqs, b[hash(offset) := Scan(rqs, b[hash(offset)], offset).rest])
  {
    var k := hash(offset);
    ScanOk(rqs, b[k], offset);
    var r := Scan(rqs, b[k], offset).rest;
    forall i | 0 <= i < |r| ensures r[i] in rqs && hash(End(rqs[r[i]])) == k {
      assert r[i] in b[k];
      var j :| 0 <= j < |b[k]| && b[k][j] == r[i];
    }
  }

  /** The index agrees with a scan of the scheduler: it finds a request exactly
      when some mergeable request ends at the offset. */
  lemma {:induction false} FindAgreesWithScan(hash: nat -> nat, rqs: map<nat, Rq>, b: Buckets, offset: nat)
    requires Agree(hash, rqs, b)
    ensures hash(offset) < |b| && forall x :: x in b[hash(offset)] ==> x in rqs
    ensures var f := Scan(rqs, b[hash(offset)], offset);
            && (f.rq != Null <==> exists x :: x in rqs && rqs[x].mergeable && End(rqs[x]) == offset)
            && (f.rq != Null ==> f.rq.id in rqs && rqs[f.rq.id].mergeable && End(rqs[f.rq.id]) == offset)
  {
    ScanKeeps(hash, rqs, b, offset);
    ScanOk(rqs, b[hash(offset)], offset);
  }

  /** One turn of the loop, with what it kept so far. */
  lemma {:induction false} ScanStep(rqs: map<nat, Rq>, s: seq<nat>, kept: seq<nat>, offset: nat)
    requires s != [] && forall x :: x in s ==> x in rqs
    ensures s[0] in rqs && forall x :: x in s[1..] ==> x in rqs
    ensures var f := Scan(rqs, s, offset);
            if !rqs[s[0]].mergeable then f == Scan(rqs, s[1..], offset)
            else if End(rqs[s[0]]) == offset then f == Found(To(s[0]), s)
            else f.rq == Scan(rqs, s[1..], offset).rq && kept + f.rest == kept + [s[0]] + Scan(rqs, s[1..], offset).rest
  {
  }

  lemma {:induction false} ScanNone(rqs: map<nat, Rq>, offset: nat)
    ensures Scan(rqs, [], offset) == Found(Null, [])
  {
  }

  // ---------------------------------------------------------------- the code

  datatype Merge = NoMerge | BackMerge | FrontMerge

  class Index {
    const hash: nat -> nat
    var rqs: map<nat, Rq>
    var buckets: Buckets
    var lastMerge: Ref
    var nrSorted: int

    constructor (h: nat -> nat, entries: nat)
      requires forall x :: h(x) < entries
      ensures Valid() && rqs == map[] && hash == h
    {
      hash := h;
      rqs, buckets, lastMerge, nrSorted := map[], seq(entries, (i: nat) => []), Null, 0;
    }

    /** The index agrees, and the cached request is still in the scheduler. */
    ghost predicate Valid()
      reads this
    {
      Agree(hash, rqs, buckets) && (lastMerge == Null || lastMerge.id in rqs) && nrSorted == |rqs|
    }

    /** __elv_rqhash_del. */
    method HashDel(id: nat)
      requires Agree(hash, rqs, buckets) && id in rqs
      modifies this`buckets
      ensures AgreeBut(hash, rqs, buckets, id)
    {
      DelKeeps(hash, rqs, buckets, id);
      var k := hash(End(rqs[id]));
      if id in buckets[k] {
        buckets := buckets[k := Removed(buckets[k], id)];
      }
    }

    /** elv_rqhash_add, with the value the request has now; it is on no list. */
    method HashAdd(id: nat, r: Rq)
      requires AgreeBut(hash, rqs, buckets, id)
      modifies this`buckets, this`rqs
      ensures Agree(hash, rqs, buckets) && rqs == old(rqs)[id := r]
    {
      AddKeeps(hash, rqs, buckets, id, r);
      var k := hash(End(r));
      buckets := buckets[k := [id] + buckets[k]];
      rqs := rqs[id := r];
    }

    /** elv_insert with ELEVATOR_INSERT_SORT. */
    method Insert(id: nat, r: Rq)
      requires Valid() && id !in rqs
      modifies this
      ensures Valid() && rqs == old(rqs)[id := r]
      ensures lastMerge == if r.mergeable && old(lastMerge) == Null then To(id) else old(lastMerge)
    {
      NewIsAbsent(hash, rqs, buckets, id);
      nrSorted := nrSorted + 1;
      if r.mergeable {
        HashAdd(id, r);
        if lastMerge == Null {
          lastMerge := To(id);
        }
      } else {
        rqs := rqs[id := r];
      }
    }

    /** elv_rqhash_find. */
    method Find(offset: nat) returns (rq: Ref)
      requires Valid()
      modifies this`buckets
      ensures Valid()
      ensures rq != Null <==> exists x :: x in rqs && rqs[x].mergeable && End(rqs[x]) == offset
      ensures rq != Null ==> rq.id in rqs && rqs[rq.id].mergeable && End(rqs[rq.id]) == offset
    {
      hide Agree, Scan;
      FindAgreesWithScan(hash, rqs, buckets, offset);
      ScanKeeps(hash, rqs, buckets, offset);
      var k := hash(offset);
      var all := buckets;
      var list, kept: seq<nat> := all[k], [];
      ghost var f := Scan(rqs, list, offset);
      assert [] + f.rest == f.rest;
      rq := Null;
      while list != []
        invariant forall x :: x in list ==> x in rqs
        invariant rq == Null && f == Found(Scan(rqs, list, offset).rq, kept + Scan(rqs, list, offset).rest)
        decreases |list|
      {
        ScanStep(rqs, list, kept, offset);
        var x := list[0];
        if !rqs[x].mergeable {
          list := list[1..];
        } else if End(rqs[x]) == offset {
          rq := To(x);
          break;
        } else {
          kept := kept + [x];
          list := list[1..];
        }
      }
      ScanNone(rqs, offset);
      buckets := all[k := kept + list];
    }

    /** elv_merged_request after n sectors were added at the end or in front. */
    method Merged(id: nat, n: nat, kind: Merge)
      requires Valid() && id in rqs && kind != NoMerge && (kind == FrontMerge ==> n <= rqs[id].pos)
      modifies this
      ensures Valid() && lastMerge == To(id)
      ensures var r := old(rqs)[id];
              rqs == old(rqs)[id := if kind == BackMerge then r.(sectors := r.sectors + n)
                                    else r.(pos := r.pos - n, sectors := r.sectors + n)]
    {
      var r := rqs[id];
      assert |rqs[id := r.(sectors := r.sectors + n)]| == |rqs| by { SameSize(rqs, id, r.(sectors := r.sectors + n)); }
      if kind == BackMerge {
        HashDel(id);
        HashAdd(id, r.(sectors := r.sectors + n));
      } else {
        FrontKeeps(hash, rqs, buckets, id, n);
        SameSize(rqs, id, r.(pos := r.pos - n, sectors := r.sectors + n));
        rqs := rqs[id := r.(pos := r.pos - n, sectors := r.sectors + n)];
      }
      lastMerge := To(id);
    }

    /** elv_merge_requests: rq takes over the sectors of next, which leaves. */
    method MergeRequests(id: nat, next: nat)
      requires Valid() && id in rqs && next in rqs && id != next
      modifies this
      ensures Valid() && lastMerge == To(id)
      ensures rqs == old(rqs)[id := old(rqs)[id].(sectors := old(rqs)[id].sectors + old(rqs)[next].sectors)] - {next}
    {
      var r := rqs[id].(sectors := rqs[id].sectors + rqs[next].sectors);
      SameSize(rqs, id, r);
      OneLess(rqs[id := r], next);
      HashDel(id);
      HashAdd(id, r);
      HashDel(next);
      ForgetKeeps(hash, rqs, buckets, next);
      rqs := rqs - {next};
      nrSorted := nrSorted - 1;
      lastMerge := To(id);
    }

    /** A merge was refused for its size: REQ_NOMERGE, and no longer the cached one. */
    method Refuse(id: nat)
      requires Valid() && id in rqs
      modifies this
      ensures Valid() && rqs == old(rqs)[id := old(rqs)[id].(mergeable := false)]
      ensures lastMerge == if old(lastMerge) == To(id) then Null else old(lastMerge)
    {
      FlagKeeps(hash, rqs, buckets, id);
      SameSize(rqs, id, rqs[id].(mergeable := false));
      rqs := rqs[id := rqs[id].(mergeable := false)];
      if lastMerge == To(id) {
        lastMerge := Null;
      }
    }

    /** elv_dispatch_sort and elv_dispatch_add_tail: the request leaves. */
    method Dispatch(id: nat)
      requires Valid() && id in rqs
      modifies this
      ensures Valid() && rqs == old(rqs) - {id}
      ensures lastMerge == if old(lastMerge) == To(id) then Null else old(lastMerge)
    {
      if lastMerge == To(id) {
        lastMerge := Null;
      }
      OneLess(rqs, id);
      HashDel(id);
      ForgetKeeps(hash, rqs, buckets, id);
      rqs := rqs - {id};
      nrSorted := nrSorted - 1;
    }

    /** elv_merge, given what elv_rq_merge_ok says about a request and what the
        scheduler's own front merge search finds. */
    method ElvMerge(sector: nat, sectors: nat, ok: nat -> bool, front: Ref) returns (kind: Merge, rq: Ref)
      requires Valid() && forall x :: ok(x) && x in rqs ==> rqs[x].mergeable
      requires front != Null ==> front.id in rqs && ok(front.id) && rqs[front.id].pos == sector + sectors
      modifies this`buckets
      ensures Valid() && (kind == NoMerge <==> rq == Null)
      ensures rq != Null ==> rq.id in rqs && ok(rq.id) && rqs[rq.id].mergeable
      ensures kind == BackMerge ==> End(rqs[rq.id]) == sector
      ensures kind == FrontMerge ==> rqs[rq.id].pos == sector + sectors
      ensures kind == NoMerge ==>
                && front == Null
                && forall x :: x in rqs && rqs[x].mergeable && End(rqs[x]) == sector ==>
                     exists y :: y in rqs && End(rqs[y]) == sector && !ok(y)
    {
      if lastMerge != Null && ok(lastMerge.id) {
        var r := rqs[lastMerge.id];
        if End(r) == sector {
          return BackMerge, lastMerge;
        }
        if r.pos == sector + sectors {
          return FrontMerge, lastMerge;
        }
      }
      var hit := Find(sector);
      if hit != Null && ok(hit.id) {
        return BackMerge, hit;
      }
      if front != Null {
        return FrontMerge, front;
      }
      return NoMerge, Null;
    }
  }

  lemma {:induction false} SameSize(rqs: map<nat, Rq>, id: nat, r: Rq)
    requires id in rqs
    ensures |rqs[id := r]| == |rqs|
  {
  }

  lemma {:induction false} OneLess(rqs: map<nat, Rq>, id: nat)
    requires id in rqs
    ensures |rqs - {id}| == |rqs| - 1
  {
  }
}
