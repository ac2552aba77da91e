/** The tag allocator of blk-tag.c: a bitmap, an index from tag to request, and
    the tag each request carries. */
module Tags {
  import opened RbTree

  const BITS_PER_LONG: nat := 64

  /** ALIGN(depth, BITS_PER_LONG): the bits the map really has. */
  function Align(depth: nat): nat { (depth + BITS_PER_LONG - 1) / BITS_PER_LONG * BITS_PER_LONG }

  lemma {:induction false} AlignCovers(m: nat, n: nat)
    requires m <= n
    ensures m <= Align(m) <= Align(n)
  {
  }

  /** init_tag_map: a queue never gets more tags than twice its requests. */
  function Clamp(depth: nat, nrRequests: nat): nat { if depth > 2 * nrRequests then 2 * nrRequests else depth }

  /** A grown map holds the old one exactly when the queue allows as many tags
      as there already are. */
  lemma {:induction false} GrowthFits(depth: nat, have: nat, nrRequests: nat)
    requires depth > have
    ensures Clamp(depth, nrRequests) >= have <==> 2 * nrRequests >= have
    ensures Clamp(depth, nrRequests) >= have ==> Align(Clamp(depth, nrRequests)) >= Align(have)
  {
  }

  /** How many tags a request may choose from: async ones leave two to sync. */
  function Limit(maxDepth: nat, sync: bool): nat {
    if sync || maxDepth <= 1 then maxDepth else if maxDepth == 2 then 1 else maxDepth - 2
  }

  /** Some request has the tag. */
  predicate Carried(tag: map<nat, nat>, t: nat) { exists r :: r in tag && tag[r] == t }

  datatype Outcome = Ok | Busy | NoMemory | DoesNotFit

  class TagMap {
    var maxDepth: nat
    var realMaxDepth: nat
    var tagIndex: array<Ref>
    var tagMap: array<bool>
    var tag: map<nat, nat>

    /** A bit is set iff the index names the one request that carries the tag. */
    ghost predicate Valid()
      reads this, tagIndex, tagMap
    {
      && maxDepth <= realMaxDepth && tagIndex.Length == realMaxDepth && tagMap.Length == Align(realMaxDepth)
      && realMaxDepth <= Align(realMaxDepth)
      && (forall t :: 0 <= t < realMaxDepth ==> (tagMap[t] <==> tagIndex[t] != Null))
      && (forall t :: realMaxDepth <= t < tagMap.Length ==> !tagMap[t])
      && (forall t :: 0 <= t < realMaxDepth && tagIndex[t] != Null ==>
            tagIndex[t].id in tag && tag[tagIndex[t].id] == t)
      && (forall r :: r in tag ==> tag[r] < realMaxDepth && tagIndex[tag[r]] == To(r))
    }

    /** So no two requests share a tag. */
    lemma {:induction false} Unique(r: nat, s: nat)
      requires Valid() && r in tag && s in tag && tag[r] == tag[s]
      ensures r == s
    {
    }

    /** __blk_queue_init_tags. */
    constructor (depth: nat, nrRequests: nat)
      ensures Valid() && tag == map[] && realMaxDepth == Clamp(depth, nrRequests) && maxDepth == realMaxDepth
      ensures fresh(tagIndex) && fresh(tagMap)
    {
      var d := Clamp(depth, nrRequests);
      maxDepth, realMaxDepth, tag := d, d, map[];
      tagIndex := new Ref[d](i => Null);
      tagMap := new bool[Align(d)](i => false);
      new;
      AlignCovers(d, d);
    }

    /** find_first_zero_bit. */
    method FirstZero(n: nat) returns (t: nat)
      requires n <= tagMap.Length
      ensures t <= n && (t < n ==> !tagMap[t]) && forall k :: 0 <= k < t ==> tagMap[k]
    {
      t := 0;
      while t < n && tagMap[t]
        invariant t <= n && forall k :: 0 <= k < t ==> tagMap[k]
      {
        t := t + 1;
      }
    }

    /** blk_queue_start_tag: the lowest free tag below the limit, or none. */
    method Start(rq: nat, sync: bool, asyncInFlight: nat) returns (ok: bool)
      requires Valid() && rq !in tag
      modifies this`tag, tagIndex, tagMap
      ensures Valid() && tagIndex == old(tagIndex) && tagMap == old(tagMap)
      ensures ok ==> rq in tag && tag == old(tag)[rq := tag[rq]] && tag[rq] < Limit(maxDepth, sync)
                     && (forall r :: r in old(tag) ==> old(tag)[r] != tag[rq])
                     && forall t :: 0 <= t < tag[rq] ==> Carried(old(tag), t)
      ensures !ok ==> tag == old(tag)
      ensures !ok ==> (!sync && maxDepth > 1 && asyncInFlight > Limit(maxDepth, sync))
                      || forall t :: 0 <= t < Limit(maxDepth, sync) ==> Carried(tag, t)
    {
      var limit := maxDepth;
      if !sync && limit > 1 {
        limit := limit - 2;
        if limit == 0 {
          limit := 1;
        }
        if asyncInFlight > limit {
          return false;
        }
      }
      var t := FirstZero(limit);
      forall k | 0 <= k < t ensures Carried(tag, k) {
        var r := tagIndex[k].id;
        assert r in tag && tag[r] == k;
      }
      if t >= limit {
        return false;
      }
      tagMap[t] := true;
      tagIndex[t] := To(rq);
      tag := tag[rq := t];
      ok := true;
    }

    /** blk_queue_end_tag: the tag is in range, the index knows the request, and
        the bit was set, whatever happened to the depth meanwhile. */
    method EndTag(rq: nat) returns (outOfRange: bool, missing: bool, notBusy: bool)
      requires Valid() && rq in tag
      modifies this`tag, tagIndex, tagMap
      ensures Valid() && tag == old(tag) - {rq} && !outOfRange && !missing && !notBusy
    {
      var t := tag[rq];
      outOfRange, missing, notBusy := t >= realMaxDepth, false, false;
      if outOfRange {
        return;
      }
      missing := tagIndex[t] == Null;
      notBusy := !tagMap[t];
      tagIndex[t] := Null;
      if !notBusy {
        tagMap[t] := false;
      }
      tag := tag - {rq};
    }

    /** blk_queue_resize_tags.  Growing a map whose queue no longer allows that
        many tags cuts it below what it holds: the old entries do not fit. */
    method Resize(newDepth: nat, nrRequests: nat, shared: bool, memory: bool) returns (o: Outcome)
      requires Valid()
      modifies this
      ensures Valid() && tag == old(tag)
      ensures o == DoesNotFit <==>
                newDepth > old(realMaxDepth) && !shared && memory && 2 * nrRequests < old(realMaxDepth)
      ensures o == Ok ==>
                && realMaxDepth >= old(realMaxDepth)
                && maxDepth == (if newDepth <= old(realMaxDepth) then newDepth else realMaxDepth)
      ensures o == Ok && newDepth > old(realMaxDepth) ==>
                realMaxDepth == Clamp(newDepth, nrRequests) && fresh(tagIndex) && fresh(tagMap)
      ensures o != Ok ==>
                maxDepth == old(maxDepth) && realMaxDepth == old(realMaxDepth) && tagIndex == old(tagIndex)
                && tagMap == old(tagMap)
    {
      if newDepth <= realMaxDepth {
        maxDepth := newDepth;
        return Ok;
      }
      if shared {
        return Busy;
      }
      if !memory {
        return NoMemory;
      }
      var depth := Clamp(newDepth, nrRequests);
      GrowthFits(newDepth, realMaxDepth, nrRequests);
      if depth < realMaxDepth {
        return DoesNotFit;
      }
      var oldIndex, oldMap := tagIndex, tagMap;
      var index := new Ref[depth](i => Null);
      var bits := new bool[Align(depth)](i => false);
      forall i | 0 <= i < realMaxDepth { index[i] := oldIndex[i]; }
      forall i | 0 <= i < Align(realMaxDepth) { bits[i] := oldMap[i]; }
      AlignCovers(depth, depth);
      tagIndex, tagMap, realMaxDepth, maxDepth := index, bits, depth, depth;
      return Ok;
    }
  }

  /** A map made for 64 requests, then asked to grow when the queue has come down
      to 32: the new map would be smaller than the old one, so the old one does
      not fit. */
  method GrowthCanShrink() returns (o: Outcome)
    ensures o == DoesNotFit
  {
    var tags := new TagMap(128, 64);
    o := tags.Resize(200, 32, false, true);
  }
}
