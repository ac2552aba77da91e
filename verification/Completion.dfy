/**
 Partial completion of a request: blk_update_request and req_bio_endio.

 A bio keeps the vectors that are still to be transferred, so vecs stands for
 bi_io_vec from bi_idx on.  The request is not the proxy barrier, whose bios
 are left alone.
 */
module Completion {

  datatype Vec = Vec(addr: nat, len: nat)

  datatype Bio = Bio(id: nat, sector: nat, size: nat, vecs: seq<Vec>, upToDate: bool)

  /** One call of bio_endio. */
  datatype Ended = Ended(id: nat, error: int)

  const EIO := -5

  function Len(vs: seq<Vec>): nat { if vs == [] then 0 else vs[0].len + Len(vs[1..]) }

  function Bytes(bios: seq<Bio>): nat { if bios == [] then 0 else bios[0].size + Bytes(bios[1..]) }

  /** A bio has bytes to transfer; with data, its vectors hold exactly those. */
  predicate Sane(b: Bio) {
    b.size > 0 && (forall v :: v in b.vecs ==> v.len > 0) && (b.vecs != [] ==> Len(b.vecs) == b.size)
  }

  predicate AllSane(bios: seq<Bio>) { forall b :: b in bios ==> Sane(b) }

  predicate AllData(bios: seq<Bio>) { forall b :: b in bios ==> b.vecs != [] }

  // ---------------------------------------------------------------- what completing n bytes means

  /** The vectors without their first n bytes. */
  function DropVecs(vs: seq<Vec>, n: nat): seq<Vec> {
    if vs == [] then []
    else if n < vs[0].len then [Vec(vs[0].addr + n, vs[0].len - n)] + vs[1..]
    else DropVecs(vs[1..], n - vs[0].len)
  }

  /** A bio of which n bytes, not all, are done. */
  function Advance(b: Bio, n: nat, error: int): Bio
    requires n < b.size
  {
    if n == 0 then b
    else Bio(b.id, b.sector + n / 512, b.size - n, DropVecs(b.vecs, n), b.upToDate && error == 0)
  }

  /** The error a bio ends with: an earlier failure is not forgotten. */
  function EndCode(b: Bio, error: int): int { if error == 0 && !b.upToDate then EIO else error }

  datatype Rest = Rest(bios: seq<Bio>, ended: seq<Ended>, taken: nat)

  /** n bytes taken off the front of the chain.  A bio without vectors cannot be
      completed in part: the code finds no vector and stops there. */
  function Done(bios: seq<Bio>, n: nat, error: int): Rest {
    if bios == [] then Rest([], [], 0)
    else
      var b := bios[0];
      if n >= b.size then
        var r := Done(bios[1..], n - b.size, error);
        Rest(r.bios, [Ended(b.id, EndCode(b, error))] + r.ended, b.size + r.taken)
      else if b.vecs == [] then Rest(bios, [], 0)
      else Rest([Advance(b, n, error)] + bios[1..], [], n)
  }

  /** n bytes do not end strictly inside a bio without vectors. */
  predicate Clean(bios: seq<Bio>, n: nat) {
    n == 0 || bios == [] || if n >= bios[0].size then Clean(bios[1..], n - bios[0].size) else bios[0].vecs != []
  }

  // ---------------------------------------------------------------- laws

  lemma {:induction false} DropLen(vs: seq<Vec>, n: nat)
    requires (forall v :: v in vs ==> v.len > 0) && n < Len(vs)
    ensures DropVecs(vs, n) != [] && Len(DropVecs(vs, n)) == Len(vs) - n
            && forall v :: v in DropVecs(vs, n) ==> v.len > 0
  {
    if n < vs[0].len {
      var d := [Vec(vs[0].addr + n, vs[0].len - n)] + vs[1..];
      assert d[1..] == vs[1..];
    } else {
      DropLen(vs[1..], n - vs[0].len);
    }
  }

  lemma {:induction false} DropDrop(vs: seq<Vec>, m: nat, n: nat)
    requires (forall v :: v in vs ==> v.len > 0) && m + n < Len(vs)
    ensures DropVecs(DropVecs(vs, m), n) == DropVecs(vs, m + n)
  {
    if m < vs[0].len {
      var d := DropVecs(vs, m);
      assert d[1..] == vs[1..];
      if m + n < vs[0].len {
        assert DropVecs(d, n) == DropVecs(vs, m + n);
      }
    } else {
      DropDrop(vs[1..], m - vs[0].len, n);
    }
  }

  /** The addresses still to be transferred. */
  function Addresses(vs: seq<Vec>): seq<nat> {
    if vs == [] then [] else seq(vs[0].len, (i: nat) => vs[0].addr + i) + Addresses(vs[1..])
  }

  /** Dropping n bytes of the vectors drops the first n addresses. */
  lemma {:induction false} DropAddresses(vs: seq<Vec>, n: nat)
    requires n <= |Addresses(vs)|
    ensures Addresses(DropVecs(vs, n)) == Addresses(vs)[n..]
  {
    if vs != [] {
      var head := seq(vs[0].len, (i: nat) => vs[0].addr + i);
      if n < vs[0].len {
        var d := DropVecs(vs, n);
        assert d[1..] == vs[1..];
        assert seq(d[0].len, (i: nat) => d[0].addr + i) == head[n..];
        assert (head + Addresses(vs[1..]))[n..] == head[n..] + Addresses(vs[1..]);
      } else {
        DropAddresses(vs[1..], n - vs[0].len);
        assert (head + Addresses(vs[1..]))[n..] == Addresses(vs[1..])[n - vs[0].len..];
      }
    }
  }

  lemma {:induction false} AdvanceSane(b: Bio, n: nat, error: int)
    requires Sane(b) && b.vecs != [] && n < b.size
    ensures Sane(Advance(b, n, error)) && Advance(b, n, error).vecs != []
  {
    if n > 0 {
      DropLen(b.vecs, n);
    }
  }

  lemma {:induction false} DoneSane(bios: seq<Bio>, n: nat, error: int)
    requires AllSane(bios)
    ensures AllSane(Done(bios, n, error).bios) && (AllData(bios) ==> AllData(Done(bios, n, error).bios))
    ensures Bytes(Done(bios, n, error).bios) + Done(bios, n, error).taken == Bytes(bios)
    ensures Done(bios, n, error).taken <= n
    ensures Clean(bios, n) <==> Done(bios, n, error).taken == if n < Bytes(bios) then n else Bytes(bios)
  {
    if bios != [] {
      var b := bios[0];
      assert b in bios;
      if n >= b.size {
        DoneSane(bios[1..], n - b.size, error);
      } else if b.vecs != [] {
        AdvanceSane(b, n, error);
        var r := Done(bios, n, error).bios;
        assert r[1..] == bios[1..];
      }
    }
  }

  lemma {:induction false} DataIsClean(bios: seq<Bio>, n: nat)
    requires AllData(bios)
    ensures Clean(bios, n)
  {
    if bios != [] {
      assert bios[0] in bios;
      if n >= bios[0].size { DataIsClean(bios[1..], n - bios[0].size); }
    }
  }

  /** What is clean stays clean when a clean part of it is done. */
  lemma {:induction false} CleanLater(bios: seq<Bio>, m: nat, n: nat, error: int)
    requires AllSane(bios) && Clean(bios, m)
    ensures Clean(Done(bios, m, error).bios, n) <==> Clean(bios, m + n)
  {
    if bios != [] {
      var b := bios[0];
      assert b in bios;
      if m >= b.size {
        CleanLater(bios[1..], m - b.size, n, error);
      } else if b.vecs == [] {
        NothingDone(bios, error);
      } else {
        AdvanceSane(b, m, error);
        var mid := Done(bios, m, error).bios;
        assert mid[0] == Advance(b, m, error) && mid[1..] == bios[1..];
      }
    }
  }

  lemma {:induction false} NothingDone(bios: seq<Bio>, error: int)
    requires AllSane(bios)
    ensures Done(bios, 0, error) == Rest(bios, [], 0)
  {
    if bios != [] {
      assert bios[0] in bios;
      assert bios == [bios[0]] + bios[1..];
    }
  }

  /** Completing all bytes completes the request, data or not. */
  lemma {:induction false} AllDone(bios: seq<Bio>, n: nat, error: int)
    requires AllSane(bios)
    ensures Done(bios, n, error).bios == [] <==> n >= Bytes(bios)
  {
    if bios != [] {
      assert bios[0] in bios;
      if n >= bios[0].size { AllDone(bios[1..], n - bios[0].size, error); }
    }
  }

  /** Bios end in order, each once: the ended ones and the remaining ones are
      the chain. */
  function Ids(bios: seq<Bio>): seq<nat> { if bios == [] then [] else [bios[0].id] + Ids(bios[1..]) }

  function EndedIds(es: seq<Ended>): seq<nat> { if es == [] then [] else [es[0].id] + EndedIds(es[1..]) }

  lemma {:induction false} EndsOnce(bios: seq<Bio>, n: nat, error: int)
    ensures EndedIds(Done(bios, n, error).ended) + Ids(Done(bios, n, error).bios) == Ids(bios)
  {
    if bios != [] {
      if n >= bios[0].size {
        EndsOnce(bios[1..], n - bios[0].size, error);
        assert Done(bios, n, error).ended[1..] == Done(bios[1..], n - bios[0].size, error).ended;
      } else if bios[0].vecs != [] {
        var r := Done(bios, n, error).bios;
        assert r[1..] == bios[1..];
      }
    }
  }

  // ---------------------------------------------------------------- composition

  predicate Whole(bios: seq<Bio>) { forall b :: b in bios ==> b.size % 512 == 0 }

  /** No sector is lost when m and then n bytes are rounded down to sectors. */
  predicate NoCarry(m: nat, n: nat) { m % 512 + n % 512 < 512 }

  lemma {:induction false} SectorsAdd(m: nat, n: nat)
    ensures m / 512 + n / 512 == (m + n) / 512 <==> NoCarry(m, n)
  {
  }

  lemma {:induction false} AdvanceAdvance(b: Bio, m: nat, n: nat, error: int)
    requires Sane(b) && b.vecs != [] && m + n < b.size && NoCarry(m, n)
    ensures n < Advance(b, m, error).size && Advance(Advance(b, m, error), n, error) == Advance(b, m + n, error)
  {
    DropDrop(b.vecs, m, n);
    SectorsAdd(m, n);
  }

  /** What completing m and then n bytes has to have in common with completing m + n. */
  ghost predicate Composes(bios: seq<Bio>, m: nat, n: nat, error: int) {
    var a, c := Done(bios, m, error), Done(bios, m + n, error);
    var b := Done(a.bios, n, error);
    b.bios == c.bios && a.ended + b.ended == c.ended && a.taken + b.taken == c.taken
  }

  lemma {:induction false} ComposesLater(bios: seq<Bio>, m: nat, n: nat, error: int)
    requires bios != [] && m >= bios[0].size && Composes(bios[1..], m - bios[0].size, n, error)
    ensures Composes(bios, m, n, error)
  {
  }

  lemma {:induction false} ComposesHere(bios: seq<Bio>, m: nat, n: nat, error: int)
    requires bios != [] && m < bios[0].size && Sane(bios[0]) && bios[0].vecs != [] && NoCarry(m, n)
    ensures Composes(bios, m, n, error)
  {
    var b, mid := bios[0], Done(bios, m, error).bios;
    AdvanceSane(b, m, error);
    assert mid[0] == Advance(b, m, error) && mid[1..] == bios[1..];
    if m + n < b.size {
      AdvanceAdvance(b, m, n, error);
    }
  }

  /** Completing m and then n bytes leaves the bios and reports the ends that
      completing m + n bytes does. */
  lemma {:induction false} DoneDone(bios: seq<Bio>, m: nat, n: nat, error: int)
    requires AllSane(bios) && Clean(bios, m) && Whole(bios) && NoCarry(m, n)
    ensures Composes(bios, m, n, error)
  {
    if m == 0 {
      NothingDone(bios, error);
    } else if bios != [] {
      hide Composes, NoCarry;
      var b := bios[0];
      assert b in bios;
      if m >= b.size {
        CarryLess(b.size, m, n);
        DoneDone(bios[1..], m - b.size, n, error);
        ComposesLater(bios, m, n, error);
      } else {
        ComposesHere(bios, m, n, error);
      }
    }
  }

  /** The bytes that are missing to the end of the bio without vectors that n
      bytes end in. */
  function Missing(bios: seq<Bio>, n: nat): nat
    requires !Clean(bios, n)
  {
    if n >= bios[0].size then Missing(bios[1..], n - bios[0].size) else bios[0].size - n
  }

  lemma {:induction false} MissingClean(bios: seq<Bio>, n: nat)
    requires AllSane(bios) && !Clean(bios, n)
    ensures Missing(bios, n) > 0 && Clean(bios, n + Missing(bios, n)) && n + Missing(bios, n) <= Bytes(bios)
  {
    assert bios[0] in bios;
    if n >= bios[0].size { MissingClean(bios[1..], n - bios[0].size); }
  }

  /** The bytes that the bio without vectors swallowed are not made up for. */
  lemma {:induction false} MissingTells(bios: seq<Bio>, m: nat, error: int)
    requires AllSane(bios) && !Clean(bios, m)
    ensures !Composes(bios, m, Missing(bios, m), error)
  {
    hide Done, Clean, Missing;
    var n := Missing(bios, m);
    MissingClean(bios, m);
    DoneSane(bios, m, error);
    DoneSane(Done(bios, m, error).bios, n, error);
    DoneSane(bios, m + n, error);
  }

  /** Whole sectors compose with everything after them exactly when they are
      clean. */
  lemma {:induction false} ComposesIffClean(bios: seq<Bio>, m: nat, error: int)
    requires AllSane(bios) && Whole(bios) && m % 512 == 0
    ensures Clean(bios, m) <==> forall n: nat :: Composes(bios, m, n, error)
  {
    if Clean(bios, m) {
      forall n: nat ensures Composes(bios, m, n, error) { DoneDone(bios, m, n, error); }
    } else {
      MissingTells(bios, m, error);
    }
  }

  lemma {:induction false} CarryLess(k: nat, m: nat, n: nat)
    requires k % 512 == 0 && k <= m && NoCarry(m, n)
    ensures NoCarry(m - k, n)
  {
  }

  // ---------------------------------------------------------------- the request

  datatype Rq = Rq(bios: seq<Bio>, sector: nat, dataLen: nat)

  predicate Consistent(r: Rq) { AllSane(r.bios) && r.dataLen == Bytes(r.bios) }

  /** The bios follow each other from the position of the request. */
  predicate Positioned(bios: seq<Bio>, s: nat) {
    bios == [] || (bios[0].sector == s && Positioned(bios[1..], s + bios[0].size / 512))
  }

  /** The request after n bytes: once nothing is left its position no longer moves. */
  function Updated(r: Rq, n: nat, error: int): Rq
    requires Consistent(r)
  {
    var d := Done(r.bios, n, error);
    DoneSane(r.bios, n, error);
    if d.bios == [] then Rq([], r.sector, 0)
    else Rq(d.bios, r.sector + d.taken / 512, r.dataLen - d.taken)
  }

  lemma {:induction false} UpdatedConsistent(r: Rq, n: nat, error: int)
    requires Consistent(r)
    ensures Consistent(Updated(r, n, error)) && (AllData(r.bios) ==> AllData(Updated(r, n, error).bios))
    ensures Updated(r, n, error).bios == [] <==> n >= r.dataLen
    ensures Clean(r.bios, n) <==> Updated(r, n, error).dataLen == if n < r.dataLen then r.dataLen - n else 0
  {
    DoneSane(r.bios, n, error);
    AllDone(r.bios, n, error);
  }

  lemma {:induction false} WholeTail(bios: seq<Bio>, n: nat, error: int)
    requires AllSane(bios) && Whole(bios) && n % 512 == 0
    ensures Whole(Done(bios, n, error).bios)
  {
    if bios != [] {
      assert bios[0] in bios;
      if n >= bios[0].size {
        assert (n - bios[0].size) % 512 == 0;
        WholeTail(bios[1..], n - bios[0].size, error);
      } else {
        assert (bios[0].size - n) % 512 == 0;
      }
    }
  }

  lemma {:induction false} WholeLess(k: nat, n: nat)
    requires k % 512 == 0 && n % 512 == 0 && k <= n
    ensures (n - k) % 512 == 0
  {
  }

  /** Whole sectors done leave a request whose bios still start at its position. */
  lemma {:induction false} StaysPositioned(bios: seq<Bio>, s: nat, n: nat, error: int)
    requires AllSane(bios) && Whole(bios) && n % 512 == 0 && Positioned(bios, s)
    ensures var d := Done(bios, n, error); d.bios != [] ==> Positioned(d.bios, s + d.taken / 512)
  {
    if bios != [] {
      var b := bios[0];
      assert b in bios;
      if n >= b.size {
        WholeLess(b.size, n);
        StaysPositioned(bios[1..], s + b.size / 512, n - b.size, error);
        SectorsAdd(b.size, Done(bios[1..], n - b.size, error).taken);
      } else if b.vecs != [] {
        var r := Done(bios, n, error).bios;
        assert r[1..] == bios[1..];
        WholeLess(n, b.size);
        SectorsAdd(n, b.size - n);
      }
    }
  }

  /** Partial completion composes when the first part is clean: same bios,
      vectors, length and ends.  While bytes are left the position is the same
      too, if the sum is clean or the first part is whole sectors. */
  lemma {:induction false} UpdateComposes(r: Rq, m: nat, n: nat, error: int)
    requires Consistent(r) && Clean(r.bios, m) && Whole(r.bios) && NoCarry(m, n)
    ensures Consistent(Updated(r, m, error))
    ensures var a, b := Updated(Updated(r, m, error), n, error), Updated(r, m + n, error);
            && a.bios == b.bios && a.dataLen == b.dataLen
            && (b.bios != [] && (Clean(r.bios, m + n) || m % 512 == 0) ==> a.sector == b.sector)
    ensures Done(r.bios, m, error).ended + Done(Updated(r, m, error).bios, n, error).ended ==
              Done(r.bios, m + n, error).ended
  {
    hide Done, Clean;
    UpdatedConsistent(r, m, error);
    UpdatedConsistent(r, m + n, error);
    DoneDone(r.bios, m, n, error);
    DoneSane(r.bios, m, error);
    DoneSane(Done(r.bios, m, error).bios, n, error);
    DoneSane(r.bios, m + n, error);
    CleanLater(r.bios, m, n, error);
    SectorsAdd(m, Done(Done(r.bios, m, error).bios, n, error).taken);
    WholeFirst(m, Done(Done(r.bios, m, error).bios, n, error).taken);
  }

  lemma {:induction false} WholeFirst(m: nat, k: nat)
    ensures m % 512 == 0 ==> NoCarry(m, k)
  {
  }

  /** Half sectors that add up are lost to the position. */
  lemma {:induction false} PositionDrifts(r: Rq, m: nat, n: nat, error: int)
    requires Consistent(r) && Clean(r.bios, m) && Clean(r.bios, m + n) && m + n < r.dataLen
    ensures Consistent(Updated(r, m, error))
    ensures Updated(Updated(r, m, error), n, error).sector == Updated(r, m + n, error).sector <==> NoCarry(m, n)
  {
    hide Done, Clean;
    UpdatedConsistent(r, m, error);
    var mid := Updated(r, m, error);
    UpdatedConsistent(mid, n, error);
    UpdatedConsistent(r, m + n, error);
    DoneSane(r.bios, m, error);
    DoneSane(mid.bios, n, error);
    DoneSane(r.bios, m + n, error);
    CleanLater(r.bios, m, n, error);
    SectorsAdd(m, n);
  }

  // ---------------------------------------------------------------- any number of calls

  function Sum(ns: seq<nat>): nat { if ns == [] then 0 else ns[0] + Sum(ns[1..]) }

  function Calls(r: Rq, ns: seq<nat>, error: int): Rq
    requires Consistent(r)
    decreases |ns|
  {
    if ns == [] then r else UpdatedConsistent(r, ns[0], error); Calls(Updated(r, ns[0], error), ns[1..], error)
  }

  function CallsEnded(r: Rq, ns: seq<nat>, error: int): seq<Ended>
    requires Consistent(r)
    decreases |ns|
  {
    if ns == [] then []
    else UpdatedConsistent(r, ns[0], error);
         Done(r.bios, ns[0], error).ended + CallsEnded(Updated(r, ns[0], error), ns[1..], error)
  }

  /** With `before` bytes done, every call but the last ends cleanly. */
  predicate CleanSums(bios: seq<Bio>, before: nat, ns: seq<nat>)
    decreases |ns|
  {
    ns == [] || (Clean(bios, before) && CleanSums(bios, before + ns[0], ns[1..]))
  }

  lemma {:induction false} CleanSumsLater(bios: seq<Bio>, m: nat, before: nat, ns: seq<nat>, error: int)
    requires AllSane(bios) && Clean(bios, m) && CleanSums(bios, m + before, ns)
    ensures CleanSums(Done(bios, m, error).bios, before, ns)
    decreases |ns|
  {
    hide Clean, Done;
    if ns != [] {
      CleanLater(bios, m, before, error);
      CleanSumsLater(bios, m, before + ns[0], ns[1..], error);
    }
  }

  /** However a driver slices its completions, in whole sectors and cleanly, the
      effect is that of the sum. */
  lemma {:induction false} CallsAddUp(r: Rq, ns: seq<nat>, error: int)
    requires Consistent(r) && Whole(r.bios) && (forall n :: n in ns ==> n % 512 == 0) && CleanSums(r.bios, 0, ns)
    ensures Calls(r, ns, error).bios == Done(r.bios, Sum(ns), error).bios
    ensures CallsEnded(r, ns, error) == Done(r.bios, Sum(ns), error).ended
    decreases |ns|
  {
    hide Done, Clean, Sane, Bytes, Len;
    if ns == [] {
      NothingDone(r.bios, error);
    } else {
      var n, rest := ns[0], ns[1..];
      assert n in ns && forall x :: x in rest ==> x in ns;
      var mid := Updated(r, n, error);
      UpdatedConsistent(r, n, error);
      WholeTail(r.bios, n, error);
      if rest == [] {
        assert ns == [n] && Sum(ns) == n;
        assert Calls(mid, rest, error) == mid && CallsEnded(mid, rest, error) == [];
      } else {
        CleanSumsLater(r.bios, n, 0, rest, error);
        CallsAddUp(mid, rest, error);
        DoneDone(r.bios, n, Sum(rest), error);
      }
    }
  }

  /** In particular every bio ends exactly once when the sum is the length. */
  lemma {:induction false} AllEndOnce(r: Rq, ns: seq<nat>, error: int)
    requires Consistent(r) && Whole(r.bios) && (forall n :: n in ns ==> n % 512 == 0) && CleanSums(r.bios, 0, ns)
             && Sum(ns) >= r.dataLen
    ensures Calls(r, ns, error).bios == [] && EndedIds(CallsEnded(r, ns, error)) == Ids(r.bios)
  {
    CallsAddUp(r, ns, error);
    AllDone(r.bios, Sum(ns), error);
    EndsOnce(r.bios, Sum(ns), error);
  }

  /** With data in every bio, every call ends cleanly. */
  lemma {:induction false} DataSumsClean(bios: seq<Bio>, before: nat, ns: seq<nat>)
    requires AllData(bios)
    ensures CleanSums(bios, before, ns)
    decreases |ns|
  {
    DataIsClean(bios, before);
    if ns != [] { DataSumsClean(bios, before + ns[0], ns[1..]); }
  }

  /** Without vectors there is no partial completion: m bytes short of a
      discard do nothing, so m and then n bytes end it exactly when n alone does. */
  lemma {:induction false} DiscardSticks(b: Bio, m: nat, n: nat, error: int)
    requires Sane(b) && b.vecs == [] && m < b.size
    ensures Done([b], m, error) == Rest([b], [], 0)
    ensures Done(Done([b], m, error).bios, n, error).bios == [] <==> n >= b.size
  {
  }

  /** A bio that failed in part fails as a whole. */
  lemma {:induction false} PartFailureSticks(b: Bio, m: nat, error: int, later: int)
    requires 0 < m < b.size && error != 0
    ensures EndCode(Advance(b, m, error), later) != 0
  {
  }

  // ---------------------------------------------------------------- the code

  lemma {:induction false} LenSplit(vs: seq<Vec>, k: nat)
    requires k < |vs|
    ensures Len(vs[..k + 1]) == Len(vs[..k]) + vs[k].len
    ensures Len(vs[..k]) + Len(vs[k..]) == Len(vs)
  {
    if k == 0 {
      assert vs[..1][1..] == [];
      assert vs[0..] == vs;
    } else {
      LenSplit(vs[1..], k - 1);
      assert vs[..k + 1][1..] == vs[1..][..k] && vs[..k][1..] == vs[1..][..k - 1] && vs[1..][k - 1..] == vs[k..];
    }
  }

  /** Dropping whole vectors and a part of the next one. */
  lemma {:induction false} DropAt(vs: seq<Vec>, k: nat, n: nat)
    requires k < |vs| && n < vs[k].len && forall v :: v in vs ==> v.len > 0
    ensures DropVecs(vs, Len(vs[..k]) + n) == [Vec(vs[k].addr + n, vs[k].len - n)] + vs[k + 1..]
  {
    if k > 0 {
      DropAt(vs[1..], k - 1, n);
      assert vs[..k][1..] == vs[1..][..k - 1];
    }
  }

  /** The variables of the loop: of the first bio, nextIdx vectors with
      bioBytes bytes are counted; left bytes are still to be counted. */
  datatype Cursor = Cursor(nextIdx: nat, bioBytes: nat, left: nat, total: nat)

  /** The head of the loop, where es have ended and d is what shall come out. */
  ghost predicate Going(d: Rest, es: seq<Ended>, bios: seq<Bio>, c: Cursor, error: int) {
    var r := Done(bios, c.left + c.bioBytes, error);
    && AllSane(bios) && c.bioBytes <= c.total && d == Rest(r.bios, es + r.ended, c.total - c.bioBytes + r.taken)
    && (bios == [] ==> c.bioBytes == 0)
    && (bios != [] ==>
          && c.nextIdx <= |bios[0].vecs| && c.bioBytes == Len(bios[0].vecs[..c.nextIdx])
          && (c.nextIdx > 0 ==> c.left + c.bioBytes < bios[0].size))
  }

  /** What is left to do after the loop. */
  ghost predicate Stopped(d: Rest, es: seq<Ended>, bios: seq<Bio>, c: Cursor, error: int) {
    && AllSane(bios) && d.ended == es && d.taken == c.total
    && (c.bioBytes > 0 ==>
          && bios != [] && c.bioBytes < bios[0].size && c.nextIdx < |bios[0].vecs|
          && c.left < bios[0].vecs[c.nextIdx].len
          && c.bioBytes == Len(bios[0].vecs[..c.nextIdx]) + c.left)
    && d.bios == if c.bioBytes == 0 then bios else [Advance(bios[0], c.bioBytes, error)] + bios[1..]
  }

  lemma {:induction false} StartsGoing(bios: seq<Bio>, n: nat, error: int)
    requires AllSane(bios)
    ensures Going(Done(bios, n, error), [], bios, Cursor(0, 0, n, 0), error)
  {
  }

  lemma {:induction false} FinishBio(d: Rest, es: seq<Ended>, bios: seq<Bio>, c: Cursor, error: int)
    requires bios != [] && Going(d, es, bios, c, error) && c.left >= bios[0].size
    ensures bios[0].size > 0
    ensures Going(d, es + [Ended(bios[0].id, EndCode(bios[0], error))], bios[1..],
                  Cursor(0, 0, c.left - bios[0].size, c.total + bios[0].size), error)
  {
    assert bios[0] in bios;
    var e, r := Ended(bios[0].id, EndCode(bios[0], error)), Done(bios[1..], c.left - bios[0].size, error);
    assert es + ([e] + r.ended) == es + [e] + r.ended;
  }

  lemma {:induction false} NextVec(d: Rest, es: seq<Ended>, bios: seq<Bio>, c: Cursor, error: int)
    requires bios != [] && Going(d, es, bios, c, error) && c.left < bios[0].size
    requires c.nextIdx < |bios[0].vecs| && bios[0].vecs[c.nextIdx].len <= c.left
    ensures var k := bios[0].vecs[c.nextIdx].len;
            k > 0 && Going(d, es, bios, Cursor(c.nextIdx + 1, c.bioBytes + k, c.left - k, c.total + k), error)
  {
    LenSplit(bios[0].vecs, c.nextIdx);
    assert bios[0] in bios && bios[0].vecs[c.nextIdx] in bios[0].vecs;
  }

  /** Out of vectors only when there were none. */
  lemma {:induction false} HasVec(d: Rest, es: seq<Ended>, bios: seq<Bio>, c: Cursor, error: int)
    requires bios != [] && Going(d, es, bios, c, error) && c.left < bios[0].size
    ensures c.nextIdx < |bios[0].vecs| || (bios[0].vecs == [] && c.bioBytes == 0)
    ensures c.left + c.bioBytes < bios[0].size
  {
    var b := bios[0];
    assert b in bios;
    if c.nextIdx == |b.vecs| {
      assert b.vecs[..c.nextIdx] == b.vecs;
    }
  }

  /** Stopping inside the vector nextIdx, of which left bytes are done. */
  lemma {:induction false} StopInside(d: Rest, es: seq<Ended>, bios: seq<Bio>, c: Cursor, error: int)
    requires bios != [] && Going(d, es, bios, c, error) && c.left < bios[0].size
    requires c.nextIdx < |bios[0].vecs| && c.left < bios[0].vecs[c.nextIdx].len
    ensures Stopped(d, es, bios, c.(bioBytes := c.bioBytes + c.left, total := c.total + c.left), error)
  {
  }

  /** Stopping in front of a bio without vectors. */
  lemma {:induction false} StopStuck(d: Rest, es: seq<Ended>, bios: seq<Bio>, c: Cursor, error: int)
    requires bios != [] && Going(d, es, bios, c, error) && c.left < bios[0].size && bios[0].vecs == []
    ensures Stopped(d, es, bios, c, error) && c.bioBytes == 0
  {
  }

  /** Stopping because no bytes are left, or no bios. */
  lemma {:induction false} StopBetween(d: Rest, es: seq<Ended>, bios: seq<Bio>, c: Cursor, error: int)
    requires Going(d, es, bios, c, error) && (bios == [] || c.left == 0)
    ensures Stopped(d, es, bios, c, error)
  {
    assert es + [] == es;
    if bios != [] {
      assert bios[0] in bios;
      HasVec(d, es, bios, c, error);
      if bios[0].vecs == [] {
        StopStuck(d, es, bios, c, error);
      } else {
        assert bios[0].vecs[c.nextIdx] in bios[0].vecs;
        StopInside(d, es, bios, c, error);
      }
    }
  }

  lemma {:induction false} StoppedEnds(d: Rest, es: seq<Ended>, bios: seq<Bio>, c: Cursor, error: int)
    requires Stopped(d, es, bios, c, error)
    ensures es == d.ended
  {
  }

  class Request {
    var bios: seq<Bio>
    var sector: nat
    var dataLen: int
    var ended: seq<Ended>

    constructor (r: Rq)
      ensures bios == r.bios && sector == r.sector && dataLen == r.dataLen && ended == []
    {
      bios, sector, dataLen, ended := r.bios, r.sector, r.dataLen, [];
    }

    predicate Valid()
      reads this
    {
      dataLen >= 0 && Consistent(Rq(bios, sector, dataLen))
    }

    /** req_bio_endio. */
    method EndIo(b: Bio, nbytes: nat, error: int) returns (c: Bio)
      requires 0 < nbytes <= b.size
      modifies this`ended
      ensures c == b.(size := b.size - nbytes, sector := b.sector + nbytes / 512, upToDate := b.upToDate && error == 0)
      ensures ended == old(ended) + if nbytes == b.size then [Ended(b.id, EndCode(b, error))] else []
    {
      c := b;
      var code := error;
      if error != 0 {
        c := c.(upToDate := false);
      } else if !b.upToDate {
        code := EIO;
      }
      c := c.(size := c.size - nbytes);
      c := c.(sector := c.sector + nbytes / 512);
      if c.size == 0 {
        ended := ended + [Ended(c.id, code)];
      }
    }

    /** One turn of the loop of blk_update_request. */
    method Turn(c: Cursor, error: int, ghost d: Rest, ghost es: seq<Ended>)
      returns (c': Cursor, stop: bool, stuck: bool, ghost es': seq<Ended>)
      requires bios != [] && Going(d, es, bios, c, error)
      modifies this`bios, this`ended
      ensures ended == old(ended) + es'
      ensures if stop then Stopped(d, es + es', bios, c', error) else Going(d, es + es', bios, c', error)
      ensures stop && stuck ==> bios != [] && bios[0].vecs == [] && c'.bioBytes == 0
      ensures !stop ==> bios == old(bios[1..]) || (bios == old(bios) && c'.left < c.left)
      ensures bios == [] ==> !stop
      ensures !stop ==> c'.left + c'.total == c.left + c.total && (bios == [] || c'.left > 0)
      ensures stop ==> if stuck then c' == c else c'.total == c.left + c.total
    {
      hide Going, Stopped, Sane, Len;
      stop, stuck, es' := false, false, [];
      assert es + [] == es;
      var bio := bios[0];
      if c.left >= bio.size {
        FinishBio(d, es, bios, c, error);
        es' := [Ended(bio.id, EndCode(bio, error))];
        bios := bios[1..];
        var _ := EndIo(bio, bio.size, error);
        c' := Cursor(0, 0, c.left - bio.size, c.total + bio.size);
      } else {
        HasVec(d, es, bios, c, error);
        if c.nextIdx >= |bio.vecs| {
          StopStuck(d, es, bios, c, error);
          return c, true, true, [];
        }
        var nbytes := bio.vecs[c.nextIdx].len;
        if nbytes > c.left {
          StopInside(d, es, bios, c, error);
          return c.(bioBytes := c.bioBytes + c.left, total := c.total + c.left), true, false, [];
        }
        NextVec(d, es, bios, c, error);
        c' := Cursor(c.nextIdx + 1, c.bioBytes + nbytes, c.left - nbytes, c.total + nbytes);
      }
      if bios != [] && c'.left <= 0 {
        StopBetween(d, es + es', bios, c', error);
        stop := true;
      }
    }

    /** The loop: it drops finished bios and stops at the first vector that is
        not done. */
    method Scan(n: nat, error: int) returns (c: Cursor, stuck: bool)
      requires AllSane(bios)
      modifies this`bios, this`ended
      ensures stuck ==> bios != [] && bios[0].vecs == [] && c.bioBytes == 0 && (n == 0 || c.total < n)
      ensures stuck || bios == [] || c.total == n
      ensures Stopped(Done(old(bios), n, error), Done(old(bios), n, error).ended, bios, c, error)
      ensures ended == old(ended) + Done(old(bios), n, error).ended
    {
      hide Going, Stopped, Done, AllSane;
      ghost var d, es := Done(bios, n, error), [];
      c, stuck := Cursor(0, 0, n, 0), false;
      StartsGoing(bios, n, error);
      var stop := false;
      while bios != [] && !stop
        invariant if stop then Stopped(d, es, bios, c, error) else Going(d, es, bios, c, error)
        invariant if stop then if stuck then n == 0 || c.total < n else c.total == n
                  else c.left + c.total == n && (bios == [] || c.left > 0 || n == 0)
        invariant ended == old(ended) + es && (stuck ==> stop && bios != [] && bios[0].vecs == [] && c.bioBytes == 0)
        decreases !stop, |bios|, c.left
      {
        ghost var more;
        c, stop, stuck, more := Turn(c, error, d, es);
        stuck := stop && stuck;
        es := es + more;
      }
      if !stop {
        StopBetween(d, es, bios, c, error);
      }
      StoppedEnds(d, es, bios, c, error);
    }

    /** The bio the loop stopped in, brought up to date. */
    method Trim(k: Cursor, error: int) returns (c: Bio)
      requires bios != [] && Sane(bios[0]) && 0 < k.bioBytes < bios[0].size
      requires k.nextIdx < |bios[0].vecs| && k.left < bios[0].vecs[k.nextIdx].len
               && k.bioBytes == Len(bios[0].vecs[..k.nextIdx]) + k.left
      modifies this`ended
      ensures c == Advance(bios[0], k.bioBytes, error) && ended == old(ended)
    {
      c := EndIo(bios[0], k.bioBytes, error);
      var v := c.vecs[k.nextIdx];
      c := c.(vecs := [Vec(v.addr + k.left, v.len - k.left)] + c.vecs[k.nextIdx + 1..]);
      DropAt(bios[0].vecs, k.nextIdx, k.left);
    }

    /** blk_update_request.  It is proved here that the request is never found
        botched, that the loop misses a vector exactly when the bytes end inside a
        bio that has none, and that completing all bytes completes the request. */
    method Update(n: nat, error: int) returns (more: bool, stuck: bool, botched: bool)
      requires Valid()
      modifies this
      ensures Valid() && !botched && (AllData(old(bios)) ==> !stuck)
      ensures n > 0 ==> (stuck <==> !Clean(old(bios), n))
      ensures Rq(bios, sector, dataLen) == Updated(Rq(old(bios), old(sector), old(dataLen)), n, error)
      ensures ended == old(ended) + Done(old(bios), n, error).ended
      ensures more == (bios != []) && (n >= old(dataLen) ==> !more)
    {
      ghost var r, d := Rq(bios, sector, dataLen), Done(bios, n, error);
      UpdatedConsistent(r, n, error);
      DoneSane(bios, n, error);
      more, stuck, botched := false, false, false;
      if bios == [] {
        return;
      }
      var k;
      k, stuck := Scan(n, error);
      AllDone(old(bios), n, error);
      if bios == [] {
        dataLen := 0;
        return;
      }
      if k.bioBytes > 0 {
        assert bios[0] in bios;
        var c := Trim(k, error);
        bios := [c] + bios[1..];
      }
      assert bios == d.bios && bios[0] in bios;
      var len := dataLen - k.total;
      sector := sector + k.total / 512;
      var current := if bios[0].vecs == [] then bios[0].size else bios[0].vecs[0].len;
      if len < current {
        botched := true;
        len := current;
      }
      dataLen := len;
      more := true;
    }
  }
}
