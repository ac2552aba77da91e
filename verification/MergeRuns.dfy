/** Merging conserves I/O: invariants over every run of submissions and merges. */
module MergeRuns {
  import opened Segments
  import opened Merging
  import opened MergeBound

  // ---------------------------------------------------------------- runs

  datatype Neighbour = Nobody | At(index: nat)

  /** What can happen to the requests of a queue.  Which request a bio meets,
      and which neighbour is offered afterwards, is up to the scheduler. */
  datatype Step =
    | Submit(bio: Bio, barrier: bool)
    | Merge(back: bool, i: nat, bio: Bio, other: Neighbour)
    | Flag(i: nat, noMerge: bool)

  /** All live requests, and every bio ever submitted, without its segment cache. */
  datatype State = State(rqs: seq<Rq>, submitted: multiset<Bio>)

  function Strip(b: Bio): Bio { b.(valid := false, segs := 0, front := 0, back := 0) }

  /** init_request_from_bio. */
  function NewRq(q: Queue, b: Bio, barrier: bool): Rq {
    Rq([Recount(q, b)], b.kind, b.sector, b.size, Recount(q, b).segs, false, barrier, false)
  }

  function Remove(rqs: seq<Rq>, j: nat): seq<Rq>
    requires j < |rqs|
  {
    rqs[..j] + rqs[j + 1..]
  }

  /** attempt_merge on two requests of the list: rqs[i] takes the bios of
      rqs[j].  When it reads a missing vector, nothing has been written yet. */
  function Absorb(q: Queue, rqs: seq<Rq>, i: nat, j: nat): seq<Rq>
    requires i < |rqs| && j < |rqs| && i != j && rqs[i].bios != [] && rqs[j].bios != []
  {
    match AttemptMerge(q, rqs[i], rqs[j])
    case Faults => rqs
    case Joint(ok, rq, next) => if ok then Remove(rqs[i := rq], j) else rqs[i := rq][j := next]
  }

  /** The request after a bio was added to it, and the bio as it is then. */
  function Grown(q: Queue, r: Rq, s: Step): Verdict
    requires r.bios != [] && s.Merge?
  {
    var v := if s.back then BackMergeFn(q, r, s.bio) else FrontMergeFn(q, r, s.bio);
    if !v.ok then v
    else v.(rq := if s.back then AddBack(v.rq, v.bio) else AddFront(v.rq, v.bio))
  }

  /** The two requests of the second merge, first the one that stays. */
  function Pair(s: Step): (p: (nat, nat))
    requires Offered(s)
  {
    if s.back then (s.i, s.other.index) else (s.other.index, s.i)
  }

  predicate Offered(s: Step) { s.Merge? && s.other.At? }

  predicate Enabled(q: Queue, st: State, s: Step) {
    match s
    case Submit(b, _) => true
    case Flag(i, _) => i < |st.rqs|
    case Merge(_, _, _, _) =>
      && s.i < |st.rqs| && st.rqs[s.i].bios != [] && MergeOk(st.rqs[s.i], s.bio)
      && (if s.back then End(st.rqs[s.i]) == s.bio.sector else s.bio.sector + Sectors(s.bio.size) == st.rqs[s.i].sector)
      && (Offered(s) ==>
            var (a, b) := Pair(s);
            var v := Grown(q, st.rqs[s.i], s);
            a < |st.rqs| && b < |st.rqs| && a != b && st.rqs[a].bios != [] && st.rqs[b].bios != [] && v.rq.bios != [])
  }

  function Apply(q: Queue, st: State, s: Step): State
    requires Enabled(q, st, s)
  {
    match s
    case Submit(b, barrier) => State(st.rqs + [NewRq(q, b, barrier)], st.submitted + multiset{Strip(b)})
    case Flag(i, on) => st.(rqs := st.rqs[i := st.rqs[i].(noMerge := on)])
    case Merge(_, _, _, _) =>
      var v := Grown(q, st.rqs[s.i], s);
      var rqs := st.rqs[s.i := v.rq];
      var after :=
        if !v.ok then rqs + [NewRq(q, v.bio, false)]
        else if Offered(s) then var (a, b) := Pair(s); Absorb(q, rqs, a, b)
        else rqs;
      State(after, st.submitted + multiset{Strip(s.bio)})
  }

  // ---------------------------------------------------------------- what a request holds

  function Stripped(bios: seq<Bio>): (r: seq<Bio>)
    ensures |r| == |bios| && forall i :: 0 <= i < |r| ==> r[i] == Strip(bios[i])
  {
    seq(|bios|, i requires 0 <= i < |bios| => Strip(bios[i]))
  }

  function Bytes(bios: seq<Bio>): nat { if bios == [] then 0 else Bytes(bios[..|bios| - 1]) + bios[|bios| - 1].size }

  /** One ascending run of sectors from s, without a gap. */
  predicate Gapless(bios: seq<Bio>, s: nat) {
    bios == [] || (Gapless(bios[..|bios| - 1], s) && bios[|bios| - 1].sector == s + Sectors(Bytes(bios[..|bios| - 1])))
  }

  /** Sizes come in whole sectors. */
  predicate Whole(bios: seq<Bio>) { forall b :: b in bios ==> b.size % 512 == 0 }

  /** The shape of a chain: a gapless run from sector of dataLen bytes. */
  ghost predicate Shape(bios: seq<Bio>, sector: nat, dataLen: nat) {
    bios != [] && Gapless(bios, sector) && Bytes(bios) == dataLen && Whole(bios)
  }

  ghost predicate RqOk(q: Queue, r: Rq) {
    Shape(Stripped(r.bios), r.sector, r.dataLen) && (|r.bios| > 1 ==> Sectors(r.dataLen) <= q.maxSectors)
  }

  lemma {:induction false} BytesJoin(a: seq<Bio>, b: seq<Bio>)
    ensures Bytes(a + b) == Bytes(a) + Bytes(b)
  {
    if b == [] {
      assert a + b == a;
    } else {
      BytesJoin(a, b[..|b| - 1]);
      assert (a + b)[..|a + b| - 1] == a + b[..|b| - 1];
    }
  }

  lemma {:induction false} BytesWhole(a: seq<Bio>)
    requires Whole(a)
    ensures Bytes(a) % 512 == 0
  {
    if a != [] {
      assert a[|a| - 1] in a;
      assert forall b :: b in a[..|a| - 1] ==> b in a;
      BytesWhole(a[..|a| - 1]);
    }
  }

  lemma {:induction false} SectorsAdd(m: nat, n: nat)
    requires m % 512 == 0
    ensures Sectors(m + n) == Sectors(m) + Sectors(n)
  {
  }

  /** Two runs that meet are one run. */
  lemma {:induction false} GaplessJoin(a: seq<Bio>, b: seq<Bio>, s: nat)
    requires Whole(a) && Gapless(a, s) && Gapless(b, s + Sectors(Bytes(a)))
    ensures Gapless(a + b, s)
  {
    if b == [] {
      assert a + b == a;
    } else {
      var n := |b| - 1;
      GaplessJoin(a, b[..n], s);
      assert (a + b)[..|a + b| - 1] == a + b[..n];
      BytesJoin(a, b[..n]);
      BytesWhole(a);
      SectorsAdd(Bytes(a), Bytes(b[..n]));
    }
  }

  lemma {:induction false} ShapeJoin(a: seq<Bio>, s: nat, m: nat, b: seq<Bio>, n: nat)
    requires Shape(a, s, m) && Shape(b, s + Sectors(m), n)
    ensures Shape(a + b, s, m + n) && Sectors(m + n) == Sectors(m) + Sectors(n)
  {
    hide Gapless, Bytes, Sectors;
    GaplessJoin(a, b, s);
    BytesJoin(a, b);
    BytesWhole(a);
    SectorsAdd(m, n);
  }

  lemma {:induction false} ShapeOne(b: Bio)
    requires b.size % 512 == 0
    ensures Shape([b], b.sector, b.size)
  {
  }

  lemma {:induction false} StripJoin(a: seq<Bio>, b: seq<Bio>)
    ensures Stripped(a + b) == Stripped(a) + Stripped(b)
  {
  }

  lemma {:induction false} StripRecount(q: Queue, bios: seq<Bio>, i: nat)
    requires i < |bios|
    ensures Stripped(RecountAt(q, bios, i)) == Stripped(bios) && Strip(Recount(q, bios[i])) == Strip(bios[i])
  {
  }

  // ---------------------------------------------------------------- one request

  /** What the limit checks leave alone. */
  ghost predicate OnlyCaches(r: Rq, r1: Rq) {
    Stripped(r1.bios) == Stripped(r.bios) && r1.sector == r.sector && r1.dataLen == r.dataLen
  }

  lemma {:induction false} ChecksOnly(q: Queue, r: Rq, b: Bio, v: Verdict)
    requires r.bios != [] && (v == BackMergeFn(q, r, b) || v == FrontMergeFn(q, r, b))
    ensures OnlyCaches(r, v.rq) && Strip(v.bio) == Strip(b) && v.bio.size == b.size && v.bio.sector == b.sector
    ensures v.ok ==> Sectors(r.dataLen) + Sectors(b.size) <= q.maxSectors
  {
    hide Sectors, Recount, RecountAt, Strip;
    StripRecount(q, [b], 0);
    StripRecount(q, r.bios, |r.bios| - 1);
    StripRecount(q, r.bios, 0);
    StripKeeps(b);
    StripKeeps(v.bio);
  }

  lemma {:induction false} JointOnly(q: Queue, r: Rq, n: Rq)
    requires r.bios != [] && n.bios != [] && MergeRequestsFn(q, r, n).Joint?
    ensures var j := MergeRequestsFn(q, r, n);
            OnlyCaches(r, j.rq) && OnlyCaches(n, j.next)
            && (j.ok ==> Sectors(r.dataLen) + Sectors(n.dataLen) <= q.maxSectors)
  {
    hide Sectors, PhysContig;
    var size := r.bios[|r.bios| - 1].back + n.bios[0].front;
    assert Stripped(WithFront(r.bios, size)) == Stripped(r.bios);
    assert Stripped(WithBack(n.bios, size)) == Stripped(n.bios);
  }

  /** Adding a bio: accepted, the run grows by it; refused, nothing moves. */
  lemma {:induction false} GrownOk(q: Queue, r: Rq, s: Step)
    requires RqOk(q, r) && r.bios != [] && s.Merge? && s.bio.size % 512 == 0
    requires if s.back then End(r) == s.bio.sector else s.bio.sector + Sectors(s.bio.size) == r.sector
    ensures var v := Grown(q, r, s);
            && RqOk(q, v.rq) && Strip(v.bio) == Strip(s.bio)
            && Stripped(v.rq.bios) == if !v.ok then Stripped(r.bios)
                                      else if s.back then Stripped(r.bios) + [Strip(s.bio)]
                                      else [Strip(s.bio)] + Stripped(r.bios)
  {
    hide BackMergeFn, FrontMergeFn, Gapless, Bytes, Sectors, Shape, Strip;
    var x, v := Strip(s.bio), if s.back then BackMergeFn(q, r, s.bio) else FrontMergeFn(q, r, s.bio);
    ChecksOnly(q, r, s.bio, v);
    StripKeeps(s.bio);
    ShapeOne(x);
    assert Stripped([v.bio]) == [x];
    if s.back {
      ShapeJoin(Stripped(r.bios), r.sector, r.dataLen, [x], x.size);
      StripJoin(v.rq.bios, [v.bio]);
    } else {
      ShapeJoin([x], x.sector, x.size, Stripped(r.bios), r.dataLen);
      StripJoin([v.bio], v.rq.bios);
    }
  }

  lemma {:induction false} StripKeeps(b: Bio)
    ensures Strip(b).size == b.size && Strip(b).sector == b.sector
  {
  }

  /** Merging two requests: accepted, one run holds both; refused, nothing moves. */
  lemma {:induction false} AttemptOk(q: Queue, r: Rq, n: Rq)
    requires RqOk(q, r) && RqOk(q, n) && r.bios != [] && n.bios != []
    ensures var j := AttemptMerge(q, r, n);
            j.Joint? ==>
              && RqOk(q, j.rq)
              && (j.ok ==> Stripped(j.rq.bios) == Stripped(r.bios) + Stripped(n.bios))
              && (!j.ok ==>
                    RqOk(q, j.next) && Stripped(j.rq.bios) == Stripped(r.bios)
                    && Stripped(j.next.bios) == Stripped(n.bios))
  {
    hide Gapless, Bytes, Sectors, Shape, MergeRequestsFn, Stripped;
    if AttemptMerge(q, r, n).Joint? && Mergeable(r) && Mergeable(n)
       && End(r) == n.sector && r.kind == n.kind && !n.special {
      JointOnly(q, r, n);
      var m := MergeRequestsFn(q, r, n);
      StripJoin(m.rq.bios, m.next.bios);
      if m.ok {
        ShapeJoin(Stripped(r.bios), r.sector, r.dataLen, Stripped(n.bios), n.dataLen);
      }
    }
  }

  // ---------------------------------------------------------------- all requests

  function Content(r: Rq): multiset<Bio> { multiset(Stripped(r.bios)) }

  function Held(rqs: seq<Rq>): multiset<Bio> {
    if rqs == [] then multiset{} else Held(rqs[..|rqs| - 1]) + Content(rqs[|rqs| - 1])
  }

  lemma {:induction false} HeldJoin(a: seq<Rq>, b: seq<Rq>)
    ensures Held(a + b) == Held(a) + Held(b)
  {
    hide Content;
    if b == [] {
      assert a + b == a;
    } else {
      HeldJoin(a, b[..|b| - 1]);
      assert (a + b)[..|a + b| - 1] == a + b[..|b| - 1];
    }
  }

  lemma {:induction false} HeldOne(r: Rq)
    ensures Held([r]) == Content(r)
  {
  }

  lemma {:induction false} HeldSplit(rqs: seq<Rq>, i: nat)
    requires i < |rqs|
    ensures Held(rqs) == Held(rqs[..i]) + Content(rqs[i]) + Held(rqs[i + 1..])
    ensures Held(Remove(rqs, i)) == Held(rqs[..i]) + Held(rqs[i + 1..])
  {
    hide Held, Content;
    HeldJoin(rqs[..i], [rqs[i]]);
    HeldJoin(rqs[..i] + [rqs[i]], rqs[i + 1..]);
    HeldOne(rqs[i]);
    assert rqs == rqs[..i] + [rqs[i]] + rqs[i + 1..];
    HeldJoin(rqs[..i], rqs[i + 1..]);
  }

  lemma {:induction false} HeldUpdate(rqs: seq<Rq>, i: nat, r: Rq)
    requires i < |rqs|
    ensures Held(rqs[i := r]) + Content(rqs[i]) == Held(rqs) + Content(r)
  {
    hide Held, Content;
    HeldSplit(rqs, i);
    HeldSplit(rqs[i := r], i);
    assert rqs[i := r][..i] == rqs[..i] && rqs[i := r][i + 1..] == rqs[i + 1..];
  }

  ghost predicate Inv(q: Queue, st: State) {
    (forall r :: r in st.rqs ==> RqOk(q, r)) && Held(st.rqs) == st.submitted
  }

  /** A request list update, with a new request of the same kind. */
  lemma {:induction false} UpdateKeeps(q: Queue, rqs: seq<Rq>, i: nat, r: Rq)
    requires i < |rqs| && (forall x :: x in rqs ==> RqOk(q, x)) && RqOk(q, r)
    ensures forall x :: x in rqs[i := r] ==> RqOk(q, x)
  {
  }

  lemma {:induction false} RemoveIn(rqs: seq<Rq>, j: nat)
    requires j < |rqs|
    ensures forall x :: x in Remove(rqs, j) ==> x in rqs
  {
  }

  lemma {:induction false} ContentIs(r: Rq, a: Rq, b: Rq)
    requires Stripped(r.bios) == Stripped(a.bios) + Stripped(b.bios)
    ensures Content(r) == Content(a) + Content(b)
  {
  }

  /** A neighbour absorbed or refused: every bio is still held once. */
  lemma {:induction false} AbsorbKeeps(q: Queue, rqs: seq<Rq>, i: nat, j: nat)
    requires i < |rqs| && j < |rqs| && i != j && rqs[i].bios != [] && rqs[j].bios != []
    requires forall r :: r in rqs ==> RqOk(q, r)
    ensures Held(Absorb(q, rqs, i, j)) == Held(rqs)
    ensures forall r :: r in Absorb(q, rqs, i, j) ==> RqOk(q, r)
  {
    hide Held, RqOk, AttemptMerge, Stripped, Content, Remove;
    assert rqs[i] in rqs && rqs[j] in rqs;
    AttemptOk(q, rqs[i], rqs[j]);
    var a := AttemptMerge(q, rqs[i], rqs[j]);
    if a.Faults? { return; }
    var mid := rqs[i := a.rq];
    HeldUpdate(rqs, i, a.rq);
    UpdateKeeps(q, rqs, i, a.rq);
    if a.ok {
      ContentIs(a.rq, rqs[i], rqs[j]);
      HeldSplit(mid, j);
      RemoveIn(mid, j);
      Cancel(Held(Remove(mid, j)), Held(rqs), Content(rqs[i]) + Content(rqs[j]));
    } else {
      SameContent(a.rq, rqs[i]);
      SameContent(a.next, rqs[j]);
      Cancel(Held(mid), Held(rqs), Content(rqs[i]));
      HeldUpdate(mid, j, a.next);
      UpdateKeeps(q, mid, j, a.next);
      Cancel(Held(mid[j := a.next]), Held(mid), Content(rqs[j]));
    }
  }

  lemma {:induction false} Cancel(a: multiset<Bio>, b: multiset<Bio>, c: multiset<Bio>)
    requires a + c == b + c
    ensures a == b
  {
    forall x ensures a[x] == b[x] {
      assert (a + c)[x] == (b + c)[x];
    }
  }

  lemma {:induction false} SameContent(r: Rq, a: Rq)
    requires Stripped(r.bios) == Stripped(a.bios)
    ensures Content(r) == Content(a)
  {
  }

  predicate WholeStep(s: Step) { s.Flag? || s.bio.size % 512 == 0 }

  /** Every step keeps the invariant. */
  lemma {:induction false} StepKeeps(q: Queue, st: State, s: Step)
    requires Inv(q, st) && Enabled(q, st, s) && WholeStep(s)
    ensures Inv(q, Apply(q, st, s))
  {
    hide Held, RqOk, NewRq;
    match s
    case Submit(b, barrier) => NewKeeps(q, st.rqs, b, barrier);
    case Flag(i, on) => FlagKeeps(q, st.rqs, i, on);
    case Merge(_, _, _, _) => MergeStepKeeps(q, st, s);
  }

  lemma {:induction false} FlagKeeps(q: Queue, rqs: seq<Rq>, i: nat, on: bool)
    requires i < |rqs| && forall x :: x in rqs ==> RqOk(q, x)
    ensures Held(rqs[i := rqs[i].(noMerge := on)]) == Held(rqs)
    ensures forall x :: x in rqs[i := rqs[i].(noMerge := on)] ==> RqOk(q, x)
  {
    hide Held;
    assert rqs[i] in rqs;
    var r := rqs[i].(noMerge := on);
    HeldUpdate(rqs, i, r);
    UpdateKeeps(q, rqs, i, r);
    Cancel(Held(rqs[i := r]), Held(rqs), Content(r));
  }

  lemma {:induction false} NewKeeps(q: Queue, rqs: seq<Rq>, b: Bio, barrier: bool)
    requires (forall r :: r in rqs ==> RqOk(q, r)) && b.size % 512 == 0
    ensures forall r :: r in rqs + [NewRq(q, b, barrier)] ==> RqOk(q, r)
    ensures Held(rqs + [NewRq(q, b, barrier)]) == Held(rqs) + multiset{Strip(b)}
  {
    hide Held, Shape;
    var r := NewRq(q, b, barrier);
    HeldJoin(rqs, [r]);
    HeldOne(r);
    StripRecount(q, [b], 0);
    ShapeOne(Strip(b));
    assert Stripped(r.bios) == [Strip(b)];
  }

  lemma {:induction false} MergeStepKeeps(q: Queue, st: State, s: Step)
    requires Inv(q, st) && Enabled(q, st, s) && WholeStep(s) && s.Merge?
    ensures Inv(q, Apply(q, st, s))
  {
    hide Held, RqOk, Absorb, Grown, Stripped, NewRq, AttemptMerge, Content;
    var v := Grown(q, st.rqs[s.i], s);
    assert st.rqs[s.i] in st.rqs;
    GrownOk(q, st.rqs[s.i], s);
    var rqs := st.rqs[s.i := v.rq];
    HeldUpdate(st.rqs, s.i, v.rq);
    UpdateKeeps(q, st.rqs, s.i, v.rq);
    if !v.ok {
      SameContent(v.rq, st.rqs[s.i]);
      Cancel(Held(rqs), Held(st.rqs), Content(v.rq));
      StripKeeps(v.bio);
      StripKeeps(s.bio);
      NewKeeps(q, rqs, v.bio, false);
    } else {
      GrownContent(v.rq, st.rqs[s.i], Strip(s.bio));
      Cancel(Held(rqs), Held(st.rqs) + multiset{Strip(s.bio)}, Content(st.rqs[s.i]));
      if Offered(s) {
        AbsorbKeeps(q, rqs, Pair(s).0, Pair(s).1);
      }
    }
  }

  lemma {:induction false} GrownContent(r: Rq, a: Rq, b: Bio)
    requires Stripped(r.bios) == Stripped(a.bios) + [b] || Stripped(r.bios) == [b] + Stripped(a.bios)
    ensures Content(r) == Content(a) + multiset{b}
  {
  }

  // ---------------------------------------------------------------- runs

  predicate Runs(q: Queue, st: State, steps: seq<Step>)
    decreases |steps|
  {
    steps == [] || (Enabled(q, st, steps[0]) && Runs(q, Apply(q, st, steps[0]), steps[1..]))
  }

  function Exec(q: Queue, st: State, steps: seq<Step>): State
    requires Runs(q, st, steps)
    decreases |steps|
  {
    if steps == [] then st else Exec(q, Apply(q, st, steps[0]), steps[1..])
  }

  const EMPTY := State([], multiset{})

  lemma {:induction false} RunKeeps(q: Queue, st: State, steps: seq<Step>)
    requires Inv(q, st) && Runs(q, st, steps) && forall s :: s in steps ==> WholeStep(s)
    ensures Inv(q, Exec(q, st, steps))
    decreases |steps|
  {
    if steps != [] {
      StepKeeps(q, st, steps[0]);
      RunKeeps(q, Apply(q, st, steps[0]), steps[1..]);
    }
  }

  /** Merging conserves I/O: after any run from an empty queue the requests
      hold exactly the submitted bios, each request is one gapless ascending
      run of sectors from its position, as long as it says, and a request of
      several bios is within max_sectors. */
  lemma {:induction false} MergingConserves(q: Queue, steps: seq<Step>)
    requires Runs(q, EMPTY, steps) && forall s :: s in steps ==> WholeStep(s)
    ensures Held(Exec(q, EMPTY, steps).rqs) == Exec(q, EMPTY, steps).submitted
    ensures forall r :: r in Exec(q, EMPTY, steps).rqs ==>
              && Gapless(Stripped(r.bios), r.sector) && Bytes(Stripped(r.bios)) == r.dataLen
              && (|r.bios| > 1 ==> Sectors(r.dataLen) <= q.maxSectors)
  {
    RunKeeps(q, EMPTY, steps);
  }

  // ---------------------------------------------------------------- the segment bound over runs

  /** A request whose count means something. */
  ghost predicate SegRq(q: Queue, r: Rq) {
    && SegOk(q, r.bios, r.nr) && r.bios != [] && (r.barrier || Homogeneous(r.bios))
    && (|r.bios| > 1 ==> r.nr <= q.maxPhys && r.nr <= q.maxHw)
  }

  /** A submitted bio: its cached count, if any, is right, and it carries data
      unless it is a discard or a barrier. */
  ghost predicate SoundBio(q: Queue, s: Step) {
    !s.Flag? ==> BioOk(q, s.bio) && ((s.Submit? && s.barrier) || (s.bio.vecs == [] <==> s.bio.discard))
  }

  predicate Accepts(q: Queue, r: Rq, n: Rq)
    requires r.bios != [] && n.bios != []
  {
    AttemptMerge(q, r, n).Joint? && AttemptMerge(q, r, n).ok
  }

  predicate HasData(b: Bio) { b.vecs != [] }

  lemma {:induction false} HomogeneousJoin(a: seq<Bio>, b: seq<Bio>)
    requires Homogeneous(a) && Homogeneous(b) && a[0].discard == b[0].discard
    ensures Homogeneous(a + b)
  {
  }

  lemma {:induction false} HomogeneousStripped(a: seq<Bio>, b: seq<Bio>)
    requires Homogeneous(a) && Stripped(a) == Stripped(b)
    ensures Homogeneous(b)
  {
  }

  /** Adding a bio keeps the count meaningful. */
  lemma {:induction false} GrownSeg(q: Queue, r: Rq, s: Step)
    requires SegRq(q, r) && s.Merge? && SoundBio(q, s) && MergeOk(r, s.bio)
    ensures var v := Grown(q, r, s); SegRq(q, v.rq) && BioOk(q, v.bio)
  {
    hide SegOk, Sectors, Greedy, Recount;
    var b := s.bio;
    assert Homogeneous([b]);
    HomogeneousJoin(r.bios, [b]);
    var v := if s.back then BackMergeFn(q, r, b) else FrontMergeFn(q, r, b);
    ChecksOnly(q, r, b, v);
    HomogeneousStripped(r.bios, v.rq.bios);
    HomogeneousStripped([b], [v.bio]);
    BackMergeKeeps(q, r, b);
    FrontMergeKeeps(q, r, b);
    RecountOk(q, b);
    HomogeneousJoin(v.rq.bios, [v.bio]);
    HomogeneousJoin([v.bio], v.rq.bios);
  }

  lemma {:induction false} NewSeg(q: Queue, b: Bio, barrier: bool)
    requires BioOk(q, b) && (barrier || (b.vecs == [] <==> b.discard))
    ensures SegRq(q, NewRq(q, b, barrier))
  {
    RecountOk(q, b);
  }

  /** With a bio without data on either side, a refused merge writes nothing. */
  lemma {:induction false} RefusedUnchanged(q: Queue, r: Rq, n: Rq)
    requires SegRq(q, r) && SegRq(q, n) && !(HasData(r.bios[|r.bios| - 1]) && HasData(n.bios[0]))
    requires AttemptMerge(q, r, n).Joint? && !AttemptMerge(q, r, n).ok
    ensures AttemptMerge(q, r, n).rq == r && AttemptMerge(q, r, n).next == n
  {
    hide SegOk, Sectors;
    if Mergeable(r) && Mergeable(n) {
      assert r.bios[|r.bios| - 1] in r.bios && n.bios[0] in n.bios;
      NoVecsNoCut(q, r.bios, r.nr);
      NoVecsNoCut(q, n.bios, n.nr);
    }
  }

  /** Merging two requests keeps their counts meaningful, if data meets data when it goes through. */
  lemma {:induction false} AttemptSeg(q: Queue, r: Rq, n: Rq)
    requires q.maxPhys < U16 && SegRq(q, r) && SegRq(q, n)
    requires Accepts(q, r, n) ==> HasData(r.bios[|r.bios| - 1]) && HasData(n.bios[0])
    ensures var j := AttemptMerge(q, r, n); j.Joint? ==> SegRq(q, j.rq) && (!j.ok ==> SegRq(q, j.next))
  {
    if HasData(r.bios[|r.bios| - 1]) && HasData(n.bios[0]) {
      AttemptData(q, r, n);
    } else if AttemptMerge(q, r, n).Joint? {
      RefusedUnchanged(q, r, n);
    }
  }

  /** The merge that loses a segment: no data in front of data, sizes that would
      fit one segment, and no segment to spare behind. */
  predicate LosesSegment(q: Queue, r: Rq, n: Rq)
    requires r.bios != [] && n.bios != []
  {
    var tail, head := r.bios[|r.bios| - 1], n.bios[0];
    && !HasData(tail) && HasData(head) && q.seg.cluster && tail.back + head.front <= q.seg.maxSegment
    && |Greedy(q.seg, false, ChainVecs(n.bios))| == n.nr
  }

  /** Of all merges of two requests with right counts, exactly those leave a
      request that needs more entries than it counts. */
  lemma {:induction false} MergeCountIff(q: Queue, r: Rq, n: Rq)
    requires q.maxPhys < U16 && SegRq(q, r) && SegRq(q, n) && Accepts(q, r, n)
    ensures var m := AttemptMerge(q, r, n).rq;
            |Greedy(q.seg, false, ChainVecs(m.bios))| <= m.nr <==> !LosesSegment(q, r, n)
  {
    hide SegOk, Sectors, Greedy;
    assert r.bios[|r.bios| - 1] in r.bios && n.bios[0] in n.bios;
    NoVecsNoCut(q, r.bios, r.nr);
    NoVecsNoCut(q, n.bios, n.nr);
    if HasData(r.bios[|r.bios| - 1]) && HasData(n.bios[0]) {
      AttemptMergeKeeps(q, r, n);
      SegOkBounds(q, AttemptMerge(q, r, n).rq.bios, AttemptMerge(q, r, n).rq.nr);
    } else {
      DatalessSide(q, r, n);
    }
  }

  lemma {:induction false} DatalessSide(q: Queue, r: Rq, n: Rq)
    requires q.maxPhys < U16 && SegRq(q, r) && SegRq(q, n) && Accepts(q, r, n)
    requires !(HasData(r.bios[|r.bios| - 1]) && HasData(n.bios[0]))
    ensures var m := AttemptMerge(q, r, n).rq;
            |Greedy(q.seg, false, ChainVecs(m.bios))| <= m.nr <==> !LosesSegment(q, r, n)
  {
    hide SegOk, Sectors, Greedy, ChainVecs;
    var m := AttemptMerge(q, r, n).rq;
    assert r.bios[|r.bios| - 1] in r.bios && n.bios[0] in n.bios;
    NoVecsNoCut(q, r.bios, r.nr);
    NoVecsNoCut(q, n.bios, n.nr);
    SegOkBounds(q, r.bios, r.nr);
    SegOkBounds(q, n.bios, n.nr);
    MergedVecs(q, r, n);
    NoVectors(q);
    assert [] + ChainVecs(n.bios) == ChainVecs(n.bios) && ChainVecs(r.bios) + [] == ChainVecs(r.bios);
  }

  lemma {:induction false} NoVectors(q: Queue)
    ensures Greedy(q.seg, false, []) == []
  {
  }

  /** Whatever it does to the caches, a merge joins the vectors. */
  lemma {:induction false} MergedVecs(q: Queue, r: Rq, n: Rq)
    requires r.bios != [] && n.bios != [] && Accepts(q, r, n)
    ensures ChainVecs(AttemptMerge(q, r, n).rq.bios) == ChainVecs(r.bios) + ChainVecs(n.bios)
  {
    hide ChainVecs, Sectors;
    var size := r.bios[|r.bios| - 1].back + n.bios[0].front;
    ChainUpdate(r.bios, 0, r.bios[0].(front := size));
    ChainUpdate(n.bios, |n.bios| - 1, n.bios[|n.bios| - 1].(back := size));
    var m := MergeRequestsFn(q, r, n);
    ChainJoin(m.rq.bios, m.next.bios);
  }

  lemma {:induction false} AttemptData(q: Queue, r: Rq, n: Rq)
    requires q.maxPhys < U16 && SegRq(q, r) && SegRq(q, n) && HasData(r.bios[|r.bios| - 1]) && HasData(n.bios[0])
    ensures var j := AttemptMerge(q, r, n); j.Joint? && SegRq(q, j.rq) && (!j.ok ==> SegRq(q, j.next))
  {
    hide SegOk, Sectors, MergeRequestsFn;
    AttemptMergeKeeps(q, r, n);
    if MergeRequestsFn(q, r, n).Joint? {
      var m := MergeRequestsFn(q, r, n);
      JointOnly(q, r, n);
      JointFlags(q, r, n);
      if Mergeable(r) && Mergeable(n) {
        HomogeneousStripped(r.bios, m.rq.bios);
        HomogeneousStripped(n.bios, m.next.bios);
        assert r.bios[|r.bios| - 1] in r.bios && n.bios[0] in n.bios;
        assert Strip(m.rq.bios[0]) == Strip(r.bios[0]) && Strip(m.next.bios[0]) == Strip(n.bios[0]);
        HomogeneousJoin(m.rq.bios, m.next.bios);
      }
    }
  }

  lemma {:induction false} JointFlags(q: Queue, r: Rq, n: Rq)
    requires r.bios != [] && n.bios != [] && MergeRequestsFn(q, r, n).Joint?
    ensures var j := MergeRequestsFn(q, r, n);
            j.rq.barrier == r.barrier && j.next.barrier == n.barrier && j.next.nr == n.nr && (!j.ok ==> j.rq.nr == r.nr)
  {
  }

  lemma {:induction false} RefusedBio(q: Queue, r: Rq, s: Step)
    requires r.bios != [] && s.Merge?
    ensures Grown(q, r, s).bio.vecs == s.bio.vecs && Grown(q, r, s).bio.discard == s.bio.discard
  {
  }
}
