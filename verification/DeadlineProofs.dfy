/** The deadline scheduler keeps its representation, bounds starvation and drains. */
module DeadlineProofs {
  import opened RbTree
  import opened Deadline

  // ---------------------------------------------------------------- one side

  lemma {:induction false} FifoJoin(a: seq<Timed>, b: seq<Timed>)
    ensures FifoIds(a + b) == FifoIds(a) + FifoIds(b)
  {
  }

  lemma {:induction false} WithoutEntryIds(f: seq<Timed>, i: nat)
    requires DistinctEntries(f) && i < |f|
    ensures FifoIds(Without(f, i)) == FifoIds(f) - {f[i].id}
  {
  }

  lemma {:induction false} WithoutEntry(f: seq<Timed>, i: nat)
    requires ByExpiry(f) && DistinctEntries(f) && i < |f|
    ensures ByExpiry(Without(f, i)) && DistinctEntries(Without(f, i))
            && FifoIds(Without(f, i)) == FifoIds(f) - {f[i].id}
    ensures forall e :: e in Without(f, i) ==> e in f
  {
  }

  lemma {:induction false} RemoveOk(s: Side, id: nat, latest: nat, off: set<nat>)
    requires Loose(s, latest, off) && id in TreeIds(s.sort)
    ensures Loose(RemoveRequest(s, id), latest, off) && TreeIds(RemoveRequest(s, id).sort) == TreeIds(s.sort) - {id}
    ensures |RemoveRequest(s, id).fifo| == |s.fifo| - 1 && FifoIds(RemoveRequest(s, id).fifo) == FifoIds(s.fifo) - {id}
  {
    WithoutNode(s.sort, NodeAt(s.sort, id));
    WithoutEntry(s.fifo, EntryAt(s.fifo, id));
    LatterIsOther(s.sort, id);
  }

  // ---------------------------------------------------------------- moving and adding

  function Latest(tn: Tunables, st: State, d: Dir): nat { st.now + tn.expire.At(d) }

  /** The invariant while the requests in off are off the tree of direction d. */
  ghost predicate Near(tn: Tunables, st: State, d: Dir, off: set<nat>) {
    && Loose(st.side.At(d), Latest(tn, st, d), off) && SideOk(st.side.At(Other(d)), Latest(tn, st, Other(d)))
    && (st.side.read.next == Null || st.side.write.next == Null)
    && st.nrSorted == |st.side.read.fifo| + |st.side.write.fifo|
    && Apart(st) && off !! TreeIds(st.side.At(Other(d)).sort) && forall x :: x in off ==> x !in st.dispatched
  }

  lemma {:induction false} InvIsNear(tn: Tunables, st: State, d: Dir)
    ensures Inv(tn, st) <==> Near(tn, st, d, {})
  {
  }

  lemma {:induction false} StopsOk(s: Side, latest: nat)
    requires SideOk(s, latest)
    ensures SideOk(NoNext(s), latest)
  {
  }

  lemma {:induction false} MoveSide(s: Side, id: nat, latest: nat, off: set<nat>)
    requires Loose(s, latest, off) && id in TreeIds(s.sort)
    ensures Has(s, id) && id !in off
    ensures var s1 := RemoveRequest(s.(next := Latter(s.sort, id)), id);
            && Loose(s1, latest, off) && TreeIds(s1.sort) == TreeIds(s.sort) - {id}
            && |s1.fifo| == |s.fifo| - 1 && FifoIds(s1.fifo) == FifoIds(s.fifo) - {id}
  {
    hide RemoveRequest;
    LatterIsOther(s.sort, id);
    RemoveOk(s.(next := Latter(s.sort, id)), id, latest, off);
  }

  lemma {:induction false} MoveNear(tn: Tunables, st: State, d: Dir, id: nat, off: set<nat>)
    requires Near(tn, st, d, off) && id in TreeIds(st.side.At(d).sort)
    ensures Near(tn, MoveRequest(st, d, id), d, off)
    ensures TreeIds(MoveRequest(st, d, id).side.At(d).sort) == TreeIds(st.side.At(d).sort) - {id}
    ensures FifoIds(MoveRequest(st, d, id).side.At(d).fifo) == FifoIds(st.side.At(d).fifo) - {id}
    ensures |MoveRequest(st, d, id).side.At(d).fifo| == |st.side.At(d).fifo| - 1
  {
    hide TreeIds, FifoIds, Loose, RemoveRequest, Latter;
    MoveSide(st.side.At(d), id, Latest(tn, st, d), off);
    StopsOk(st.side.At(Other(d)), Latest(tn, st, Other(d)));
  }

  /** Putting back a request that is still in the FIFO. */
  lemma {:induction false} FrontSide(s: Side, latest: nat, n: Node)
    requires Loose(s, latest, {n.id}) && !Taken(s.sort, n.pos) && n.id in FifoIds(s.fifo)
    ensures SideOk(s.(sort := Insert(s.sort, n)), latest)
  {
    hide Ascending, DistinctNodes, DistinctEntries, ByExpiry, TreeIds, FifoIds, Insert, Taken;
    InsertOk(s.sort, n);
  }

  /** Adding a new request to the tree and the FIFO. */
  lemma {:induction false} AddSide(s: Side, latest: nat, n: Node)
    requires Loose(s, latest, {n.id}) && !Taken(s.sort, n.pos) && n.id !in FifoIds(s.fifo)
    ensures SideOk(s.(sort := Insert(s.sort, n), fifo := s.fifo + [Timed(n.id, latest)]), latest)
  {
    hide Ascending, DistinctNodes, Insert, Taken;
    InsertOk(s.sort, n);
    FifoJoin(s.fifo, [Timed(n.id, latest)]);
    assert forall x :: x in s.fifo ==> x.id in FifoIds(s.fifo);
  }

  /** A side put back makes the invariant whole. */
  lemma {:induction false} Glue(tn: Tunables, st: State, d: Dir, s: Side, off: set<nat>, k: int)
    requires Near(tn, st, d, off) && SideOk(s, Latest(tn, st, d))
             && TreeIds(s.sort) == TreeIds(st.side.At(d).sort) + off
    requires s.next == st.side.At(d).next && |s.fifo| == |st.side.At(d).fifo| + k
    ensures Inv(tn, PutSide(st, d, s).(nrSorted := st.nrSorted + k))
  {
  }

  /** The state before the insertion: a request in the way has been moved. */
  function Cleared(st: State, d: Dir, n: Node): State
    requires TreeIds(st.side.At(d).sort) <= FifoIds(st.side.At(d).fifo)
  {
    var t := st.side.At(d).sort;
    if Taken(t, n.pos) then MoveRequest(st, d, t[Place(t, n.pos)].id) else st
  }

  lemma {:induction false} ClearedOk(tn: Tunables, st: State, d: Dir, n: Node)
    requires Near(tn, st, d, {n.id})
    ensures var s := Cleared(st, d, n);
            && Near(tn, s, d, {n.id}) && !Taken(s.side.At(d).sort, n.pos) && s.now == st.now
            && (n.id in FifoIds(s.side.At(d).fifo) <==> n.id in FifoIds(st.side.At(d).fifo))
  {
    var t := st.side.At(d).sort;
    if Taken(t, n.pos) {
      var id := t[Place(t, n.pos)].id;
      assert t[Place(t, n.pos)] in t;
      MoveNear(tn, st, d, id, {n.id});
      FreedPlace(t, n.pos);
    }
  }

  lemma {:induction false} NearWithout(tn: Tunables, st: State, d: Dir, id: nat)
    requires Inv(tn, st) && id in TreeIds(st.side.At(d).sort)
    ensures var s := st.side.At(d);
            Near(tn, PutSide(st, d, s.(sort := Without(s.sort, NodeAt(s.sort, id)))), d, {id}) && id in FifoIds(s.fifo)
  {
    var s := st.side.At(d);
    WithoutNode(s.sort, NodeAt(s.sort, id));
  }

  lemma {:induction false} FrontOk(tn: Tunables, st: State, d: Dir, id: nat, pos: nat)
    requires Inv(tn, st) && id in TreeIds(st.side.At(d).sort)
    ensures Inv(tn, FrontMerged(st, d, id, pos))
  {
    var s := st.side.At(d);
    NearWithout(tn, st, d, id);
    PlaceAgain(tn, PutSide(st, d, s.(sort := Without(s.sort, NodeAt(s.sort, id)))), d, Node(id, pos));
  }

  lemma {:induction false} PlaceAgain(tn: Tunables, st: State, d: Dir, n: Node)
    requires Near(tn, st, d, {n.id}) && n.id in FifoIds(st.side.At(d).fifo)
    ensures TreeIds(st.side.At(d).sort) <= FifoIds(st.side.At(d).fifo)
    ensures Inv(tn, AddToTree(st, d, n))
  {
    hide Near, Inv, SideOk, FifoIds, Insert, Taken, Loose, TreeIds;
    NearSubset(tn, st, d, {n.id});
    ClearedOk(tn, st, d, n);
    var c := Cleared(st, d, n);
    var s := c.side.At(d);
    NearSubset(tn, c, d, {n.id});
    FrontSide(s, Latest(tn, st, d), n);
    InsertIds(s.sort, n);
    var s1 := s.(sort := Insert(s.sort, n));
    Glue(tn, c, d, s1, {n.id}, 0);
    assert AddToTree(st, d, n) == PutSide(c, d, s1).(nrSorted := c.nrSorted + 0);
  }

  lemma {:induction false} NearSubset(tn: Tunables, st: State, d: Dir, off: set<nat>)
    requires Near(tn, st, d, off)
    ensures TreeIds(st.side.At(d).sort) <= FifoIds(st.side.At(d).fifo) && Loose(st.side.At(d), Latest(tn, st, d), off)
  {
  }

  lemma {:induction false} NearFresh(tn: Tunables, st: State, d: Dir, id: nat)
    requires Inv(tn, st) && id !in TreeIds(st.side.read.sort) && id !in TreeIds(st.side.write.sort)
             && id !in st.dispatched
    ensures Near(tn, st, d, {id}) && id !in FifoIds(st.side.At(d).fifo)
  {
  }

  lemma {:induction false} PlaceNew(tn: Tunables, st: State, d: Dir, n: Node)
    requires Near(tn, st, d, {n.id}) && n.id !in FifoIds(st.side.At(d).fifo)
    ensures TreeIds(st.side.At(d).sort) <= FifoIds(st.side.At(d).fifo)
    ensures Inv(tn, AddRequest(tn, st, d, n))
  {
    hide Near, Inv, SideOk, FifoIds, Insert, Taken, Loose;
    NearSubset(tn, st, d, {n.id});
    ClearedOk(tn, st, d, n);
    var c := Cleared(st, d, n);
    var s := c.side.At(d);
    NearSubset(tn, c, d, {n.id});
    AddSide(s, Latest(tn, st, d), n);
    InsertIds(s.sort, n);
    var s1 := s.(sort := Insert(s.sort, n), fifo := s.fifo + [Timed(n.id, Latest(tn, st, d))]);
    Glue(tn, c, d, s1, {n.id}, 1);
    assert AddRequest(tn, st, d, n) == PutSide(c, d, s1).(nrSorted := c.nrSorted + 1);
  }

  lemma {:induction false} AddOk(tn: Tunables, st: State, d: Dir, n: Node)
    requires Inv(tn, st) && n.id !in TreeIds(st.side.read.sort) && n.id !in TreeIds(st.side.write.sort)
             && n.id !in st.dispatched
    ensures TreeIds(st.side.At(d).sort) <= FifoIds(st.side.At(d).fifo)
    ensures Inv(tn, AddRequest(tn, st, d, n))
  {
    hide Inv, Near;
    NearFresh(tn, st, d, n.id);
    PlaceNew(tn, st, d, n);
  }

  // ---------------------------------------------------------------- merging requests

  lemma {:induction false} FifoJoin3(a: seq<Timed>, b: seq<Timed>, c: seq<Timed>)
    ensures FifoIds(a + b + c) == FifoIds(a) + FifoIds(b) + FifoIds(c)
  {
  }

  lemma {:induction false} PromotedIds(f: seq<Timed>, i: nat, j: nat)
    requires DistinctEntries(f) && j < i < |f|
    ensures FifoIds(Without(f[j := Timed(f[i].id, f[j].expire)], i)) == FifoIds(f) - {f[j].id}
  {
    var e, a, b, c := Timed(f[i].id, f[j].expire), f[..j], f[j + 1..i], f[i + 1..];
    WithoutEntryIds(f, j);
    assert FifoIds([e]) == FifoIds([f[i]]);
    hide DistinctEntries, FifoIds;
    assert Without(f[j := e], i) == a + ([e] + b) + c;
    assert Without(f, j) == a + (b + [f[i]]) + c;
    FifoJoin3(a, [e] + b, c);
    FifoJoin([e], b);
    FifoJoin3(a, b + [f[i]], c);
    FifoJoin(b, [f[i]]);
  }

  lemma {:induction false} PromotedOrder(f: seq<Timed>, i: nat, j: nat)
    requires DistinctEntries(f) && ByExpiry(f) && j < i < |f|
    ensures var g := Without(f[j := Timed(f[i].id, f[j].expire)], i); DistinctEntries(g) && ByExpiry(g)
  {
  }

  lemma {:induction false} FifoMergedOk(f: seq<Timed>, req: nat, next: nat)
    requires DistinctEntries(f) && ByExpiry(f) && req in FifoIds(f) && next in FifoIds(f) && req != next
    ensures var g := FifoMerged(f, req, next);
            && DistinctEntries(g) && ByExpiry(g) && FifoIds(g) == FifoIds(f) - {next} && |g| == |f| - 1
            && forall e :: e in g ==> exists x :: x in f && e.expire <= x.expire
  {
    var i, j := EntryAt(f, req), EntryAt(f, next);
    var g := FifoMerged(f, req, next);
    if f[j].expire < f[i].expire {
      PromotedIds(f, i, j);
      PromotedOrder(f, i, j);
      forall e | e in g ensures exists x :: x in f && e.expire <= x.expire {
        assert e in f || (e.expire == f[j].expire && f[j] in f);
      }
    } else {
      WithoutEntry(f, j);
    }
  }

  lemma {:induction false} MergedSide(s: Side, latest: nat, req: nat, next: nat)
    requires SideOk(s, latest) && req in TreeIds(s.sort) && next in TreeIds(s.sort) && req != next
    ensures var s1 := DelFromTree(s, next).(fifo := FifoMerged(s.fifo, req, next));
            SideOk(s1, latest) && TreeIds(s1.sort) == TreeIds(s.sort) - {next} && |s1.fifo| == |s.fifo| - 1
            && (s1.next == Null || s.next != Null)
  {
    WithoutNode(s.sort, NodeAt(s.sort, next));
    LatterIsOther(s.sort, next);
    FifoMergedOk(s.fifo, req, next);
  }

  lemma {:induction false} MergeOk(tn: Tunables, st: State, d: Dir, req: nat, next: nat)
    requires Inv(tn, st) && Has(st.side.At(d), req) && Has(st.side.At(d), next) && req != next
    ensures Inv(tn, MergedRequests(st, d, req, next))
  {
    hide SideOk, Loose, TreeIds, FifoIds, FifoMerged, DelFromTree;
    MergedSide(st.side.At(d), Latest(tn, st, d), req, next);
  }

  // ---------------------------------------------------------------- dispatching

  /** A chosen request is in its tree and its FIFO, so neither BUG_ON fires. */
  lemma {:induction false} ChosenIsThere(tn: Tunables, st: State)
    requires Inv(tn, st)
    ensures var c := Choose(tn, st);
            && (c.Chosen? ==> Has(st.side.At(c.dir), c.id))
            && (c.Idle? <==> st.side.read.fifo == [] && st.side.write.fifo == [])
    ensures (st.side.read.fifo != [] ==> st.side.read.sort != [])
            && (st.side.write.fifo != [] ==> st.side.write.sort != [])
  {
    hide SideOk, Has;
    Offers(st.side.read, st.now + tn.expire.read);
    Offers(st.side.write, st.now + tn.expire.write);
  }

  /** What a side that is in order offers. */
  lemma {:induction false} Offers(s: Side, latest: nat)
    requires SideOk(s, latest)
    ensures s.fifo == [] <==> s.sort == []
    ensures s.fifo == [] ==> s.next == Null
    ensures s.fifo != [] ==> Has(s, s.fifo[0].id)
    ensures s.next != Null ==> Has(s, s.next.id)
  {
    if s.fifo != [] {
      assert s.fifo[0] in s.fifo;
      assert s.fifo[0].id in FifoIds(s.fifo) - {};
    }
    if s.sort != [] {
      assert s.sort[0] in s.sort;
      assert s.sort[0].id in TreeIds(s.sort);
    }
  }

  lemma {:induction false} DispatchOk(tn: Tunables, st: State)
    requires Inv(tn, st)
    ensures (var c := Choose(tn, st); c.Chosen? ==> Has(st.side.At(c.dir), c.id)) && Inv(tn, Dispatch(tn, st))
  {
    ChosenIsThere(tn, st);
    var c := Choose(tn, st);
    if c.Chosen? {
      var mid := st.(batching := c.batching, starved := c.starved);
      InvIsNear(tn, mid, c.dir);
      MoveNear(tn, mid, c.dir, c.id, {});
      InvIsNear(tn, MoveRequest(mid, c.dir, c.id), c.dir);
    }
  }

  // ---------------------------------------------------------------- runs

  datatype Step =
    | Add(dir: Dir, node: Node)
    | Front(dir: Dir, id: nat, pos: nat)
    | Merge(dir: Dir, req: nat, next: nat)
    | Dispatching
    | Tick(jiffies: nat)

  ghost predicate Enabled(st: State, s: Step) {
    match s
    case Add(_, n) =>
      n.id !in TreeIds(st.side.read.sort) && n.id !in TreeIds(st.side.write.sort) && n.id !in st.dispatched
    case Front(d, id, _) => Has(st.side.At(d), id)
    case Merge(d, a, b) => Has(st.side.At(d), a) && Has(st.side.At(d), b) && a != b
    case Dispatching => true
    case Tick(_) => true
  }

  function Apply(tn: Tunables, st: State, s: Step): State
    requires Inv(tn, st) && Enabled(st, s)
  {
    match s
    case Add(d, n) => AddOk(tn, st, d, n); AddRequest(tn, st, d, n)
    case Front(d, id, pos) => FrontMerged(st, d, id, pos)
    case Merge(d, a, b) => MergedRequests(st, d, a, b)
    case Dispatching => ChosenIsThere(tn, st); Dispatch(tn, st)
    case Tick(j) => st.(now := st.now + j)
  }

  /** Every step keeps the representation. */
  lemma {:induction false} StepOk(tn: Tunables, st: State, s: Step)
    requires Inv(tn, st) && Enabled(st, s)
    ensures Inv(tn, Apply(tn, st, s))
  {
    match s
    case Add(d, n) => AddOk(tn, st, d, n);
    case Front(d, id, pos) => FrontOk(tn, st, d, id, pos);
    case Merge(d, a, b) => MergeOk(tn, st, d, a, b);
    case Dispatching => DispatchOk(tn, st);
    case Tick(j) =>
  }

  ghost predicate Runs(tn: Tunables, st: State, steps: seq<Step>)
    requires Inv(tn, st)
    decreases |steps|
  {
    steps == [] || (Enabled(st, steps[0]) && (StepOk(tn, st, steps[0]); Runs(tn, Apply(tn, st, steps[0]), steps[1..])))
  }

  function Exec(tn: Tunables, st: State, steps: seq<Step>): State
    requires Inv(tn, st) && Runs(tn, st, steps)
    decreases |steps|
  {
    if steps == [] then st else StepOk(tn, st, steps[0]); Exec(tn, Apply(tn, st, steps[0]), steps[1..])
  }

  const EMPTY := State(Pair(Side([], [], Null), Side([], [], Null)), 0, 0, 0, [], 0)

  lemma {:induction false} EmptyOk(tn: Tunables)
    ensures Inv(tn, EMPTY)
  {
  }

  /** After any run: tree and FIFO of each direction hold the same requests,
      positions are unique, the FIFO is in order of expiry, at most one
      direction has a next request, and that one is in its tree. */
  lemma {:induction false} RunOk(tn: Tunables, st: State, steps: seq<Step>)
    requires Inv(tn, st) && Runs(tn, st, steps)
    ensures Inv(tn, Exec(tn, st, steps))
    decreases |steps|
  {
    if steps != [] {
      StepOk(tn, st, steps[0]);
      RunOk(tn, Apply(tn, st, steps[0]), steps[1..]);
    }
  }

  // ---------------------------------------------------------------- starvation

  /** The counters never leave their ranges. */
  predicate InRange(tn: Tunables, st: State) { st.starved <= tn.writesStarved && st.batching <= tn.fifoBatch }

  function Measure(tn: Tunables, st: State): int {
    (tn.writesStarved - st.starved) * tn.fifoBatch + (tn.fifoBatch - st.batching)
  }

  lemma {:induction false} StepInRange(tn: Tunables, st: State, s: Step)
    requires Inv(tn, st) && Enabled(st, s) && InRange(tn, st) && tn.fifoBatch >= 1
    ensures InRange(tn, Apply(tn, st, s))
    ensures !s.Dispatching? ==> Apply(tn, st, s).starved == st.starved && Apply(tn, st, s).batching == st.batching
  {
    hide Inv, TreeIds, FifoIds, RemoveRequest, Insert, Without, NodeAt, FifoMerged;
  }

  lemma {:induction false} MeasureRange(tn: Tunables, st: State)
    requires InRange(tn, st)
    ensures 0 <= Measure(tn, st) <= (tn.writesStarved + 1) * tn.fifoBatch
  {
  }

  /** Choosing a read while a write waits lowers the measure. */
  lemma {:induction false} ReadLowers(tn: Tunables, st: State)
    requires Inv(tn, st) && InRange(tn, st) && tn.fifoBatch >= 1 && st.side.write.fifo != []
    requires Choose(tn, st).Chosen? && Choose(tn, st).dir == Read
    ensures Measure(tn, Apply(tn, st, Dispatching)) < Measure(tn, st)
  {
    hide Inv, TreeIds, FifoIds, RemoveRequest;
    var c := Choose(tn, st);
    assert Apply(tn, st, Dispatching).starved == c.starved && Apply(tn, st, Dispatching).batching == c.batching;
    if c.starved == st.starved + 1 {
      assert (tn.writesStarved - st.starved) * tn.fifoBatch ==
               (tn.writesStarved - c.starved) * tn.fifoBatch + tn.fifoBatch;
    }
  }

  /** Every dispatch call of the run takes a read although a write waits. */
  ghost predicate Starving(tn: Tunables, st: State, steps: seq<Step>)
    requires Inv(tn, st) && Runs(tn, st, steps)
    decreases |steps|
  {
    steps != [] ==>
      && (steps[0].Dispatching? ==> st.side.write.fifo != [] && Choose(tn, st).Chosen? && Choose(tn, st).dir == Read)
      && (StepOk(tn, st, steps[0]); Starving(tn, Apply(tn, st, steps[0]), steps[1..]))
  }

  function Calls(steps: seq<Step>): nat {
    if steps == [] then 0 else (if steps[0].Dispatching? then 1 else 0) + Calls(steps[1..])
  }

  lemma {:induction false} StarvingIsShort(tn: Tunables, st: State, steps: seq<Step>)
    requires Inv(tn, st) && Runs(tn, st, steps) && Starving(tn, st, steps) && InRange(tn, st) && tn.fifoBatch >= 1
    ensures Calls(steps) <= Measure(tn, st)
    decreases |steps|
  {
    if steps == [] {
      MeasureRange(tn, st);
    } else {
      StepOk(tn, st, steps[0]);
      StepInRange(tn, st, steps[0]);
      StarvingIsShort(tn, Apply(tn, st, steps[0]), steps[1..]);
      if steps[0].Dispatching? {
        ReadLowers(tn, st);
      }
    }
  }

  lemma {:induction false} RunInRange(tn: Tunables, st: State, steps: seq<Step>)
    requires Inv(tn, st) && Runs(tn, st, steps) && InRange(tn, st) && tn.fifoBatch >= 1
    ensures InRange(tn, Exec(tn, st, steps))
    decreases |steps|
  {
    if steps != [] {
      StepOk(tn, st, steps[0]);
      StepInRange(tn, st, steps[0]);
      RunInRange(tn, Apply(tn, st, steps[0]), steps[1..]);
    }
  }

  /** Bounded starvation: whatever happened before, at most
      (writes_starved + 1) * fifo_batch dispatch calls in a row take a read
      while a write waits, whatever is added and merged in between. */
  lemma {:induction false} WritesAreServed(tn: Tunables, before: seq<Step>, steps: seq<Step>)
    requires tn.fifoBatch >= 1 && Inv(tn, EMPTY) && Runs(tn, EMPTY, before) && Inv(tn, Exec(tn, EMPTY, before))
    requires Runs(tn, Exec(tn, EMPTY, before), steps) && Starving(tn, Exec(tn, EMPTY, before), steps)
    ensures Calls(steps) <= (tn.writesStarved + 1) * tn.fifoBatch
  {
    RunInRange(tn, EMPTY, before);
    StarvingIsShort(tn, Exec(tn, EMPTY, before), steps);
    MeasureRange(tn, Exec(tn, EMPTY, before));
  }

  // ---------------------------------------------------------------- draining

  function SetOf(s: seq<nat>): set<nat> { set x | x in s }

  /** All requests of the scheduler and of the dispatch list. */
  function Everything(st: State): set<nat> {
    TreeIds(st.side.read.sort) + TreeIds(st.side.write.sort) + SetOf(st.dispatched)
  }

  lemma {:induction false} MoveMoves(tn: Tunables, st: State, d: Dir, id: nat)
    requires Near(tn, st, d, {}) && id in TreeIds(st.side.At(d).sort)
    ensures Has(st.side.At(d), id) && Everything(MoveRequest(st, d, id)) == Everything(st)
  {
  }

  /** One dispatch moves one request to the end of the dispatch list. */
  lemma {:induction false} DispatchMoves(tn: Tunables, st: State)
    requires Inv(tn, st) && !Choose(tn, st).Idle?
    ensures var s := Apply(tn, st, Dispatching);
            Everything(s) == Everything(st) && s.nrSorted == st.nrSorted - 1 && |s.dispatched| == |st.dispatched| + 1
            && st.dispatched <= s.dispatched
  {
    ChosenIsThere(tn, st);
    var c := Choose(tn, st);
    var mid := st.(batching := c.batching, starved := c.starved);
    InvIsNear(tn, mid, c.dir);
    hide TreeIds, FifoIds, RemoveRequest, Inv, Near, Choose, SetOf;
    MoveMoves(tn, mid, c.dir, c.id);
  }
}
