/**
 When an allocation succeeds.  The pool evicts greedily, in tree order and never more than it
 needs; this loses nothing: pages run out exactly when no way of evicting leaves would have
 left enough.
 */
module Supply {
  import opened Prelude
  import opened Paging
  import opened Ledger
  import opened PagePool
  import opened Allocator
  import opened PoolLaws

  /** The leaves can be evicted one after the other, each being evictable when its turn comes. */
  ghost predicate Evicting(c: Cache, ps: seq<Path>)
    decreases |ps|
  {
    ps == [] || (Candidate(c, ps[0]) && Evicting(EvictLeaf(c, ps[0]), ps[1..]))
  }

  ghost function Evicted(c: Cache, ps: seq<Path>): Cache
    decreases |ps|
  {
    if ps == [] || ps[0] !in c.tree then c else Evicted(EvictLeaf(c, ps[0]), ps[1..])
  }

  /** Some way of evicting leaves leaves at least `n` pages unallocated. */
  ghost predicate CanGive(c: Cache, n: int) {
    exists ps :: Evicting(c, ps) && n <= Room(Evicted(c, ps))
  }

  // ---------------------------------------------------------------- pages left

  lemma {:induction false} BelowCard(s: set<nat>, n: nat)
    requires forall b :: b in s ==> b < n
    ensures |s| <= n && (|s| == n <==> forall b :: 0 <= b < n ==> b in s)
    decreases n
  {
    if n > 0 {
      BelowCard(s - {n - 1}, n - 1);
      if n - 1 in s {
        assert s == s - {n - 1} + {n - 1};
      } else {
        assert s == s - {n - 1};
      }
    }
  }

  lemma RoomBounds(c: Cache)
    requires Shape(c)
    ensures 0 <= Room(c) && (c.free == [] && c.next == |c.kv| ==> Room(c) == 0)
  {
    hide TreeOk;
    BelowCard(c.alloc.Keys, c.next);
    assert |c.alloc| == |c.alloc.Keys|;
  }

  // ---------------------------------------------------------------- evicting more

  /** Allocated with no reference: on nobody's list, and no eviction frees it. */
  ghost predicate Loose(c: Cache, b: nat) {
    b in c.alloc && c.alloc[b] == 0
  }

  /** The same pool and owners with some nodes of the tree gone. */
  ghost predicate Thinner(c: Cache, d: Cache, own: Owners) {
    && Inv(c, own) && Inv(d, own) && |d.kv| == |c.kv|
    && (forall p :: p in d.tree ==> p in c.tree && d.tree[p] == c.tree[p])
    && (forall b :: Loose(c, b) <==> Loose(d, b))
  }

  lemma EvictLoose(c: Cache, own: Owners, p: Path, b: nat)
    requires Inv(c, own) && Victim !in own && Candidate(c, p)
    ensures Loose(EvictLeaf(c, p), b) <==> Loose(c, b)
  {
    hide Release, TreeOk, PoolOk;
    CandidatesTie(c, p);
    UnlinkedShape(c, own, p);
    ReleaseEffect(Unlinked(c, p), c.tree[p].blocks);
    if b in c.tree[p].blocks {
      assert ListOk(c, c.tree[p].blocks);
      CountPos(Blocks(c.tree), p, b);
    }
  }

  lemma EvictThinner(c: Cache, own: Owners, p: Path)
    requires Inv(c, own) && Victim !in own && Candidate(c, p)
    ensures Thinner(c, EvictLeaf(c, p), own)
  {
    hide Inv, Loose, Candidate;
    EvictLeafOk(c, own, p);
    forall b
      ensures Loose(c, b) <==> Loose(EvictLeaf(c, p), b)
    {
      EvictLoose(c, own, p, b);
    }
    assert Keeps(c, EvictLeaf(c, p), own);
  }

  /** With fewer nodes every page has at most the references it had. */
  lemma ThinnerCounts(c: Cache, d: Cache, own: Owners, b: nat)
    requires Thinner(c, d, own) && b in d.alloc
    ensures b in c.alloc && d.alloc[b] <= c.alloc[b]
  {
    hide Shape, Count;
    if d.alloc[b] == 0 {
      assert Loose(d, b);
    } else {
      FewerHolders(c, d, b);
      if b !in c.alloc {
        Unlisted(c, own, b);
      }
    }
  }

  lemma FewerHolders(c: Cache, d: Cache, b: nat)
    requires forall p :: p in d.tree ==> p in c.tree && d.tree[p] == c.tree[p]
    ensures Count(Blocks(d.tree), b) <= Count(Blocks(c.tree), b)
  {
    SubsetCard(Holders(Blocks(d.tree), b), Holders(Blocks(c.tree), b));
  }

  lemma ThinnerRoom(c: Cache, d: Cache, own: Owners)
    requires Thinner(c, d, own)
    ensures Room(c) <= Room(d)
  {
    hide Inv, Loose;
    forall b | b in d.alloc
      ensures b in c.alloc
    {
      ThinnerCounts(c, d, own, b);
    }
    SubsetCard(d.alloc.Keys, c.alloc.Keys);
    assert |c.alloc| == |c.alloc.Keys| && |d.alloc| == |d.alloc.Keys|;
  }

  /** A leaf that could go can still go when others have gone first. */
  lemma ThinnerCandidate(c: Cache, d: Cache, own: Owners, q: Path)
    requires Thinner(c, d, own) && Candidate(c, q) && q in d.tree
    ensures Candidate(d, q)
  {
    var b :| b in c.tree[q].blocks && b in c.alloc && c.alloc[b] <= 1;
    assert ListOk(d, d.tree[q].blocks);
    ThinnerCounts(c, d, own, b);
    assert !HasChild(d.tree, q);
  }

  lemma ThinnerStep(c: Cache, d: Cache, own: Owners, q: Path)
    requires Thinner(c, d, own) && Victim !in own && Candidate(c, q)
    ensures q in d.tree ==> Candidate(d, q) && Thinner(EvictLeaf(c, q), EvictLeaf(d, q), own)
    ensures q !in d.tree ==> Thinner(EvictLeaf(c, q), d, own)
  {
    hide Inv, Loose, Candidate, EvictLeaf;
    EvictLeafOk(c, own, q);
    EvictThinner(c, own, q);
    assert Keeps(c, EvictLeaf(c, q), own);
    if q in d.tree {
      ThinnerCandidate(c, d, own, q);
      EvictLeafOk(d, own, q);
      EvictThinner(d, own, q);
      assert Keeps(d, EvictLeaf(d, q), own);
    }
  }

  /** Whatever could be evicted before can be evicted still, and leaves at least as much. */
  lemma {:induction false} ThinnerGives(c: Cache, d: Cache, own: Owners, ps: seq<Path>) returns (qs: seq<Path>)
    requires Thinner(c, d, own) && Victim !in own && Evicting(c, ps)
    ensures Evicting(d, qs) && Room(Evicted(c, ps)) <= Room(Evicted(d, qs))
    decreases |ps|
  {
    hide Thinner, Candidate, EvictLeaf, Room;
    if ps == [] {
      ThinnerRoom(c, d, own);
      qs := [];
    } else {
      var p := ps[0];
      InTree(c, p);
      ThinnerStep(c, d, own, p);
      if p in d.tree {
        var rest := ThinnerGives(EvictLeaf(c, p), EvictLeaf(d, p), own, ps[1..]);
        qs := [p] + rest;
        assert qs[1..] == rest;
      } else {
        qs := ThinnerGives(EvictLeaf(c, p), d, own, ps[1..]);
      }
    }
  }

  lemma InTree(c: Cache, p: Path)
    requires Candidate(c, p)
    ensures p in c.tree
  {
  }

  /** Evicting a leaf never costs a page that another choice would have given. */
  lemma GivesAfterLeaf(c: Cache, own: Owners, p: Path, n: int)
    requires Inv(c, own) && Victim !in own && Candidate(c, p)
    ensures p in c.tree && (CanGive(c, n) <==> CanGive(EvictLeaf(c, p), n))
  {
    hide Inv, Candidate, EvictLeaf, Room, Thinner;
    InTree(c, p);
    var d := EvictLeaf(c, p);
    EvictThinner(c, own, p);
    if CanGive(c, n) {
      var ps :| Evicting(c, ps) && n <= Room(Evicted(c, ps));
      var qs := ThinnerGives(c, d, own, ps);
    }
    if CanGive(d, n) {
      var qs :| Evicting(d, qs) && n <= Room(Evicted(d, qs));
      assert ([p] + qs)[1..] == qs;
      assert Evicting(c, [p] + qs) && Evicted(c, [p] + qs) == Evicted(d, qs);
    }
  }

  lemma {:induction false} GivesAfterEvictFrom(c: Cache, own: Owners, cands: seq<Path>, needed: int, n: int)
    requires Inv(c, own) && Victim !in own
    requires NoDup(cands) && forall p :: p in cands ==> Candidate(c, p)
    ensures CanGive(c, n) <==> CanGive(EvictFrom(c, cands, needed).0, n)
    decreases |cands|
  {
    hide Inv, Keeps, Candidate, NoDup, EvictLeaf, CanGive;
    if needed > 0 && cands != [] {
      var p := cands[0];
      EvictLeafOk(c, own, p);
      FirstApart(cands);
      forall q | q in cands[1..]
        ensures Candidate(EvictLeaf(c, p), q)
      {
        StillCandidate(c, own, p, q);
      }
      GivesAfterLeaf(c, own, p, n);
      GivesAfterEvictFrom(EvictLeaf(c, p), own, cands[1..], needed - |c.tree[p].blocks|, n);
    }
  }

  lemma GivesAfterEvict(c: Cache, own: Owners, needed: int, n: int)
    requires Inv(c, own) && Victim !in own
    ensures CanGive(c, n) <==> CanGive(Evict(c, needed).0, n)
  {
    hide CanGive, Candidate;
    CandidatesDistinct(c, c.order);
    GivesAfterEvictFrom(c, own, Candidates(c), needed, n);
  }

  // ---------------------------------------------------------------- taking a page

  /** One more page allocated, which no node lists. */
  ghost predicate OneMore(x: Cache, y: Cache, own: Owners, b: nat) {
    && Inv(x, own) && Shape(y) && |y.kv| == |x.kv| && y.tree == x.tree && y.order == x.order
    && b !in x.alloc && y.alloc == x.alloc[b := 1]
  }

  lemma MoreCandidate(x: Cache, y: Cache, own: Owners, b: nat, p: Path)
    requires OneMore(x, y, own, b)
    ensures Candidate(x, p) <==> Candidate(y, p)
  {
    hide Shape, Counted;
    if p in x.tree {
      assert ListOk(x, x.tree[p].blocks);
    }
  }

  lemma MoreLeaf(x: Cache, y: Cache, own: Owners, b: nat, p: Path)
    requires OneMore(x, y, own, b) && Victim !in own && Candidate(x, p)
    ensures p in x.tree && p in y.tree && OneMore(EvictLeaf(x, p), EvictLeaf(y, p), own, b)
  {
    hide PoolOk, TreeOk, ListsOk, Counted, Release, HasChild, Keeps;
    MoreCandidate(x, y, own, b, p);
    EvictLeafOk(x, own, p);
    LeafShape(x, p);
    LeafShape(y, p);
    ListedIn(x, own, p);
    var l := x.tree[p].blocks;
    ReleaseEffect(Unlinked(x, p), l);
    ReleaseEffect(Unlinked(y, p), l);
    forall a
      ensures Freed(Unlinked(y, p), l, a) <==> Freed(Unlinked(x, p), l, a)
    {
    }
    assert EvictLeaf(y, p).alloc.Keys == EvictLeaf(x, p).alloc.Keys + {b};
  }

  lemma ListedIn(c: Cache, own: Owners, p: Path)
    requires ListsOk(c, own) && p in c.tree
    ensures forall b :: b in c.tree[p].blocks ==> b in c.alloc
  {
    assert ListOk(c, c.tree[p].blocks);
  }

  lemma LeafShape(c: Cache, p: Path)
    requires Shape(c) && Candidate(c, p)
    ensures p in c.tree && Shape(Unlinked(c, p))
  {
    hide PoolOk;
    CandidatesTie(c, p);
    UnlinkTree(c, p);
  }

  lemma MoreRoom(x: Cache, y: Cache, own: Owners, b: nat)
    requires OneMore(x, y, own, b)
    ensures Room(y) == Room(x) - 1
  {
    hide Inv, Shape;
    assert |x.alloc| == |x.alloc.Keys| && |y.alloc| == |y.alloc.Keys|;
    assert y.alloc.Keys == x.alloc.Keys + {b};
  }

  lemma {:induction false} MoreEvicting(x: Cache, y: Cache, own: Owners, b: nat, ps: seq<Path>)
    requires OneMore(x, y, own, b) && Victim !in own
    ensures Evicting(x, ps) <==> Evicting(y, ps)
    ensures Evicting(x, ps) ==> Room(Evicted(y, ps)) == Room(Evicted(x, ps)) - 1
    decreases |ps|
  {
    hide OneMore, Candidate, EvictLeaf, Room;
    if ps == [] {
      MoreRoom(x, y, own, b);
    } else {
      var p := ps[0];
      MoreCandidate(x, y, own, b, p);
      if Candidate(x, p) {
        MoreLeaf(x, y, own, b, p);
        MoreEvicting(EvictLeaf(x, p), EvictLeaf(y, p), own, b, ps[1..]);
      }
    }
  }

  /** Handing out a page lowers by one what can still be given. */
  lemma GivesAfterTaking(x: Cache, y: Cache, own: Owners, b: nat, n: int)
    requires OneMore(x, y, own, b) && Victim !in own
    ensures CanGive(x, n) <==> CanGive(y, n - 1)
  {
    hide OneMore, Evicting, Evicted, Room;
    if CanGive(x, n) {
      var ps :| Evicting(x, ps) && n <= Room(Evicted(x, ps));
      MoreEvicting(x, y, own, b, ps);
    }
    if CanGive(y, n - 1) {
      var ps :| Evicting(y, ps) && n - 1 <= Room(Evicted(y, ps));
      MoreEvicting(x, y, own, b, ps);
    }
  }

  // ---------------------------------------------------------------- allocation

  lemma GivesNothing(c: Cache, n: int)
    requires Shape(c)
    ensures n <= 0 ==> CanGive(c, n)
    ensures c.free == [] && c.next == |c.kv| && Candidates(c) == [] ==> (CanGive(c, n) <==> n <= 0)
  {
    hide Shape, Candidate, Room;
    RoomBounds(c);
    assert Evicting(c, []) && Evicted(c, []) == c;
    if Candidates(c) == [] && CanGive(c, n) {
      var ps :| Evicting(c, ps) && n <= Room(Evicted(c, ps));
      if ps != [] {
        IsCandidate(c, ps[0]);
      }
    }
  }

  lemma IsCandidate(c: Cache, p: Path)
    requires Shape(c) && Candidate(c, p)
    ensures p in Candidates(c)
  {
    CandidatesAll(c, c.order, p);
  }

  /** One page is found exactly when one can be given, and the rest can be given afterwards. */
  lemma OneTaken(c: Cache, own: Owners, need: nat, n: nat)
    requires Inv(c, own) && Victim !in own && need > 0 && n > 0
    ensures match AllocOne(c, need)
      case Got(c1, _) => CanGive(c, n) <==> CanGive(c1, n - 1)
      case Oom(_) => !CanGive(c, n)
  {
    hide ListsOk, Counted, PoolOk, TreeOk, CanGive, Keeps, Candidates, Evict;
    NextBound(c);
    if c.free != [] {
      PopShape(c);
      GivesAfterTaking(c, Pop(c), own, c.free[|c.free| - 1], n);
    } else if c.next < |c.kv| {
      BumpShape(c);
      GivesAfterTaking(c, Bump(c), own, c.next, n);
    } else {
      EvictOk(c, own, need);
      GivesAfterEvict(c, own, need, n);
      var (c1, freed) := Evict(c, need);
      if freed > 0 {
        PopShape(c1);
        GivesAfterTaking(c1, Pop(c1), own, c1.free[|c1.free| - 1], n);
      } else {
        GivesNothing(c, n);
      }
    }
  }

  lemma {:induction false} LoopSucceedsExactly(c: Cache, own: Owners, count: nat)
    requires Inv(c, own) && Victim !in own && InFlight in own && |own[InFlight]| <= count
    ensures AllocLoop(c, own[InFlight], count).Got? <==> CanGive(c, count - |own[InFlight]|)
    decreases count - |own[InFlight]|
  {
    hide Shape, ListsOk, Counted, Keeps, Calm, CanGive;
    var ids := own[InFlight];
    if |ids| == count {
      GivesNothing(c, 0);
    } else {
      OneTaken(c, own, count - |ids|, count - |ids|);
      AllocOneOk(c, own, InFlight, count - |ids|);
      match AllocOne(c, count - |ids|) {
        case Got(c1, b) => LoopSucceedsExactly(c1, own[InFlight := ids + b], count);
        case Oom(_) =>
      }
    }
  }

  /**
   An allocation succeeds exactly when some sequence of leaf evictions, however chosen, would
   leave that many pages unallocated: taking leaves in tree order and no more than needed never
   refuses what another choice could have given.
   */
  lemma AllocSucceedsExactly(c: Cache, own: Owners, count: nat)
    requires Inv(c, own) && Victim !in own && InFlight !in own
    ensures AllocBlocks(c, count).Got? <==> CanGive(c, count)
  {
    hide Inv, AllocLoop, CanGive;
    AddIdle(c, own, InFlight);
    var own0 := own[InFlight := []];
    LoopSucceedsExactly(c, own0, count);
    assert own0[InFlight] == [];
  }
}
