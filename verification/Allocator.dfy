/**
 Page allocation with eviction on exhaustion, and copy-on-write.  An allocation in progress is
 an owner of its own, so the reference counts stay balanced while later pages are found.
 */
module Allocator {
  import opened Prelude
  import opened Paging
  import opened Ledger
  import opened PagePool

  datatype Outcome = Got(c: Cache, ids: seq<nat>) | Oom(c: Cache)

  ghost function Pop(c: Cache): Cache
    requires c.free != []
  {
    var n := |c.free| - 1;
    c.(free := c.free[..n], alloc := c.alloc[c.free[n] := 1])
  }

  ghost function Bump(c: Cache): Cache {
    c.(next := c.next + 1, alloc := c.alloc[c.next := 1])
  }

  /** One page: the free stack first, then a never-issued id, then whatever eviction frees. */
  ghost function AllocOne(c: Cache, need: nat): Outcome {
    if c.free != [] then Got(Pop(c), [c.free[|c.free| - 1]])
    else if c.next < |c.kv| then Got(Bump(c), [c.next])
    else
      var (c1, freed) := Evict(c, need);
      if freed <= 0 || c1.free == [] then Oom(c1)
      else Got(Pop(c1), [c1.free[|c1.free| - 1]])
  }

  ghost function AllocLoop(c: Cache, ids: seq<nat>, count: nat): Outcome
    decreases count - |ids|
  {
    if |ids| >= count then Got(c, ids)
    else match AllocOne(c, count - |ids|)
      case Oom(c1) => Oom(Release(c1, ids))
      case Got(c1, b) => if |b| == 1 then AllocLoop(c1, ids + b, count) else Oom(c1)
  }

  /** `count` pages with one reference each, or none at all. */
  ghost function AllocBlocks(c: Cache, count: nat): Outcome {
    AllocLoop(c, [], count)
  }

  /** A page outside the allocated set is on nobody's list. */
  lemma Unlisted(c: Cache, own: Owners, b: nat)
    requires ListsOk(c, own) && b !in c.alloc
    ensures OwnerCount(c, own, b) == 0
    ensures forall k :: k in own ==> b !in own[k]
  {
    forall k | k in own
      ensures b !in own[k]
    {
      assert ListOk(c, own[k]);
    }
    assert Holders(own, b) == {};
    forall p | p in c.tree
      ensures b !in Blocks(c.tree)[p]
    {
      assert ListOk(c, c.tree[p].blocks);
    }
    assert Holders(Blocks(c.tree), b) == {};
  }

  /** Handing an unallocated page to owner `k`. */
  lemma Issue(c: Cache, own: Owners, k: Owner, b: nat, c': Cache)
    requires Inv(c, own) && k in own && b !in c.alloc
    requires c' == c.(alloc := c.alloc[b := 1], free := c'.free, next := c'.next) && Shape(c')
    ensures Inv(c', own[k := own[k] + [b]])
    ensures Keeps(c, c', own)
  {
    hide Shape, Count, Blocks;
    var own' := own[k := own[k] + [b]];
    Unlisted(c, own, b);
    forall x | x in c'.alloc
      ensures c'.alloc[x] == OwnerCount(c', own', x)
    {
      CountSet(own, k, own'[k], x);
    }
    assert ListsOk(c', own') by {
      forall j | j in own'
        ensures ListOk(c', own'[j])
      {
        assert ListOk(c, own[j]);
        if j == k {
          NoDupConcat(own[k], [b]);
        }
      }
      forall p | p in c.tree
        ensures ListOk(c', c.tree[p].blocks)
      {
        assert ListOk(c, c.tree[p].blocks);
      }
    }
    KeepsRefl(c, own);
    SameGrid(c, c', own);
  }

  lemma SameGrid(c: Cache, c': Cache, own: Owners)
    requires Keeps(c, c, own) && c'.tree == c.tree && c'.kv == c.kv && c'.bs == c.bs && c'.zero == c.zero
    ensures Keeps(c, c', own)
  {
    forall k | k in own
      ensures SameRows(c, c', own[k])
    {
      assert SameRows(c, c, own[k]);
    }
    forall p | p in c.tree
      ensures SameRows(c, c', c.tree[p].blocks)
    {
      assert SameRows(c, c, c.tree[p].blocks);
    }
  }

  lemma PopShape(c: Cache)
    requires Shape(c) && c.free != []
    ensures Shape(Pop(c)) && c.free[|c.free| - 1] !in c.alloc
  {
    hide TreeOk;
    var n := |c.free| - 1;
    var b := c.free[n];
    assert b in c.free && c.free == c.free[..n] + [b];
    assert Pop(c).alloc.Keys == c.alloc.Keys + {b};
    forall x
      ensures x in c.free <==> x in c.free[..n] || x == b
    {
    }
  }

  lemma BumpShape(c: Cache)
    requires Shape(c) && c.next < |c.kv|
    ensures Shape(Bump(c)) && c.next !in c.alloc
  {
    hide TreeOk;
    assert Bump(c).alloc.Keys == c.alloc.Keys + {c.next};
  }

  /** The listed pages stay allocated and gain no reference. */
  ghost predicate Lighter(c: Cache, c': Cache, l: seq<nat>) {
    forall b :: b in l ==> b in c.alloc && b in c'.alloc && c'.alloc[b] <= c.alloc[b]
  }

  /** No owner's page becomes more shared than it was. */
  ghost predicate Calm(c: Cache, c': Cache, own: Owners) {
    forall k :: k in own ==> Lighter(c, c', own[k])
  }

  lemma CalmRefl(c: Cache, own: Owners)
    requires ListsOk(c, own)
    ensures Calm(c, c, own)
  {
    forall k | k in own
      ensures Lighter(c, c, own[k])
    {
      assert ListOk(c, own[k]);
    }
  }

  lemma CalmTrans(a: Cache, b: Cache, c: Cache, own: Owners)
    requires Calm(a, b, own) && Calm(b, c, own)
    ensures Calm(a, c, own)
  {
    forall k | k in own
      ensures Lighter(a, c, own[k])
    {
      assert Lighter(a, b, own[k]) && Lighter(b, c, own[k]);
    }
  }

  lemma CalmWeaken(c: Cache, c': Cache, own: Owners, own': Owners)
    requires Calm(c, c', own)
    requires forall k :: k in own' ==> k in own && forall b :: b in own'[k] ==> b in own[k]
    ensures Calm(c, c', own')
  {
    forall k | k in own'
      ensures Lighter(c, c', own'[k])
    {
      assert Lighter(c, c', own[k]);
    }
  }

  /** Handing page `b` to owner `k` makes nobody else's page more shared. */
  lemma IssueCalm(c: Cache, c': Cache, own: Owners, k: Owner, b: nat)
    requires ListsOk(c, own) && k in own && Inv(c', own[k := own[k] + [b]])
    requires b in c'.alloc && c'.alloc[b] == 1
    requires forall x :: x in c'.alloc && x != b ==> x in c.alloc && c'.alloc[x] <= c.alloc[x]
    ensures Calm(c, c', own)
  {
    hide Shape;
    var own' := own[k := own[k] + [b]];
    assert own'[k][|own[k]|] == b;
    SoleOwner(c', own', k, b);
    forall j | j in own
      ensures Lighter(c, c', own[j])
    {
      assert ListOk(c, own[j]) && ListOk(c', own'[j]);
      forall x | x in own[j]
        ensures x in c'.alloc && x != b
      {
        assert x in own'[j];
        if j == k {
          var i :| 0 <= i < |own[k]| && own[k][i] == x;
          assert own'[k][i] == x;
        }
      }
    }
  }

  /** One more page for owner `k`; failure needs an exhausted pool and nothing to evict. */
  lemma AllocOneOk(c: Cache, own: Owners, k: Owner, need: nat)
    requires Inv(c, own) && k in own && Victim !in own && need > 0
    ensures match AllocOne(c, need)
      case Got(c', ids) =>
        && |ids| == 1 && c'.alloc.Keys <= c.alloc.Keys + {ids[0]}
        && ids[0] in c'.alloc && c'.alloc[ids[0]] == 1
        && Inv(c', own[k := own[k] + ids]) && Keeps(c, c', own)
        && (forall b :: b in c'.alloc && b != ids[0] ==> b in c.alloc && c'.alloc[b] <= c.alloc[b])
        && Calm(c, c', own)
      case Oom(c') => c' == c && c.free == [] && c.next == |c.kv| && Candidates(c) == []
  {
    hide ListsOk, Counted, Keeps, PoolOk, TreeOk, Calm;
    if c.free != [] {
      PopShape(c);
      Issue(c, own, k, c.free[|c.free| - 1], Pop(c));
      IssueCalm(c, Pop(c), own, k, c.free[|c.free| - 1]);
    } else if c.next < |c.kv| {
      BumpShape(c);
      Issue(c, own, k, c.next, Bump(c));
      IssueCalm(c, Bump(c), own, k, c.next);
    } else {
      EvictOk(c, own, need);
      var (c1, freed) := Evict(c, need);
      NextBound(c);
      if freed > 0 {
        PopShape(c1);
        Issue(c1, own, k, c1.free[|c1.free| - 1], Pop(c1));
        KeepsTrans(c, c1, Pop(c1), own);
        IssueCalm(c, Pop(c1), own, k, c1.free[|c1.free| - 1]);
      }
    }
  }

  lemma NextBound(c: Cache)
    requires Shape(c)
    ensures c.next <= |c.kv|
  {
  }

  /** Pages an in-flight allocation already holds: each has exactly one reference. */
  ghost predicate Private(c: Cache, ids: seq<nat>) {
    forall b :: b in ids ==> b in c.alloc && c.alloc[b] == 1
  }

  /** A listed page has at least one reference. */
  lemma ListedCount(c: Cache, own: Owners, k: Owner, b: nat)
    requires ListsOk(c, own) && Counted(c, own) && k in own && b in own[k]
    ensures b in c.alloc && c.alloc[b] >= 1
  {
    assert ListOk(c, own[k]);
    CountPos(own, k, b);
  }

  lemma StaysPrivate(c: Cache, own: Owners, k: Owner, c': Cache, b: nat)
    requires k in own && Private(c, own[k])
    requires ListsOk(c', own[k := own[k] + [b]]) && Counted(c', own[k := own[k] + [b]])
    requires b in c'.alloc && c'.alloc[b] == 1
    requires forall x :: x in c'.alloc && x != b ==> x in c.alloc && c'.alloc[x] <= c.alloc[x]
    ensures Private(c', own[k] + [b])
  {
    forall x | x in own[k] + [b]
      ensures x in c'.alloc && c'.alloc[x] == 1
    {
      ListedCount(c', own[k := own[k] + [b]], k, x);
    }
  }

  lemma {:induction false} AllocLoopOk(c: Cache, own: Owners, count: nat)
    requires Inv(c, own) && Victim !in own && InFlight in own
    requires |own[InFlight]| <= count && Private(c, own[InFlight])
    ensures match AllocLoop(c, own[InFlight], count)
      case Got(c', ids) =>
        && |ids| == count && Inv(c', own[InFlight := ids]) && Private(c', ids)
        && Keeps(c, c', own) && Calm(c, c', own)
      case Oom(c') =>
        && Inv(c', own - {InFlight}) && Keeps(c, c', own - {InFlight}) && Calm(c, c', own - {InFlight})
        && c'.alloc.Keys <= c.alloc.Keys - (set b | b in own[InFlight])
    decreases count - |own[InFlight]|
  {
    hide Shape, ListsOk, Counted, Keeps, Calm;
    var ids := own[InFlight];
    if |ids| >= count {
      assert own[InFlight := ids] == own;
      KeepsRefl(c, own);
      CalmRefl(c, own);
    } else {
      AllocOneOk(c, own, InFlight, count - |ids|);
      match AllocOne(c, count - |ids|) {
        case Got(c1, b) =>
          var own1 := own[InFlight := ids + b];
          assert b == [b[0]];
          StaysPrivate(c, own, InFlight, c1, b[0]);
          AllocLoopOk(c1, own1, count);
          assert own1 - {InFlight} == own - {InFlight};
          match AllocLoop(c1, ids + b, count) {
            case Got(c', r) =>
              assert own1[InFlight := r] == own[InFlight := r];
              KeepsWeaken(c1, c', own1, own);
              KeepsTrans(c, c1, c', own);
              CalmWeaken(c1, c', own1, own);
              CalmTrans(c, c1, c', own);
            case Oom(c') =>
              KeepsDrop(c, c1, own, InFlight);
              KeepsTrans(c, c1, c', own - {InFlight});
              CalmWeaken(c, c1, own, own - {InFlight});
              CalmTrans(c, c1, c', own - {InFlight});
          }
        case Oom(c1) =>
          ReleaseOwner(c1, own, InFlight);
          ReleasePrivate(c1, ids);
          ReleaseCalm(c1, own, InFlight);
      }
    }
  }

  lemma ReleasePrivate(c: Cache, ids: seq<nat>)
    requires Shape(c) && Private(c, ids)
    ensures Release(c, ids).alloc.Keys == c.alloc.Keys - (set b | b in ids)
  {
    hide Shape;
    ReleaseEffect(c, ids);
    forall b | b in ids
      ensures Freed(c, ids, b)
    {
    }
  }

  lemma ReleaseCalm(c: Cache, own: Owners, k: Owner)
    requires Inv(c, own) && k in own
    ensures Calm(c, Release(c, own[k]), own - {k})
  {
    hide TreeOk, PoolOk, Counted;
    ReleaseOwner(c, own, k);
    ReleaseEffect(c, own[k]);
    var c' := Release(c, own[k]);
    forall j | j in own - {k}
      ensures Lighter(c, c', own[j])
    {
      assert ListOk(c, own[j]) && ListOk(c', (own - {k})[j]);
    }
  }

  /** Fewer or shorter owner lists are kept as well. */
  lemma KeepsWeaken(c: Cache, c': Cache, own: Owners, own': Owners)
    requires Keeps(c, c', own)
    requires forall k :: k in own' ==> k in own && forall b :: b in own'[k] ==> b in own[k]
    ensures Keeps(c, c', own')
  {
    forall k | k in own'
      ensures SameRows(c, c', own'[k])
    {
      assert SameRows(c, c', own[k]);
    }
  }

  lemma KeepsDrop(c: Cache, c': Cache, own: Owners, k: Owner)
    requires Keeps(c, c', own)
    ensures Keeps(c, c', own - {k})
  {
  }

  lemma AddIdle(c: Cache, own: Owners, k: Owner)
    requires Inv(c, own) && k !in own
    ensures Inv(c, own[k := []])
  {
    hide Shape, Count;
    forall b | b in c.alloc
      ensures Count(own[k := []], b) == Count(own, b)
    {
      CountSet(own, k, [], b);
    }
  }

  /**
   Allocation: on success `count` pages with one reference each join the owners, on failure
   nothing new stays allocated; either way every other owner keeps its pages and their rows.
   */
  lemma AllocBlocksOk(c: Cache, own: Owners, count: nat)
    requires Inv(c, own) && Victim !in own && InFlight !in own
    ensures match AllocBlocks(c, count)
      case Got(c', ids) =>
        && |ids| == count && Inv(c', own[InFlight := ids]) && Private(c', ids)
        && Keeps(c, c', own) && Calm(c, c', own)
      case Oom(c') =>
        Inv(c', own) && Keeps(c, c', own) && Calm(c, c', own) && c'.alloc.Keys <= c.alloc.Keys
  {
    hide Inv, Keeps, Calm;
    var own0 := own[InFlight := []];
    AddIdle(c, own, InFlight);
    AllocLoopOk(c, own0, count);
    assert own0 - {InFlight} == own;
    match AllocBlocks(c, count) {
      case Got(c', ids) =>
        assert own0[InFlight := ids] == own[InFlight := ids];
        KeepsDrop(c, c', own0, InFlight);
        CalmWeaken(c, c', own0, own);
      case Oom(c') =>
    }
  }

  /** A single page is refused exactly when the pool is exhausted and no leaf can be evicted. */
  lemma OomExactly(c: Cache, own: Owners)
    requires Inv(c, own) && Victim !in own && InFlight !in own
    ensures AllocBlocks(c, 1).Oom? <==> c.free == [] && c.next == |c.kv| && Candidates(c) == []
  {
    hide Shape, ListsOk, Counted, Keeps, Calm;
    var own0 := own[InFlight := []];
    AddIdle(c, own, InFlight);
    AllocOneOk(c, own0, InFlight, 1);
    EvictOk(c, own, 1);
    match AllocOne(c, 1) {
      case Got(c1, b) => assert AllocLoop(c, [], 1) == AllocLoop(c1, [] + b, 1);
      case Oom(c1) =>
    }
  }

  // ---------------------------------------------------------------- copy-on-write

  /** A shared page is copied to a private one; a private page is returned as it is. */
  ghost function Cow(c: Cache, b: nat): Outcome {
    if b !in c.alloc || c.alloc[b] <= 1 then Got(c, [b])
    else match AllocBlocks(c, 1)
      case Oom(c1) => Oom(c1)
      case Got(c1, ids) =>
        if |ids| == 1 && ids[0] < |c1.kv| && b < |c1.kv| && b in c1.alloc then
          Got(c1.(kv := c1.kv[ids[0] := c1.kv[b]], alloc := c1.alloc[b := c1.alloc[b] - 1]), ids)
        else Got(c1, ids)
  }

  function Replace(l: seq<nat>, i: nat, n: nat): seq<nat>
    requires i < |l|
  {
    l[i := n]
  }

  lemma NoDupUpdate(l: seq<nat>, i: nat, n: nat)
    requires i < |l| && NoDup(l) && n !in l
    ensures NoDup(Replace(l, i, n))
    ensures forall x :: x in Replace(l, i, n) <==> (x in l && x != l[i]) || x == n
  {
    forall x
      ensures x in Replace(l, i, n) <==> (x in l && x != l[i]) || x == n
    {
      if x in l && x != l[i] {
        var j :| 0 <= j < |l| && l[j] == x;
        assert Replace(l, i, n)[j] == x;
      }
      if x == n {
        assert Replace(l, i, n)[i] == x;
      }
    }
  }

  /** Replacing a shared page of owner `k` by the in-flight page, and dropping its reference. */
  lemma CowSwap(c: Cache, own: Owners, k: Owner, i: nat, n: nat, c': Cache)
    requires k in own && i < |own[k]| && InFlight !in own && Inv(c, own[InFlight := [n]]) && Private(c, [n])
    requires n < |c.kv| && own[k][i] in c.alloc && own[k][i] < |c.kv|
    requires var b := own[k][i]; c' == c.(kv := c.kv[n := c.kv[b]], alloc := c.alloc[b := c.alloc[b] - 1])
    ensures Inv(c', own[k := Replace(own[k], i, n)])
    ensures Keeps(c, c', own) && Calm(c, c', own) && n !in own[k]
  {
    hide TreeOk, Count, Blocks;
    var b, l := own[k][i], own[k];
    var own1: Owners, own2: Owners := own[InFlight := [n]], own[k := Replace(own[k], i, n)];
    assert own1[InFlight] == [n] && n in own1[InFlight];
    SoleOwner(c, own1, InFlight, n);
    assert own1[k] == l;
    NoDupUpdate(l, i, n);
    forall x | x in c'.alloc
      ensures c'.alloc[x] == OwnerCount(c', own2, x)
    {
      CountSet(own, InFlight, [n], x);
      CountSet(own, k, Replace(l, i, n), x);
    }
    forall j | j in own
      ensures ListOk(c', own[j]) && SameRows(c, c', own[j]) && Lighter(c, c', own[j])
    {
      assert own1[j] == own[j] && ListOk(c, own1[j]);
    }
    forall p | p in c.tree
      ensures ListOk(c', c.tree[p].blocks) && SameRows(c, c', c.tree[p].blocks)
    {
      assert ListOk(c, c.tree[p].blocks);
    }
    assert ListOk(c', Replace(l, i, n));
    assert c'.alloc.Keys == c.alloc.Keys;
  }

  /** A page with one reference is listed by its holder only. */
  lemma SoleOwner(c: Cache, own: Owners, k: Owner, b: nat)
    requires ListsOk(c, own) && Counted(c, own) && k in own && b in own[k] && b in c.alloc && c.alloc[b] <= 1
    ensures forall j :: j in own && j != k ==> b !in own[j]
    ensures forall p :: p in c.tree ==> b !in c.tree[p].blocks
  {
    forall j | j in own && j != k
      ensures b !in own[j]
    {
      if b in own[j] {
        SoleHolder(own, k, j, b);
      }
    }
    forall p | p in c.tree
      ensures b !in c.tree[p].blocks
    {
      if b in c.tree[p].blocks {
        CountPos(Blocks(c.tree), p, b);
        CountPos(own, k, b);
      }
    }
  }

  /**
   Copy-on-write of page `i` of owner `k`: afterwards that page is private to `k` and holds the
   same rows, and every owner, `k` included, still finds its old rows on its old pages.
   */
  lemma CowOk(c: Cache, own: Owners, k: Owner, i: nat)
    requires Inv(c, own) && Victim !in own && InFlight !in own && k in own && i < |own[k]|
    ensures own[k][i] < |c.kv|
    ensures match Cow(c, own[k][i])
      case Got(c', ids) =>
        && |ids| == 1 && Inv(c', own[k := Replace(own[k], i, ids[0])])
        && Keeps(c, c', own) && Calm(c, c', own)
        && ids[0] in c'.alloc && c'.alloc[ids[0]] == 1
        && ids[0] < |c'.kv| && c'.kv[ids[0]] == c.kv[own[k][i]]
      case Oom(c') =>
        Inv(c', own) && Keeps(c, c', own) && Calm(c, c', own)
  {
    hide TreeOk, Keeps, Counted, Calm;
    var b := own[k][i];
    assert b in own[k] && ListOk(c, own[k]);
    if c.alloc[b] <= 1 {
      ListedCount(c, own, k, b);
      assert Replace(own[k], i, b) == own[k];
      assert own[k := own[k]] == own;
      KeepsRefl(c, own);
      CalmRefl(c, own);
    } else {
      AllocBlocksOk(c, own, 1);
      match AllocBlocks(c, 1) {
        case Oom(c1) =>
        case Got(c1, ids) =>
          var own1 := own[InFlight := ids];
          assert ids == [ids[0]] && ids[0] in own1[InFlight];
          assert ListOk(c1, own1[InFlight]) && ListOk(c1, own1[k]) && own1[k] == own[k];
          var c' := Cow(c, b).c;
          CowSwap(c1, own, k, i, ids[0], c');
          KeepsTrans(c, c1, c', own);
          CalmTrans(c, c1, c', own);
          KeptRow(c, c1, own, k, i);
          CowCount(c1, c', own, k, i, ids[0]);
      }
    }
  }

  lemma KeptRow(c: Cache, c': Cache, own: Owners, k: Owner, i: nat)
    requires Keeps(c, c', own) && k in own && i < |own[k]|
    ensures own[k][i] < |c.kv| && own[k][i] < |c'.kv| && c'.kv[own[k][i]] == c.kv[own[k][i]]
  {
    assert SameRows(c, c', own[k]);
    assert own[k][i] in own[k];
  }

  lemma CowCount(c: Cache, c': Cache, own: Owners, k: Owner, i: nat, n: nat)
    requires k in own && i < |own[k]| && n !in own[k] && Private(c, [n])
    requires own[k][i] in c.alloc && c'.alloc == c.alloc[own[k][i] := c.alloc[own[k][i]] - 1]
    ensures n in c'.alloc && c'.alloc[n] == 1
  {
    assert n in [n];
    assert own[k][i] in own[k];
  }

  /** Eviction for a single page takes the first candidate only. */
  lemma EvictForOne(c: Cache, own: Owners)
    requires Inv(c, own) && Victim !in own && Candidates(c) != []
    ensures Candidates(c)[0] in c.tree
    ensures Evict(c, 1).0 == EvictLeaf(c, Candidates(c)[0])
    ensures var l := c.tree[Candidates(c)[0]].blocks; forall b :: b in Evict(c, 1).0.alloc ==>
              b in c.alloc && Evict(c, 1).0.alloc[b] == c.alloc[b] - One(b in l)
  {
    hide Shape, Counted, ListsOk, Candidate, Release;
    var p := Candidates(c)[0];
    assert p in Candidates(c);
    EvictLeafOk(c, own, p);
    FirstCandidate(c, p);
    UnlinkedShape(c, own, p);
    ReleaseEffect(Unlinked(c, p), c.tree[p].blocks);
  }

  lemma FirstCandidate(c: Cache, p: Path)
    requires Candidates(c) != [] && p == Candidates(c)[0] && Candidate(c, p)
    ensures Evict(c, 1).0 == EvictLeaf(c, p)
  {
    hide Release, Candidates;
    var n := |c.tree[p].blocks|;
    assert EvictFrom(EvictLeaf(c, p), Candidates(c)[1..], 1 - n) == (EvictLeaf(c, p), 0);
  }

  lemma UnlinkedShape(c: Cache, own: Owners, p: Path)
    requires Inv(c, own) && Victim !in own && Candidate(c, p)
    ensures Shape(Unlinked(c, p))
  {
    hide ListsOk, Counted, TreeOk;
    CandidatesTie(c, p);
    UnlinkTree(c, p);
  }

  /** A copy takes one page, and one reference off the shared page. */
  lemma CowTakes(c: Cache, own: Owners, k: Owner, i: nat)
    requires Inv(c, own) && Victim !in own && InFlight !in own && k in own && i < |own[k]|
    requires own[k][i] in c.alloc && c.alloc[own[k][i]] >= 2 && Cow(c, own[k][i]).Got?
    ensures var b, r := own[k][i], AllocOne(c, 1);
      && AllocBlocks(c, 1).Got? && r.Got? && b in r.c.alloc && r.c.alloc[b] >= 1
      && Cow(c, b).c.alloc == r.c.alloc[b := r.c.alloc[b] - 1]
  {
    hide Shape, ListsOk, Counted, Keeps, Calm;
    var b := own[k][i];
    AllocBlocksOk(c, own, 1);
    AddIdle(c, own, InFlight);
    AllocOneOk(c, own[InFlight := []], InFlight, 1);
    var c1, ids := AllocOne(c, 1).c, AllocOne(c, 1).ids;
    assert AllocLoop(c, [], 1) == AllocLoop(c1, [] + ids, 1);
    assert [] + ids == ids;
    var own1 := own[InFlight := ids];
    assert ids == [ids[0]] && ids[0] in own1[InFlight] && own1[k] == own[k];
    ListedCount(c1, own1, k, b);
    assert ids[0] < |c1.kv| && b < |c1.kv| by { AllocBound(c1, ids[0]); AllocBound(c1, b); }
  }

  /**
   Copy-on-write strands the old page, allocated with no owner left, exactly when the copy had
   to evict and the evicted leaf was the only other holder of that page.
   */
  lemma CowStrandsExactly(c: Cache, own: Owners, k: Owner, i: nat)
    requires Inv(c, own) && Victim !in own && InFlight !in own && k in own && i < |own[k]|
    requires Cow(c, own[k][i]).Got?
    ensures var b, c' := own[k][i], Cow(c, own[k][i]).c;
      (b in c'.alloc && c'.alloc[b] == 0) <==>
      && b in c.alloc && c.alloc[b] == 2
      && c.free == [] && c.next == |c.kv|
      && Candidates(c) != [] && Candidates(c)[0] in c.tree
      && b in c.tree[Candidates(c)[0]].blocks
  {
    hide Shape, ListsOk, Counted, Candidates, Evict;
    var b := own[k][i];
    ListedCount(c, own, k, b);
    if c.alloc[b] >= 2 {
      hide Cow, AllocBlocks;
      CowTakes(c, own, k, i);
      OomExactly(c, own);
      if c.free == [] && c.next == |c.kv| {
        EvictForOne(c, own);
        EvictOk(c, own, 1);
        ListedCount(Evict(c, 1).0, own, k, b);
        PopShape(Evict(c, 1).0);
      } else {
        NextBound(c);
        TakesFresh(c, own, b);
      }
    }
  }

  /** A full pool of two pages: a leaf lists both, a request shares the first. */
  ghost function FullPool(z: Row): Cache {
    Cache(1, z, map[0 := 2, 1 := 1], [], 2, [[z], [z]],
          map[[] := Node(0, [], None), [1] := Node(1, [0, 1], None)], [[], [1]])
  }

  lemma FullPoolCounts(z: Row, own: Owners, b: nat)
    requires own == map[Sequence(0) := [0]] && b < 2
    ensures OwnerCount(FullPool(z), own, b) == if b == 0 then 2 else 1
  {
    var nodes := Blocks(FullPool(z).tree);
    assert Holders(nodes, b) == {[1]};
    assert Holders(own, b) == if b == 0 then {Sequence(0)} else {};
  }

  lemma FullPoolShape(z: Row)
    ensures Shape(FullPool(z))
  {
  }

  lemma FullPoolLists(z: Row, own: Owners)
    requires own == map[Sequence(0) := [0]]
    ensures ListsOk(FullPool(z), own)
  {
  }

  lemma FullPoolInv(z: Row, own: Owners)
    requires own == map[Sequence(0) := [0]]
    ensures Inv(FullPool(z), own)
  {
    hide Shape, ListsOk, OwnerCount;
    var c := FullPool(z);
    FullPoolShape(z);
    FullPoolLists(z, own);
    forall b | b in c.alloc
      ensures c.alloc[b] == OwnerCount(c, own, b)
    {
      FullPoolCounts(z, own, b);
    }
  }

  /**
   The stranded page: the request copies its page, the copy evicts the leaf, and the page the
   request gave up ends allocated with no reference, on nobody's list and not free.
   */
  lemma CowStrandsHere(z: Row)
    ensures var own: Owners := map[Sequence(0) := [0]];
      var r := Cow(FullPool(z), 0);
      && Inv(FullPool(z), own)
      && r.Got? && 0 in r.c.alloc && r.c.alloc[0] == 0 && 0 !in r.c.free
      && OwnerCount(r.c, own[Sequence(0) := r.ids], 0) == 0
  {
    hide Inv, Cow;
    var c, own: Owners := FullPool(z), map[Sequence(0) := [0]];
    FullPoolInv(z, own);
    FullPoolLeaf(z);
    OomExactly(c, own);
    CowGot(c, 0);
    CowStrandsExactly(c, own, Sequence(0), 0);
    CowOk(c, own, Sequence(0), 0);
    var r := Cow(c, 0);
    assert Replace([0], 0, r.ids[0]) == r.ids;
    StrandedCount(r.c, own[Sequence(0) := r.ids], 0);
  }

  lemma StrandedCount(c: Cache, own: Owners, b: nat)
    requires Inv(c, own) && b in c.alloc && c.alloc[b] == 0
    ensures OwnerCount(c, own, b) == 0 && b !in c.free
  {
    hide TreeOk;
  }

  lemma CowGot(c: Cache, b: nat)
    requires AllocBlocks(c, 1).Got?
    ensures Cow(c, b).Got?
  {
  }

  lemma FullPoolLeaf(z: Row)
    ensures Candidates(FullPool(z)) == [[1]]
  {
    var c := FullPool(z);
    var p: Path := [1];
    assert 1 in c.tree[p].blocks;
    assert Candidate(c, p) && !Candidate(c, []);
    var paths: seq<Path> := [[], p];
    assert paths[1..] == [p] && [p][1..] == [];
    assert CandidatesIn(c, []) == [];
    assert CandidatesIn(c, [p]) == [p];
  }

  lemma AllocBound(c: Cache, b: nat)
    requires Shape(c) && b in c.alloc
    ensures b < |c.kv|
  {
  }

  lemma TakesFresh(c: Cache, own: Owners, b: nat)
    requires Shape(c) && b in c.alloc && (c.free != [] || c.next < |c.kv|)
    ensures b in AllocOne(c, 1).c.alloc && AllocOne(c, 1).c.alloc[b] == c.alloc[b]
  {
    if c.free != [] {
      PopShape(c);
    } else {
      BumpShape(c);
    }
  }
}
