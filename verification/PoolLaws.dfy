/**
 What the pool gives and takes, stated without the loops that do it: the order in which pages go
 back and out, which pages an allocation hands out, and exactly when an allocation succeeds.
 */
module PoolLaws {
  import opened Prelude
  import opened Paging
  import opened Ledger
  import opened PagePool
  import opened Allocator

  // ---------------------------------------------------------------- release

  ghost predicate Ascending(at: seq<nat>) {
    forall i, j :: 0 <= i < j < |at| ==> at[i] < at[j]
  }

  /** Position `k` is where the list first names a page whose last reference it drops. */
  ghost predicate FreesAt(c: Cache, l: seq<nat>, k: nat) {
    k < |l| && Freed(c, l, l[k]) && l[k] !in l[..k]
  }

  ghost function At(l: seq<nat>, at: seq<nat>): (r: seq<nat>)
    requires forall i :: 0 <= i < |at| ==> at[i] < |l|
    ensures |r| == |at|
  {
    seq(|at|, i requires 0 <= i < |at| => l[at[i]])
  }

  /**
   Released pages go on top of the free stack in list order, each once, and they are exactly
   the pages that nothing refers to any more.
   */
  lemma {:induction false} ReleaseOrder(c: Cache, l: seq<nat>) returns (at: seq<nat>)
    requires Shape(c)
    ensures Ascending(at) && forall k: nat :: k in at <==> FreesAt(c, l, k)
    ensures (forall i :: 0 <= i < |at| ==> at[i] < |l|) && Release(c, l).free == c.free + At(l, at)
    decreases |l|
  {
    hide Shape;
    at := [];
    if l != [] {
      var n := |l| - 1;
      at := ReleaseOrder(c, l[..n]);
      ReleaseEffect(c, l[..n]);
      var m := Release(c, l[..n]);
      assert l == l[..n] + [l[n]];
      forall k: nat
        ensures FreesAt(c, l, k) <==> FreesAt(c, l[..n], k) || (k == n && FreesAt(c, l, n))
      {
        assert k < n ==> l[..n][..k] == l[..k] && l[..n][k] == l[k];
      }
      forall i | 0 <= i < |at|
        ensures at[i] < n
      {
        assert at[i] in at;
      }
      assert At(l[..n], at) == At(l, at);
      if FreesAt(c, l, n) {
        assert l[n] in m.alloc && m.alloc[l[n]] <= 1;
        assert At(l, at + [n]) == At(l, at) + [l[n]];
        at := at + [n];
      }
    }
  }

  /** A page that is given back is wiped, and no other page is. */
  lemma {:induction false} ReleaseWipes(c: Cache, l: seq<nat>, b: nat)
    requires Shape(c) && b < |c.kv|
    ensures var kv := Release(c, l).kv;
      && |kv| == |c.kv| && |kv[b]| == c.bs
      && (!Freed(c, l, b) ==> kv[b] == c.kv[b])
      && (Freed(c, l, b) ==> forall s :: 0 <= s < c.bs ==> kv[b][s] == c.zero)
    decreases |l|
  {
    hide TreeOk, PoolOk;
    ReleaseEffect(c, l);
    if l != [] {
      var n := |l| - 1;
      assert l == l[..n] + [l[n]];
      ReleaseWipes(c, l[..n], b);
      ReleaseEffect(c, l[..n]);
    }
  }

  // ---------------------------------------------------------------- allocation order

  /** Pages that are not allocated. */
  ghost function Room(c: Cache): int {
    |c.kv| - |c.alloc|
  }

  /** The `i`-th page an allocation takes: the free stack from its top, then new ids. */
  ghost function Nth(c: Cache, i: nat): nat {
    if i < |c.free| then c.free[|c.free| - 1 - i] else c.next + i - |c.free|
  }

  ghost function FirstPages(c: Cache, n: nat): (r: seq<nat>)
    ensures |r| == n
  {
    seq(n, i requires 0 <= i < n => Nth(c, i))
  }

  /** `c'` is `c` with its first `n` pages handed out, one reference each, and nothing else. */
  ghost predicate HandsOut(c: Cache, c': Cache, n: nat) {
    && c' == c.(alloc := c'.alloc, free := c'.free, next := c'.next)
    && c'.free == c.free[..(if n <= |c.free| then |c.free| - n else 0)]
    && c'.next == c.next + (if n <= |c.free| then 0 else n - |c.free|)
    && c'.alloc.Keys == c.alloc.Keys + (set b | b in FirstPages(c, n))
    && (forall b :: b in FirstPages(c, n) ==> c'.alloc[b] == 1)
    && (forall b :: b in c.alloc && b !in FirstPages(c, n) ==> c'.alloc[b] == c.alloc[b])
  }

  ghost function Unissued(c: Cache): nat
    requires Shape(c)
  {
    |c.free| + (|c.kv| - c.next)
  }

  lemma NoneOut(c: Cache)
    ensures HandsOut(c, c, 0)
  {
    assert c.free[..|c.free|] == c.free;
    assert FirstPages(c, 0) == [];
  }

  lemma OneOut(c: Cache, need: nat)
    requires Shape(c) && Unissued(c) > 0
    ensures var r := AllocOne(c, need);
      && r.Got? && r.ids == FirstPages(c, 1) && HandsOut(c, r.c, 1)
      && Shape(r.c) && Unissued(r.c) == Unissued(c) - 1
  {
    hide TreeOk;
    assert FirstPages(c, 1) == [Nth(c, 0)];
    if c.free != [] {
      PopShape(c);
    } else {
      BumpShape(c);
    }
  }

  lemma OutTrans(c: Cache, c1: Cache, c2: Cache, n: nat)
    requires HandsOut(c, c1, 1) && HandsOut(c1, c2, n)
    ensures HandsOut(c, c2, n + 1) && FirstPages(c, n + 1) == FirstPages(c, 1) + FirstPages(c1, n)
  {
    var l := FirstPages(c, n + 1);
    forall i | 0 <= i < n
      ensures Nth(c1, i) == Nth(c, i + 1)
    {
    }
    assert l == FirstPages(c, 1) + FirstPages(c1, n);
    assert c2.free == c.free[..(if n + 1 <= |c.free| then |c.free| - (n + 1) else 0)];
  }

  /** While pages are left, the next ones come off the top of the free stack and then in id order. */
  lemma {:induction false} LoopHandsOut(c: Cache, ids: seq<nat>, n: nat, count: nat)
    requires Shape(c) && n <= Unissued(c) && |ids| + n <= count
    ensures exists c' :: HandsOut(c, c', n) && AllocLoop(c, ids, count) == AllocLoop(c', ids + FirstPages(c, n), count)
    decreases n
  {
    hide Shape, HandsOut, Unissued, AllocOne;
    if n == 0 {
      NoneOut(c);
      assert ids + FirstPages(c, 0) == ids;
    } else {
      OneOut(c, count - |ids|);
      var r := AllocOne(c, count - |ids|);
      LoopHandsOut(r.c, ids + r.ids, n - 1, count);
      var c' :| HandsOut(r.c, c', n - 1)
        && AllocLoop(r.c, ids + r.ids, count) == AllocLoop(c', ids + r.ids + FirstPages(r.c, n - 1), count);
      OutTrans(c, r.c, c', n - 1);
      assert ids + r.ids + FirstPages(r.c, n - 1) == ids + FirstPages(c, n);
    }
  }

  /**
   An allocation that fits takes exactly the first pages of the free stack and then new ids.  A
   larger one takes all of those, evicts for exactly what is missing, and goes on from there, or
   gives everything back when the eviction freed nothing.
   */
  lemma AllocTakesExactly(c: Cache, count: nat) returns (dry: Cache)
    requires Shape(c)
    ensures var n := Min(count, Unissued(c));
      HandsOut(c, dry, n) &&
      AllocBlocks(c, count) ==
        if n == count then Got(dry, FirstPages(c, n))
        else
          var (c1, freed) := Evict(dry, count - n);
          if freed == 0 || c1.free == [] then Oom(Release(c1, FirstPages(c, n)))
          else AllocLoop(c1, FirstPages(c, n), count)
  {
    hide Shape, HandsOut, Unissued, Evict, AllocLoop;
    var n := Min(count, Unissued(c));
    LoopHandsOut(c, [], n, count);
    assert [] + FirstPages(c, n) == FirstPages(c, n);
    dry :| HandsOut(c, dry, n) && AllocLoop(c, [], count) == AllocLoop(dry, [] + FirstPages(c, n), count);
    if n < count {
      DryAfter(c, dry);
      DryLoop(dry, FirstPages(c, n), count);
    } else {
      LoopDone(dry, FirstPages(c, n));
    }
  }

  lemma LoopDone(c: Cache, ids: seq<nat>)
    ensures AllocLoop(c, ids, |ids|) == Got(c, ids)
  {
  }

  lemma DryAfter(c: Cache, dry: Cache)
    requires Shape(c) && HandsOut(c, dry, Unissued(c))
    ensures dry.free == [] && dry.next == |dry.kv|
  {
  }

  /** With nothing left, the rest of the loop is the eviction and what it freed. */
  lemma DryLoop(c: Cache, ids: seq<nat>, count: nat)
    requires c.free == [] && c.next == |c.kv| && |ids| < count
    ensures var (c1, freed) := Evict(c, count - |ids|);
      AllocLoop(c, ids, count) ==
        if freed == 0 || c1.free == [] then Oom(Release(c1, ids)) else AllocLoop(c1, ids, count)
  {
    hide Evict, Release;
    var (c1, freed) := Evict(c, count - |ids|);
    if freed != 0 && c1.free != [] {
      assert AllocOne(c, count - |ids|) == AllocOne(c1, count - |ids|);
    }
  }
}
