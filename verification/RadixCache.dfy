/**
 RadixCache: the paged KV store with its reference-counted allocator and prefix tree, updated in
 place.  Every method is proved against the value functions of PagePool, Allocator, PrefixTree
 and Paging, so their invariants and theorems hold of the object.
 */
module RadixCacheImpl {
  import opened Prelude
  import opened Paging
  import opened Ledger
  import opened PagePool
  import opened Allocator
  import opened PrefixTree

  ghost function Rows2(a: array2<Row>): (g: Grid)
    reads a
    ensures |g| == a.Length0
    ensures forall b, s :: 0 <= b < a.Length0 && 0 <= s < a.Length1 ==> |g[b]| == a.Length1 && g[b][s] == a[b, s]
    ensures forall b :: 0 <= b < a.Length0 ==> |g[b]| == a.Length1
  {
    seq(a.Length0, b requires 0 <= b < a.Length0 reads a =>
      seq(a.Length1, s requires 0 <= s < a.Length1 reads a => a[b, s]))
  }

  /** Grids with the same cells are equal. */
  lemma SameCells(g: Grid, h: Grid)
    requires |g| == |h|
    requires forall b :: 0 <= b < |g| ==> |g[b]| == |h[b]|
    requires forall b, s :: 0 <= b < |g| && 0 <= s < |g[b]| ==> g[b][s] == h[b][s]
    ensures g == h
  {
    forall b | 0 <= b < |g|
      ensures g[b] == h[b]
    {
    }
  }

  class RadixCache {
    const bs: nat
    const zero: Row
    const kv: array2<Row>
    var alloc: map<nat, int>
    var free: seq<nat>
    var next: nat
    var tree: map<Path, Node>
    var order: seq<Path>

    ghost function View(): (c: Cache)
      reads this, kv
    {
      Cache(bs, zero, alloc, free, next, Rows2(kv), tree, order)
    }

    ghost predicate Valid()
      reads this, kv
    {
      kv.Length1 == bs && Shape(View())
    }

    constructor (maxTokens: nat, blockSize: nat, zeroRow: Row)
      requires blockSize > 0
      ensures Valid() && fresh(kv)
      ensures View() == Cache(blockSize, zeroRow, map[], [], 0, View().kv, map[[] := Node(0, [], None)], [[]])
      ensures |View().kv| == if maxTokens == 0 then 1 else Pages(maxTokens, blockSize)
      ensures forall b :: 0 <= b < |View().kv| ==> View().kv[b] == seq(blockSize, _ => zeroRow)
    {
      PagesIsCeilDiv(maxTokens, blockSize);
      var n := (maxTokens + blockSize - 1) / blockSize;
      if n < 1 {
        n := 1;
      }
      bs, zero := blockSize, zeroRow;
      kv := new Row[n, blockSize]((_, _) => zeroRow);
      alloc, free, next := map[], [], 0;
      tree, order := map[[] := Node(0, [], None)], [[]];
      new;
      forall b | 0 <= b < |View().kv|
        ensures View().kv[b] == seq(blockSize, _ => zeroRow)
      {
      }
    }

    // ------------------------------------------------------------ reference counts

    method ReleaseBlocks(ids: seq<nat>)
      requires Valid()
      modifies this, kv
      ensures Valid() && View() == Release(old(View()), ids)
    {
      hide Shape, Rows2, ReleaseOne;
      var seen: set<nat> := {};
      var i := 0;
      while i < |ids|
        invariant 0 <= i <= |ids|
        invariant forall b :: b in seen <==> b in ids[..i]
        invariant Valid() && View() == Release(old(View()), ids[..i])
      {
        var b := ids[i];
        ghost var c := View();
        assert ids[..i + 1][..i] == ids[..i] && ids[..i + 1][i] == b;
        if b !in seen {
          seen := seen + {b};
          ReleaseOneEffect(c, b);
          Drop(b);
        }
        i := i + 1;
      }
      assert ids[..|ids|] == ids;
    }

    method Drop(b: nat)
      requires Valid()
      modifies this, kv
      ensures kv.Length1 == bs && View() == ReleaseOne(old(View()), b)
    {
      hide Shape;
      if b in alloc {
        AllocBound(View(), b);
        if alloc[b] <= 1 {
          alloc := alloc - {b};
          forall s | 0 <= s < bs {
            kv[b, s] := zero;
          }
          free := free + [b];
          SameCells(View().kv, Zeroed(old(View()), b));
        } else {
          alloc := alloc[b := alloc[b] - 1];
          SameCells(View().kv, old(View()).kv);
        }
      }
    }

    method ForkBlocks(ids: seq<nat>) returns (out: seq<nat>)
      requires Valid()
      modifies this`alloc
      ensures Valid() && View() == Fork(old(View()), ids) && out == ids
    {
      hide TreeOk, PoolOk, Rows2;
      out := ids;
      var i := 0;
      while i < |ids|
        invariant 0 <= i <= |ids|
        invariant alloc.Keys == old(alloc.Keys)
        invariant forall b :: b in alloc ==> alloc[b] == old(alloc[b]) + multiset(ids[..i])[b]
      {
        assert ids[..i + 1] == ids[..i] + [ids[i]];
        if ids[i] in alloc {
          alloc := alloc[ids[i] := alloc[ids[i]] + 1];
        }
        i := i + 1;
      }
      assert ids[..|ids|] == ids;
      assert alloc == Fork(old(View()), ids).alloc;
    }

    // ------------------------------------------------------------ eviction

    method FindCandidates() returns (cands: seq<Path>)
      requires Valid()
      ensures cands == Candidates(View())
    {
      hide Shape, Rows2, Evictable;
      cands := [];
      var i := 0;
      while i < |order|
        invariant 0 <= i <= |order|
        invariant Candidates(View()) == cands + CandidatesIn(View(), order[i..])
      {
        if Evictable(tree, alloc, order[i]) {
          cands := cands + [order[i]];
        }
        i := i + 1;
      }
    }

    /** Evicts leaves until `needed` listed pages are given up. */
    method Evict(needed: int) returns (evicted: nat)
      requires Valid()
      modifies this, kv
      ensures Valid() && (View(), evicted) == PagePool.Evict(old(View()), needed)
    {
      hide Shape, Rows2, Release, Rest, Candidates, NoDup, Without;
      evicted := 0;
      if needed <= 0 {
        return;
      }
      ghost var c0 := View();
      var cands := FindCandidates();
      RestInitially(c0);
      assert cands[0..] == cands;
      var i := 0;
      while i < |cands| && evicted < needed
        invariant 0 <= i <= |cands| && Valid()
        invariant Rest(View(), cands[i..])
        invariant var (c', n) := EvictFrom(View(), cands[i..], needed - evicted);
                  EvictFrom(c0, cands, needed) == (c', evicted + n)
        decreases |cands| - i
      {
        var p := cands[i];
        ghost var c := View();
        assert cands[i..][0] == p && cands[i..][1..] == cands[i + 1..];
        RestHead(c, cands[i..]);
        var blocks := tree[p].blocks;
        ShapeUnlinked(c, p, cands[i..]);
        tree := tree - {p};
        order := Without(order, p);
        assert View() == Unlinked(c, p);
        ReleaseBlocks(blocks);
        RestAfter(c, cands[i..]);
        evicted := evicted + |blocks|;
        i := i + 1;
      }
    }

    // ------------------------------------------------------------ allocation

    method AllocateBlocks(count: nat) returns (ok: bool, ids: seq<nat>)
      requires Valid()
      modifies this, kv
      ensures Valid()
      ensures AllocBlocks(old(View()), count) == if ok then Got(View(), ids) else Oom(View())
    {
      hide Shape, Rows2, PagePool.Evict, Release, Pop;
      ids := [];
      while |ids| < count
        invariant |ids| <= count && Valid()
        invariant AllocLoop(View(), ids, count) == AllocBlocks(old(View()), count)
        decreases count - |ids|
      {
        ghost var c := View();
        var b: nat;
        if free != [] {
          PopShape(View());
          b := TakeFree();
        } else if next >= kv.Length0 {
          NextBound(View());
          var freed := Evict(count - |ids|);
          if freed <= 0 || free == [] {
            ReleaseBlocks(ids);
            return false, [];
          }
          PopShape(View());
          b := TakeFree();
        } else {
          BumpShape(View());
          b := next;
          next := next + 1;
          alloc := alloc[b := 1];
        }
        assert AllocOne(c, count - |ids|) == Got(View(), [b]);
        ids := ids + [b];
      }
      ok := true;
    }

    method TakeFree() returns (b: nat)
      requires Valid() && free != []
      modifies this`free, this`alloc
      ensures Valid() && View() == Pop(old(View())) && b == old(free[|free| - 1])
    {
      hide Shape, Rows2;
      PopShape(View());
      b := free[|free| - 1];
      free := free[..|free| - 1];
      alloc := alloc[b := 1];
    }

    method CowBlockIfShared(b: nat) returns (ok: bool, id: nat)
      requires Valid()
      modifies this, kv
      ensures Valid()
      ensures Cow(old(View()), b) == if ok then Got(View(), [id]) else Oom(View())
    {
      hide Shape, AllocBlocks;
      ok, id := true, b;
      if b in alloc && alloc[b] > 1 {
        ghost var c := View();
        var got, ids := AllocateBlocks(1);
        if !got {
          return false, b;
        }
        ghost var c1 := View();
        CopyTargets(c, b);
        id := ids[0];
        AllocBound(c1, id);
        AllocBound(c1, b);
        forall s | 0 <= s < bs {
          kv[id, s] := kv[b, s];
        }
        alloc := alloc[b := alloc[b] - 1];
        SameCells(View().kv, c1.kv[id := c1.kv[b]]);
        CopyShape(c1, View(), b, id);
      }
    }

    // ------------------------------------------------------------ prefix tree

    /** Longest walk; a hit needs the pages of its length, and logits when nothing remains. */
    method MatchPrefix(tokens: Path) returns (h: Hit)
      requires Valid()
      modifies this`alloc
      ensures Valid() && (h, View()) == Match(old(View()), tokens)
    {
      hide Shape, Rows2, Fork;
      RootIsNode(View());
      ShapeSize(View());
      var i := 0;
      assert tokens[..0] == [];
      while i < |tokens| && tokens[..i + 1] in tree
        invariant 0 <= i <= |tokens| && tokens[..i] in tree
        invariant forall j :: 0 < j <= i ==> tokens[..j] in tree
        invariant WalkFrom(tree, tokens, i) == Walk(tree, tokens)
      {
        i := i + 1;
      }
      var node := tree[tokens[..i]];
      var blocks, logits := node.blocks, node.logits;
      if blocks == [] && i > 0 {
        // nearest ancestor with pages: usable only when it is the node reached, which has none
        var best, bestLogits, bestLen := [], None, 0;
        var j := 0;
        while j < i
          invariant 0 <= j <= i && bestLen <= j
          invariant bestLen == i ==> best == blocks
        {
          var cur := tree[tokens[..j + 1]];
          if cur.blocks != [] {
            best, bestLogits, bestLen := cur.blocks, cur.logits, j + 1;
          }
          j := j + 1;
        }
        if best != [] && bestLen == i {
          blocks, logits := best, bestLogits;
        }
      }
      PagesIsCeilDiv(i, bs);
      var need := if i > 0 then (i + bs - 1) / bs else 0;
      var reusable := i > 0 && |blocks| >= need;
      if i == |tokens| && reusable && logits == None {
        reusable := false;
      }
      if !reusable {
        return Miss;
      }
      var shared := ForkBlocks(blocks[..need]);
      h := Hit(i, shared, logits);
    }

    /** The node of `tokens` shares `blocks`; pages it listed before are released. */
    method InsertOrUpdate(tokens: Path, blocks: seq<nat>, logits: Option<Logits>)
      requires Valid()
      modifies this, kv
      ensures Valid() && View() == Insert(old(View()), tokens, blocks, logits)
    {
      hide Shape, Rows2, Release, Fork, Touch;
      if tokens == [] {
        return;
      }
      ghost var c0 := View();
      RootIsNode(c0);
      var i := 0;
      while i < |tokens|
        invariant 0 <= i <= |tokens| && Valid()
        invariant View() == TouchPath(c0, tokens, i)
        invariant tokens[..i] in tree
      {
        assert tokens[..i + 1][..i] == tokens[..i];
        Visit(tokens[..i + 1]);
        i := i + 1;
      }
      assert tokens[..|tokens|] == tokens;
      var node := tree[tokens];
      ghost var c1 := View();
      if node.blocks != blocks {
        ReleaseKeepsTree(c1, node.blocks);
        if node.blocks != [] {
          ReleaseBlocks(node.blocks);
        } else {
          assert Release(c1, node.blocks) == c1 by { ReleaseNothing(c1); }
        }
        var shared := ForkBlocks(blocks);
        assert View().tree == c1.tree by { ForkKeepsTree(Release(c1, node.blocks), blocks); }
      }
      ghost var c2 := View();
      NodeShape(c2, tokens, node);
      tree := tree[tokens := Node(node.refs, blocks, if logits.Some? then logits else node.logits)];
      assert View() == c2.(tree := tree);
    }

    method Visit(p: Path)
      requires Valid() && p != [] && p[..|p| - 1] in tree
      modifies this`tree, this`order
      ensures Valid() && View() == Touch(old(View()), p) && p in tree
    {
      hide PoolOk, TreeOk, Rows2, AddChild;
      TouchTree(View(), p);
      if p !in tree {
        tree := tree[p := Node(1, [], None)];
        order := AddChild(order, p[..|p| - 1], p);
      } else {
        tree := tree[p := tree[p].(refs := tree[p].refs + 1)];
      }
    }

    // ------------------------------------------------------------ paged rows

    method WriteSpan(bid: nat, slot: nat, part: seq<Row>)
      requires kv.Length1 == bs && bid < kv.Length0 && slot + |part| <= bs
      modifies kv
      ensures Rows2(kv) == Fill(old(Rows2(kv)), bid, slot, part)
    {
      forall s | slot <= s < slot + |part| {
        kv[bid, s] := part[s - slot];
      }
      SameCells(Rows2(kv), Fill(old(Rows2(kv)), bid, slot, part));
    }

    /** Span-by-span write of `src` at logical positions `start ..`. */
    method WriteKv(table: seq<nat>, start: nat, src: seq<Row>) returns (ok: bool)
      requires Valid()
      modifies kv
      ensures Valid()
      ensures !ok && (table == [] || Pages(start + |src|, bs) > |table|) ==> View() == old(View())
      ensures TableOk(old(View()).kv, table) ==> (ok <==> table != [] && Pages(start + |src|, bs) <= |table|)
      ensures TableOk(old(View()).kv, table) && ok ==>
                View() == old(View()).(kv := Write(old(View()).kv, table, bs, start, src))
    {
      hide PoolOk, TreeOk, Rows2, Write, PageOf, SlotOf;
      if table == [] {
        return false;
      }
      var n := |src|;
      PagesIsCeilDiv(start + n, bs);
      if (start + n + bs - 1) / bs > |table| {
        return false;
      }
      ghost var kv0 := View().kv;
      ghost var good := TableOk(kv0, table);
      var t := 0;
      PagesMono(start, start + n, bs);
      WriteNothing(kv0, table, bs, start, src);
      while t < n
        invariant 0 <= t <= n && |Rows2(kv)| == |kv0| == kv.Length0 && GridOk(Rows2(kv), bs)
        invariant good ==> Covers(kv0, table, bs, start + t) && Rows2(kv) == Write(kv0, table, bs, start, src[..t])
      {
        var pos := start + t;
        PageIsDiv(pos, bs);
        PageInRange(pos, start + n, bs);
        var page, slot := pos / bs, pos % bs;
        var span := if bs - slot < n - t then bs - slot else n - t;
        var bid := table[page];
        if bid >= kv.Length0 {
          return false;
        }
        if good {
          PagesMono(pos + span, start + n, bs);
          SpanIsWrite(kv0, table, bs, start, src, t, span);
        }
        WriteSpan(bid, slot, src[t..t + span]);
        t := t + span;
      }
      assert src[..n] == src;
      ok := true;
    }

    /** Span-by-span read of the first `n` logical rows. */
    method ReadRows(table: seq<nat>, n: nat) returns (ok: bool, rows: seq<Row>)
      requires Valid() && TableOk(View().kv, table)
      ensures ok <==> Pages(n, bs) <= |table|
      ensures ok ==> rows == Flat(View().kv, table, bs, n)
    {
      hide PoolOk, TreeOk;
      rows := [];
      PagesIsCeilDiv(n, bs);
      if (n + bs - 1) / bs > |table| {
        return false, [];
      }
      var t := 0;
      while t < n
        invariant 0 <= t <= n && Covers(View().kv, table, bs, t)
        invariant rows == Flat(View().kv, table, bs, t)
      {
        PageIsDiv(t, bs);
        PageInRange(t, n, bs);
        var page, slot := t / bs, t % bs;
        var span := if bs - slot < n - t then bs - slot else n - t;
        var bid := table[page];
        PagesMono(t + span, n, bs);
        var part := seq(span, j requires 0 <= j < span reads kv => kv[bid, slot + j]);
        FlatSpan(View().kv, table, bs, t, span, part);
        rows := rows + part;
        t := t + span;
      }
      ok := true;
    }

    /** The gather form of the same read: whole pages concatenated, then truncated. */
    method ReadGathered(table: seq<nat>, n: nat) returns (ok: bool, rows: seq<Row>)
      requires Valid() && TableOk(View().kv, table)
      ensures ok <==> Pages(n, bs) <= |table|
      ensures ok ==> rows == Flat(View().kv, table, bs, n)
    {
      hide PoolOk, TreeOk, Flat;
      rows := [];
      PagesIsCeilDiv(n, bs);
      var need := (n + bs - 1) / bs;
      if need > |table| {
        return false, [];
      }
      var pages := table[..need];
      var k := 0;
      while k < need
        invariant 0 <= k <= need
        invariant rows == Gather(View().kv, pages[..k])
      {
        var bid := pages[k];
        assert pages[..k + 1][..k] == pages[..k];
        var page := seq(bs, s requires 0 <= s < bs reads kv => kv[bid, s]);
        assert page == View().kv[bid];
        rows := rows + page;
        k := k + 1;
      }
      assert pages[..need] == pages;
      GatherIsFlat(View().kv, pages, bs, n);
      FlatAgree(View().kv, View().kv, pages, table, bs, n);
      rows := rows[..n];
      ok := true;
    }
  }

  /** A span of logical rows lies on one page. */
  lemma FlatSpan(kv: Grid, table: seq<nat>, bs: nat, t: nat, span: nat, part: seq<Row>)
    requires 0 < span == |part| && Covers(kv, table, bs, t + span) && Covers(kv, table, bs, t)
    requires SlotOf(t, bs) + span <= bs && PageOf(t, bs) < |table|
    requires forall j :: 0 <= j < span ==> part[j] == kv[table[PageOf(t, bs)]][SlotOf(t, bs) + j]
    ensures Flat(kv, table, bs, t + span) == Flat(kv, table, bs, t) + part
  {
    var l, r := Flat(kv, table, bs, t + span), Flat(kv, table, bs, t) + part;
    forall i | 0 <= i < t + span
      ensures l[i] == r[i]
    {
      if i >= t {
        SpanInPage(t, i - t, bs);
      }
    }
  }

  lemma WriteNothing(kv: Grid, table: seq<nat>, bs: nat, start: nat, src: seq<Row>)
    ensures Covers(kv, table, bs, start) ==> Write(kv, table, bs, start, src[..0]) == kv
  {
  }

  /** Evicting one leaf for one page never frees a page with two references. */
  lemma EvictSpares(c: Cache, b: nat)
    requires Shape(c) && b in c.alloc && c.alloc[b] > 1
    ensures var c1 := PagePool.Evict(c, 1).0; Shape(c1) && b in c1.alloc
  {
    hide TreeOk, PoolOk, Release, Evictable;
    if Candidates(c) == [] {
      assert PagePool.Evict(c, 1) == (c, 0);
    } else {
      var p := Candidates(c)[0];
      assert p in Candidates(c);
      CandidateLeaf(c, p);
      FirstCandidate(c, p);
      CandidatesTie(c, p);
      UnlinkTree(c, p);
      ReleaseEffect(Unlinked(c, p), c.tree[p].blocks);
    }
  }

  /** The copy target is a fresh page and the shared page survives the allocation. */
  lemma CopyTargets(c: Cache, b: nat)
    requires Shape(c) && b in c.alloc && c.alloc[b] > 1 && AllocBlocks(c, 1).Got?
    ensures var r := AllocBlocks(c, 1);
      |r.ids| == 1 && r.ids[0] in r.c.alloc && b in r.c.alloc && r.ids[0] != b
  {
    hide Shape, PagePool.Evict;
    EvictSpares(c, b);
    if c.free != [] {
      PopShape(c);
    } else if c.next < |c.kv| {
      BumpShape(c);
    } else if PagePool.Evict(c, 1).0.free != [] {
      PopShape(PagePool.Evict(c, 1).0);
    }
    var r1 := AllocOne(c, 1);
    assert r1.Got? && |r1.ids| == 1;
    assert AllocLoop(r1.c, [] + r1.ids, 1) == Got(r1.c, [] + r1.ids);
  }

  lemma CopyShape(c: Cache, c': Cache, b: nat, n: nat)
    requires Shape(c) && b in c.alloc && b < |c.kv| && n < |c.kv|
    requires c' == c.(kv := c.kv[n := c.kv[b]], alloc := c.alloc[b := c.alloc[b] - 1])
    ensures Shape(c')
  {
    hide TreeOk, PoolOk;
    assert c'.alloc.Keys == c.alloc.Keys;
  }

  /** The candidates still to be visited are distinct nodes of the tree, none of them the root. */
  ghost predicate Rest(c: Cache, cands: seq<Path>) {
    NoDup(cands) && forall p :: p in cands ==> p in c.tree && p != [] && !HasChild(c.tree, p)
  }

  lemma ShapeUnlinked(c: Cache, p: Path, cands: seq<Path>)
    requires Shape(c) && Rest(c, cands) && p in cands
    ensures Shape(Unlinked(c, p))
  {
    hide PoolOk, TreeOk;
    UnlinkTree(c, p);
  }

  lemma RestAfter(c: Cache, cands: seq<Path>)
    requires cands != [] && Rest(c, cands)
    ensures Rest(EvictLeaf(c, cands[0]), cands[1..])
  {
    ReleaseKeepsTree(Unlinked(c, cands[0]), c.tree[cands[0]].blocks);
    assert EvictLeaf(c, cands[0]).tree == c.tree - {cands[0]};
  }

  lemma RestInitially(c: Cache)
    requires Shape(c)
    ensures Rest(c, Candidates(c))
  {
    hide TreeOk, PoolOk, Evictable;
    OrderDistinct(c);
    CandidatesDistinct(c, c.order);
    forall p | p in Candidates(c)
      ensures p in c.tree && p != [] && !HasChild(c.tree, p)
    {
      CandidatesTie(c, p);
      CandidateLeaf(c, p);
    }
  }

  lemma CandidateLeaf(c: Cache, p: Path)
    requires Candidate(c, p)
    ensures p in c.tree && !HasChild(c.tree, p)
  {
  }

  lemma OrderDistinct(c: Cache)
    requires Shape(c)
    ensures NoDup(c.order)
  {
  }

  lemma RestHead(c: Cache, cands: seq<Path>)
    requires cands != [] && Rest(c, cands)
    ensures cands[0] in cands && cands[0] in c.tree
  {
  }

  lemma ShapeSize(c: Cache)
    requires Shape(c)
    ensures c.bs > 0
  {
  }

  lemma ReleaseNothing(c: Cache)
    ensures Release(c, []) == c
  {
  }

  lemma ForkKeepsTree(c: Cache, l: seq<nat>)
    ensures Fork(c, l).tree == c.tree
  {
  }

  /** Setting pages or logits of a visited node keeps the tree well formed. */
  lemma NodeShape(c: Cache, p: Path, node: Node)
    requires Shape(c) && p in c.tree && p != [] && c.tree[p] == node
    ensures forall blocks, logits :: Shape(c.(tree := c.tree[p := Node(node.refs, blocks, logits)]))
  {
    hide PoolOk, TreeOk;
    forall blocks, logits
      ensures TreeOk(c.tree[p := Node(node.refs, blocks, logits)], c.order)
    {
      VisitedNode(c, p);
      TreeSet(c.tree, c.order, p, Node(node.refs, blocks, logits));
    }
  }

  lemma VisitedNode(c: Cache, p: Path)
    requires Shape(c) && p in c.tree && p != []
    ensures c.tree[p].refs >= 1
  {
  }
}
