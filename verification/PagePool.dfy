/**
 The page pool and prefix tree of RadixCache as values: what each operation does to the
 allocator, the pages and the tree, and the global invariant they keep.

 A tree node is identified with its path from the root; `order` lists the nodes in the
 depth-first order of the insertion-ordered child dictionaries.
 */
module PagePool {
  import opened Prelude
  import opened Paging
  import opened Ledger

  type Path = seq<Token>

  datatype Node = Node(refs: nat, blocks: seq<nat>, logits: Option<Logits>)

  datatype Cache = Cache(
    bs: nat, zero: Row,
    alloc: map<nat, int>,       // page -> reference count
    free: seq<nat>,             // free stack
    next: nat,                  // first page id never issued
    kv: Grid,
    tree: map<Path, Node>,
    order: seq<Path>)

  datatype Owner = Sequence(id: nat) | Entry(key: Path) | Handle(id: nat) | InFlight | Victim

  type Owners = map<Owner, seq<nat>>

  // ---------------------------------------------------------------- invariant

  /** Free, allocated and never-issued ids partition the page ids `[0, size)`. */
  ghost predicate PoolOk(alloc: set<nat>, free: seq<nat>, next: nat, size: nat) {
    && next <= size
    && NoDup(free)
    && (forall b :: b in free ==> b < next && b !in alloc)
    && (forall b :: b in alloc ==> b < next)
    && (forall b: nat :: b < next ==> b in alloc || b in free)
  }

  /** The tree is closed under prefixes, its root owns nothing, and `order` lists its nodes. */
  ghost predicate TreeOk(tree: map<Path, Node>, order: seq<Path>) {
    && [] in tree && tree[[]].blocks == []
    && (forall p :: p in tree && p != [] ==> p[..|p| - 1] in tree && tree[p].refs >= 1)
    && NoDup(order)
    && (forall p :: p in order <==> p in tree)
  }

  ghost predicate Shape(c: Cache) {
    && GridOk(c.kv, c.bs)
    && PoolOk(c.alloc.Keys, c.free, c.next, |c.kv|)
    && TreeOk(c.tree, c.order)
  }

  ghost predicate ListOk(c: Cache, l: seq<nat>) {
    NoDup(l) && forall b :: b in l ==> b in c.alloc
  }

  ghost predicate ListsOk(c: Cache, own: Owners) {
    && (forall p :: p in c.tree ==> ListOk(c, c.tree[p].blocks))
    && (forall k :: k in own ==> ListOk(c, own[k]))
  }

  ghost function Blocks(tree: map<Path, Node>): map<Path, seq<nat>> {
    map p | p in tree :: tree[p].blocks
  }

  /** Number of owners that list page `b`: tree nodes plus the other owners. */
  ghost function OwnerCount(c: Cache, own: Owners, b: nat): nat {
    Count(Blocks(c.tree), b) + Count(own, b)
  }

  /** Every reference count is the number of owners. */
  ghost predicate Counted(c: Cache, own: Owners) {
    forall b :: b in c.alloc ==> c.alloc[b] == OwnerCount(c, own, b)
  }

  ghost predicate Inv(c: Cache, own: Owners) {
    Shape(c) && ListsOk(c, own) && Counted(c, own)
  }

  /** The listed pages hold the same rows in both states. */
  ghost predicate SameRows(c: Cache, c': Cache, l: seq<nat>) {
    forall b :: b in l ==> b < |c.kv| && b < |c'.kv| && c'.kv[b] == c.kv[b]
  }

  /** Surviving tree nodes are unchanged, and so are the pages of every node and owner. */
  ghost predicate Keeps(c: Cache, c': Cache, own: Owners) {
    && c'.bs == c.bs && c'.zero == c.zero && |c'.kv| == |c.kv|
    && (forall p :: p in c'.tree ==> p in c.tree && c'.tree[p] == c.tree[p] && SameRows(c, c', c.tree[p].blocks))
    && (forall k :: k in own ==> SameRows(c, c', own[k]))
  }

  lemma KeepsTrans(a: Cache, b: Cache, c: Cache, own: Owners)
    requires Keeps(a, b, own) && Keeps(b, c, own)
    ensures Keeps(a, c, own)
  {
    forall k | k in own
      ensures SameRows(a, c, own[k])
    {
      assert SameRows(a, b, own[k]) && SameRows(b, c, own[k]);
    }
    forall p | p in c.tree
      ensures SameRows(a, c, a.tree[p].blocks)
    {
      assert SameRows(a, b, a.tree[p].blocks) && SameRows(b, c, b.tree[p].blocks);
    }
  }

  lemma KeepsRefl(c: Cache, own: Owners)
    requires Inv(c, own)
    ensures Keeps(c, c, own)
  {
    forall k | k in own
      ensures SameRows(c, c, own[k])
    {
      assert ListOk(c, own[k]);
    }
    forall p | p in c.tree
      ensures SameRows(c, c, c.tree[p].blocks)
    {
      assert ListOk(c, c.tree[p].blocks);
    }
  }

  // ---------------------------------------------------------------- release

  ghost function ZeroPage(c: Cache): seq<Row> {
    seq(c.bs, _ => c.zero)
  }

  ghost function Zeroed(c: Cache, b: nat): Grid {
    if b < |c.kv| then c.kv[b := ZeroPage(c)] else c.kv
  }

  /** Drops one reference; the last one zeroes the page and pushes it on the free stack. */
  ghost function ReleaseOne(c: Cache, b: nat): Cache {
    if b !in c.alloc then c
    else if c.alloc[b] <= 1 then c.(alloc := c.alloc - {b}, free := c.free + [b], kv := Zeroed(c, b))
    else c.(alloc := c.alloc[b := c.alloc[b] - 1])
  }

  /** Releases each listed page once, however often it is listed. */
  ghost function Release(c: Cache, l: seq<nat>): Cache
    decreases |l|
  {
    if l == [] then c
    else
      var n := |l| - 1;
      if l[n] in l[..n] then Release(c, l[..n]) else ReleaseOne(Release(c, l[..n]), l[n])
  }

  /** Pages of `l` whose last reference is dropped. */
  ghost predicate Freed(c: Cache, l: seq<nat>, b: nat) {
    b in l && b in c.alloc && c.alloc[b] <= 1
  }

  lemma {:induction false} ReleaseEffect(c: Cache, l: seq<nat>)
    requires Shape(c)
    ensures var c' := Release(c, l);
      && Shape(c')
      && c' == c.(alloc := c'.alloc, free := c'.free, kv := c'.kv) && |c'.kv| == |c.kv|
      && (forall b :: b in c'.alloc <==> b in c.alloc && !Freed(c, l, b))
      && (forall b :: b in c'.alloc ==> c'.alloc[b] == c.alloc[b] - One(b in l))
      && (forall b :: 0 <= b < |c.kv| && !Freed(c, l, b) ==> c'.kv[b] == c.kv[b])
      && |c'.free| >= |c.free|
      && ((exists b :: Freed(c, l, b)) ==> |c'.free| > |c.free|)
    decreases |l|
  {
    hide TreeOk, PoolOk;
    if l != [] {
      var n := |l| - 1;
      ReleaseEffect(c, l[..n]);
      var m := Release(c, l[..n]);
      assert l == l[..n] + [l[n]];
      forall b
        ensures b in l <==> b in l[..n] || b == l[n]
      {
      }
      if l[n] !in l[..n] {
        ReleaseOneEffect(m, l[n]);
      }
      forall b | Freed(c, l, b)
        ensures |Release(c, l).free| > |c.free|
      {
        if b in l[..n] {
          assert Freed(c, l[..n], b);
        }
      }
    }
  }

  lemma ReleaseOneEffect(c: Cache, b: nat)
    requires Shape(c)
    ensures Shape(ReleaseOne(c, b))
  {
    hide TreeOk;
    if b in c.alloc && c.alloc[b] <= 1 {
      var c' := ReleaseOne(c, b);
      assert c'.alloc.Keys == c.alloc.Keys - {b};
      assert forall x :: x in c'.free <==> x in c.free || x == b;
    } else if b in c.alloc {
      assert ReleaseOne(c, b).alloc.Keys == c.alloc.Keys;
    }
  }

  lemma ReleaseLists(c: Cache, own: Owners, k: Owner)
    requires ListsOk(c, own) && Counted(c, own) && k in own
    ensures forall j, b :: j in own && j != k && b in own[j] ==> !Freed(c, own[k], b)
    ensures forall p, b :: p in c.tree && b in c.tree[p].blocks ==> !Freed(c, own[k], b)
  {
    forall j, b | j in own && j != k && b in own[j]
      ensures !Freed(c, own[k], b)
    {
      if Freed(c, own[k], b) {
        SoleHolder(own, k, j, b);
      }
    }
    forall p, b | p in c.tree && b in c.tree[p].blocks
      ensures !Freed(c, own[k], b)
    {
      if Freed(c, own[k], b) {
        CountPos(Blocks(c.tree), p, b);
        CountPos(own, k, b);
      }
    }
  }

  /** An owner gives up its list: the invariant holds for the others and their pages stay. */
  lemma ReleaseOwner(c: Cache, own: Owners, k: Owner)
    requires Inv(c, own) && k in own
    ensures Inv(Release(c, own[k]), own - {k})
    ensures Keeps(c, Release(c, own[k]), own - {k})
  {
    hide Freed, NoDup, TreeOk, Blocks, Count;
    var l, c', own' := own[k], Release(c, own[k]), own - {k};
    ReleaseEffect(c, l);
    ReleaseLists(c, own, k);
    forall b | b in c'.alloc
      ensures c'.alloc[b] == OwnerCount(c', own', b)
    {
      CountDrop(own, k, b);
    }
    forall j | j in own'
      ensures ListOk(c', own[j]) && SameRows(c, c', own[j])
    {
      assert ListOk(c, own[j]);
    }
    forall p | p in c.tree
      ensures ListOk(c', c.tree[p].blocks) && SameRows(c, c', c.tree[p].blocks)
    {
      assert ListOk(c, c.tree[p].blocks);
    }
  }

  // ---------------------------------------------------------------- sharing and moving lists

  /** Adds one reference to an allocated page each time it is listed. */
  ghost function Fork(c: Cache, l: seq<nat>): Cache {
    c.(alloc := map b | b in c.alloc :: c.alloc[b] + multiset(l)[b])
  }

  lemma {:induction false} Multiplicity(l: seq<nat>, b: nat)
    requires NoDup(l)
    ensures multiset(l)[b] == One(b in l)
  {
    if l != [] {
      var n := |l| - 1;
      assert l == l[..n] + [l[n]];
      Multiplicity(l[..n], b);
    }
  }

  /** A new owner shares pages that are already allocated. */
  lemma ForkOwner(c: Cache, own: Owners, k: Owner, l: seq<nat>)
    requires Inv(c, own) && k !in own && ListOk(c, l)
    ensures Inv(Fork(c, l), own[k := l])
    ensures Keeps(c, Fork(c, l), own[k := l])
  {
    hide NoDup, TreeOk, Blocks, Count;
    var c', own' := Fork(c, l), own[k := l];
    assert c'.alloc.Keys == c.alloc.Keys;
    forall b | b in c'.alloc
      ensures c'.alloc[b] == OwnerCount(c', own', b)
    {
      CountSet(own, k, l, b);
      Multiplicity(l, b);
    }
    forall j | j in own'
      ensures ListOk(c', own'[j]) && SameRows(c, c', own'[j])
    {
      assert ListOk(c, own'[j]);
    }
    forall p | p in c.tree
      ensures ListOk(c', c.tree[p].blocks) && SameRows(c, c', c.tree[p].blocks)
    {
      assert ListOk(c, c.tree[p].blocks);
    }
  }

  /** The list of an owner passes to another one. */
  lemma Rename(c: Cache, own: Owners, k: Owner, j: Owner)
    requires Inv(c, own) && k in own && j !in own
    ensures Inv(c, (own - {k})[j := own[k]])
  {
    hide Shape, Count, ListOk;
    var own' := (own - {k})[j := own[k]];
    forall b | b in c.alloc
      ensures Count(own', b) == Count(own, b)
    {
      CountDrop(own, k, b);
      CountSet(own - {k}, j, own[k], b);
    }
  }

  lemma NoDupConcat(a: seq<nat>, b: seq<nat>)
    requires NoDup(a) && NoDup(b) && forall x :: x in b ==> x !in a
    ensures NoDup(a + b)
  {
    var l := a + b;
    forall i, j | 0 <= i < j < |l|
      ensures l[i] != l[j]
    {
      if i < |a| <= j {
        assert l[i] in a && l[j] in b;
      }
    }
  }

  /** A list of private pages is appended to the list of another owner. */
  lemma Append(c: Cache, own: Owners, k: Owner, j: Owner)
    requires Inv(c, own) && k in own && j in own && k != j
    requires forall b :: b in own[j] ==> b !in own[k]
    ensures Inv(c, (own - {j})[k := own[k] + own[j]])
  {
    hide Shape, Count;
    var l := own[k] + own[j];
    var own' := (own - {j})[k := l];
    NoDupConcat(own[k], own[j]);
    forall b | b in c.alloc
      ensures Count(own', b) == Count(own, b)
    {
      CountDrop(own, j, b);
      CountSet(own - {j}, k, l, b);
      assert b in l <==> b in own[k] || b in own[j];
    }
  }

  lemma BlocksSet(tree: map<Path, Node>, p: Path, n: Node)
    ensures Blocks(tree[p := n]) == Blocks(tree)[p := n.blocks]
  {
  }

  lemma TreeSet(tree: map<Path, Node>, order: seq<Path>, p: Path, n: Node)
    requires TreeOk(tree, order) && p in tree && p != [] && n.refs >= 1
    ensures TreeOk(tree[p := n], order)
  {
  }

  /** A tree node takes over the list of owner `k`; the list it had passes to `k`. */
  lemma SwapIntoTree(c: Cache, own: Owners, p: Path, n: Node, k: Owner)
    requires Inv(c, own) && k in own && p in c.tree && p != []
    requires n.blocks == own[k] && n.refs >= 1
    ensures Inv(c.(tree := c.tree[p := n]), own[k := c.tree[p].blocks])
  {
    hide NoDup, Blocks, Count, TreeOk, PoolOk;
    var c' := c.(tree := c.tree[p := n]);
    var own' := own[k := c.tree[p].blocks];
    BlocksSet(c.tree, p, n);
    TreeSet(c.tree, c.order, p, n);
    forall b | b in c.alloc
      ensures OwnerCount(c', own', b) == OwnerCount(c, own, b)
    {
      CountSet(Blocks(c.tree), p, n.blocks, b);
      CountSet(own, k, c.tree[p].blocks, b);
      assert Blocks(c.tree)[p] == c.tree[p].blocks by { BlocksAt(c.tree, p); }
    }
  }

  lemma BlocksAt(tree: map<Path, Node>, p: Path)
    requires p in tree
    ensures p in Blocks(tree) && Blocks(tree)[p] == tree[p].blocks
  {
  }

  // ---------------------------------------------------------------- eviction

  predicate HasChild(tree: map<Path, Node>, p: Path) {
    exists q :: q in tree && |q| == |p| + 1 && q[..|p|] == p
  }

  /** A leaf nobody else inserted, with at least one page that only the tree holds. */
  predicate Evictable(tree: map<Path, Node>, alloc: map<nat, int>, p: Path) {
    && p in tree
    && tree[p].blocks != [] && tree[p].refs <= 1 && !HasChild(tree, p)
    && exists b :: b in tree[p].blocks && b in alloc && alloc[b] <= 1
  }

  predicate Candidate(c: Cache, p: Path) {
    Evictable(c.tree, c.alloc, p)
  }

  function CandidatesIn(c: Cache, paths: seq<Path>): (r: seq<Path>)
    ensures forall p :: p in r ==> p in paths && Candidate(c, p)
  {
    if paths == [] then []
    else if Candidate(c, paths[0]) then [paths[0]] + CandidatesIn(c, paths[1..])
    else CandidatesIn(c, paths[1..])
  }

  function Candidates(c: Cache): seq<Path> {
    CandidatesIn(c, c.order)
  }

  lemma {:induction false} CandidatesDistinct(c: Cache, paths: seq<Path>)
    requires NoDup(paths)
    ensures NoDup(CandidatesIn(c, paths))
  {
    if paths != [] {
      CandidatesDistinct(c, paths[1..]);
      assert paths[0] !in paths[1..];
    }
  }

  /** All candidates carry the same sort key, so ordering them by reference count moves none. */
  lemma CandidatesTie(c: Cache, p: Path)
    requires TreeOk(c.tree, c.order) && Candidate(c, p)
    ensures p != [] && c.tree[p].refs == 1
  {
  }

  /** Unlinks a leaf and releases its pages. */
  ghost function EvictLeaf(c: Cache, p: Path): Cache
    requires p in c.tree
  {
    Release(Unlinked(c, p), c.tree[p].blocks)
  }

  ghost function EvictFrom(c: Cache, cands: seq<Path>, needed: int): (r: (Cache, nat))
    decreases |cands|
  {
    if needed <= 0 || cands == [] || cands[0] !in c.tree then (c, 0)
    else
      var n := |c.tree[cands[0]].blocks|;
      var (c', rest) := EvictFrom(EvictLeaf(c, cands[0]), cands[1..], needed - n);
      (c', n + rest)
  }

  /** Evicts leaves until `needed` listed pages are given up; the count is of listed pages. */
  ghost function Evict(c: Cache, needed: int): (Cache, nat) {
    EvictFrom(c, Candidates(c), needed)
  }

  ghost function Unlinked(c: Cache, p: Path): Cache {
    c.(tree := c.tree - {p}, order := Without(c.order, p))
  }

  lemma UnlinkCounts(c: Cache, own: Owners, p: Path)
    requires Counted(c, own) && Victim !in own && p in c.tree
    ensures Counted(Unlinked(c, p), own[Victim := c.tree[p].blocks])
  {
    var own' := own[Victim := c.tree[p].blocks];
    assert Blocks(c.tree - {p}) == Blocks(c.tree) - {p};
    forall b | b in c.alloc
      ensures OwnerCount(Unlinked(c, p), own', b) == OwnerCount(c, own, b)
    {
      CountDrop(Blocks(c.tree), p, b);
      CountSet(own, Victim, c.tree[p].blocks, b);
    }
  }

  lemma UnlinkTree(c: Cache, p: Path)
    requires TreeOk(c.tree, c.order) && p in c.tree && p != [] && !HasChild(c.tree, p)
    ensures TreeOk(c.tree - {p}, Without(c.order, p))
  {
    forall q | q in c.tree && q != [] && q != p
      ensures q[..|q| - 1] != p
    {
    }
  }

  lemma UnlinkLists(c: Cache, own: Owners, p: Path)
    requires ListsOk(c, own) && p in c.tree
    ensures ListsOk(Unlinked(c, p), own[Victim := c.tree[p].blocks])
  {
    var c', own' := Unlinked(c, p), own[Victim := c.tree[p].blocks];
    forall k | k in own'
      ensures ListOk(c', own'[k])
    {
      assert k == Victim || ListOk(c, own[k]);
    }
  }

  /** Taking a leaf off the tree leaves its list with a temporary owner. */
  lemma UnlinkLeaf(c: Cache, own: Owners, p: Path)
    requires Inv(c, own) && Victim !in own && p in c.tree && p != [] && !HasChild(c.tree, p)
    ensures Inv(Unlinked(c, p), own[Victim := c.tree[p].blocks])
  {
    hide TreeOk, ListsOk, Counted;
    UnlinkCounts(c, own, p);
    UnlinkTree(c, p);
    UnlinkLists(c, own, p);
  }

  /** Evicting one candidate frees a page, and touches no page of a surviving owner. */
  lemma EvictLeafOk(c: Cache, own: Owners, p: Path)
    requires Inv(c, own) && Victim !in own && Candidate(c, p)
    ensures p in c.tree
    ensures var c' := EvictLeaf(c, p);
      && Inv(c', own) && Keeps(c, c', own)
      && c'.tree == c.tree - {p} && c'.next == c.next
      && |c'.free| > |c.free|
      && (forall b :: b in c'.alloc ==> b in c.alloc && c'.alloc[b] <= c.alloc[b])
  {
    hide TreeOk, ListsOk, Counted, Keeps;
    CandidatesTie(c, p);
    UnlinkLeaf(c, own, p);
    var own' := own[Victim := c.tree[p].blocks];
    ReleaseOwner(Unlinked(c, p), own', Victim);
    assert own' - {Victim} == own;
    EvictLeafEffect(c, p);
    KeepsUnlinked(c, p, EvictLeaf(c, p), own);
  }

  lemma KeepsUnlinked(c: Cache, p: Path, c': Cache, own: Owners)
    requires Keeps(Unlinked(c, p), c', own)
    ensures Keeps(c, c', own)
  {
    var c1 := Unlinked(c, p);
    forall q | q in c'.tree
      ensures SameRows(c, c', c.tree[q].blocks)
    {
      assert SameRows(c1, c', c1.tree[q].blocks);
    }
    forall k | k in own
      ensures SameRows(c, c', own[k])
    {
      assert SameRows(c1, c', own[k]);
    }
  }

  lemma EvictLeafEffect(c: Cache, p: Path)
    requires Shape(c) && Candidate(c, p)
    ensures var c' := EvictLeaf(c, p);
      && c'.tree == c.tree - {p} && c'.next == c.next
      && |c'.free| > |c.free|
      && (forall b :: b in c'.alloc ==> b in c.alloc && c'.alloc[b] <= c.alloc[b])
  {
    hide TreeOk, PoolOk;
    var l, c1 := c.tree[p].blocks, Unlinked(c, p);
    CandidatesTie(c, p);
    UnlinkTree(c, p);
    ReleaseEffect(c1, l);
    var b :| b in l && b in c.alloc && c.alloc[b] <= 1;
    assert Freed(c1, l, b);
  }

  lemma StillCandidate(c: Cache, own: Owners, p: Path, q: Path)
    requires Inv(c, own) && Victim !in own && Candidate(c, p) && Candidate(c, q) && p != q
    ensures Candidate(EvictLeaf(c, p), q)
  {
    EvictLeafOk(c, own, p);
    var c' := EvictLeaf(c, p);
    var b :| b in c.tree[q].blocks && b in c.alloc && c.alloc[b] <= 1;
    assert b in c'.alloc && c'.alloc[b] <= 1 by {
      assert ListOk(c', c'.tree[q].blocks);
    }
    assert !HasChild(c'.tree, q);
  }

  lemma {:induction false} EvictFromOk(c: Cache, own: Owners, cands: seq<Path>, needed: int)
    requires Inv(c, own) && Victim !in own
    requires NoDup(cands) && forall p :: p in cands ==> Candidate(c, p)
    ensures var (c', n) := EvictFrom(c, cands, needed);
      && Inv(c', own) && Keeps(c, c', own) && c'.next == c.next
      && (n > 0 ==> |c'.free| > |c.free|)
      && (n == 0 ==> c' == c && (needed <= 0 || cands == []))
      && (forall b :: b in c'.alloc ==> b in c.alloc && c'.alloc[b] <= c.alloc[b])
    decreases |cands|
  {
    hide Inv, Keeps, Candidate;
    if needed > 0 && cands != [] {
      var p := cands[0];
      EvictLeafOk(c, own, p);
      forall q | q in cands[1..]
        ensures Candidate(EvictLeaf(c, p), q)
      {
        StillCandidate(c, own, p, q);
      }
      var n := |c.tree[p].blocks|;
      EvictFromOk(EvictLeaf(c, p), own, cands[1..], needed - n);
      KeepsTrans(c, EvictLeaf(c, p), EvictFrom(c, cands, needed).0, own);
    } else {
      KeepsRefl(c, own);
    }
  }

  /**
   Eviction keeps the invariant and every other owner's pages; a positive result means a page
   reached the free list, and it is zero exactly when nothing was asked or nothing can go.
   */
  lemma EvictOk(c: Cache, own: Owners, needed: int)
    requires Inv(c, own) && Victim !in own
    ensures var (c', n) := Evict(c, needed);
      && Inv(c', own) && Keeps(c, c', own) && c'.next == c.next
      && (n > 0 ==> |c'.free| > |c.free|)
      && (n == 0 <==> needed <= 0 || Candidates(c) == [])
      && (n == 0 ==> c' == c)
      && (forall b :: b in c'.alloc ==> b in c.alloc && c'.alloc[b] <= c.alloc[b])
  {
    CandidatesDistinct(c, c.order);
    EvictFromOk(c, own, Candidates(c), needed);
    if needed > 0 && Candidates(c) != [] {
      assert Candidates(c)[0] in Candidates(c);
    }
  }

  // ---------------------------------------------------------------- what eviction takes

  /**
   The candidates, stated on the fields: every leaf with a page list, inserted at most once, one
   of whose pages only the tree holds, once each and in tree order.
   */
  lemma CandidatesExactly(c: Cache, p: Path)
    requires TreeOk(c.tree, c.order)
    ensures p in Candidates(c) <==>
      && p in c.tree && c.tree[p].blocks != [] && c.tree[p].refs <= 1
      && (forall q :: q in c.tree && |q| == |p| + 1 ==> q[..|p|] != p)
      && (exists b :: b in c.tree[p].blocks && b in c.alloc && c.alloc[b] <= 1)
    ensures NoDup(Candidates(c)) && Subsequence(Candidates(c), c.order)
  {
    hide Candidate;
    CandidatesDistinct(c, c.order);
    CandidatesAll(c, c.order, p);
    CandidatesListed(c, c.order);
    if p in c.tree {
      CandidateIs(c, p);
    }
  }

  lemma CandidateIs(c: Cache, p: Path)
    requires p in c.tree
    ensures Candidate(c, p) <==>
      && c.tree[p].blocks != [] && c.tree[p].refs <= 1
      && (forall q :: q in c.tree && |q| == |p| + 1 ==> q[..|p|] != p)
      && (exists b :: b in c.tree[p].blocks && b in c.alloc && c.alloc[b] <= 1)
  {
  }

  /** Every element of `a` stands in `b`, in the same order. */
  ghost predicate Subsequence<T(!new)>(a: seq<T>, b: seq<T>)
    decreases |b|
  {
    if a == [] then true
    else if b == [] then false
    else if a[0] == b[0] then Subsequence(a[1..], b[1..])
    else Subsequence(a, b[1..])
  }

  lemma {:induction false} CandidatesAll(c: Cache, paths: seq<Path>, p: Path)
    ensures p in CandidatesIn(c, paths) <==> p in paths && Candidate(c, p)
    decreases |paths|
  {
    hide Candidate;
    if paths != [] {
      CandidatesAll(c, paths[1..], p);
    }
  }

  lemma {:induction false} CandidatesListed(c: Cache, paths: seq<Path>)
    ensures Subsequence(CandidatesIn(c, paths), paths)
    decreases |paths|
  {
    hide Candidate;
    if paths != [] {
      CandidatesListed(c, paths[1..]);
      var r := CandidatesIn(c, paths[1..]);
      assert r != [] ==> r[0] in r;
    }
  }

  /** Lengths of the page lists of some nodes. */
  ghost function ListedPages(tree: map<Path, Node>, ps: seq<Path>): nat {
    if ps == [] then 0
    else
      var n := |ps| - 1;
      ListedPages(tree, ps[..n]) + if ps[n] in tree then |tree[ps[n]].blocks| else 0
  }

  lemma {:induction false} ListedCons(tree: map<Path, Node>, p: Path, ps: seq<Path>)
    requires p in tree
    ensures ListedPages(tree, [p] + ps) == |tree[p].blocks| + ListedPages(tree, ps)
    decreases |ps|
  {
    var all := [p] + ps;
    if ps == [] {
      assert all[..0] == [];
    } else {
      var n := |ps| - 1;
      ListedCons(tree, p, ps[..n]);
      assert all[..|all| - 1] == [p] + ps[..n];
    }
  }

  lemma {:induction false} ListedSame(tree: map<Path, Node>, p: Path, ps: seq<Path>)
    requires p !in ps
    ensures ListedPages(tree - {p}, ps) == ListedPages(tree, ps)
    decreases |ps|
  {
    if ps != [] {
      ListedSame(tree, p, ps[..|ps| - 1]);
    }
  }

  /** The first `k` of `cands` go, as few as give up `needed` listed pages, or all of them. */
  ghost predicate Takes(c: Cache, c': Cache, cands: seq<Path>, needed: int, n: nat, k: nat) {
    && k <= |cands|
    && (forall p :: p in c'.tree <==> p in c.tree && p !in cands[..k])
    && (forall p :: p in c'.tree ==> c'.tree[p] == c.tree[p])
    && n == ListedPages(c.tree, cands[..k])
    && (k > 0 ==> ListedPages(c.tree, cands[..k - 1]) < needed)
    && (n >= needed || k == |cands|)
  }

  lemma {:induction false} EvictFromTakes(c: Cache, own: Owners, cands: seq<Path>, needed: int) returns (k: nat)
    requires Inv(c, own) && Victim !in own
    requires NoDup(cands) && forall p :: p in cands ==> Candidate(c, p)
    ensures var (c', n) := EvictFrom(c, cands, needed);
      Takes(c, c', cands, needed, n, k)
    decreases |cands|
  {
    hide Inv, Keeps, Candidate, NoDup, Takes, EvictLeaf;
    k := 0;
    if needed <= 0 || cands == [] {
      TakesNone(c, cands, needed);
    } else {
      var p, rest := cands[0], cands[1..];
      EvictLeafOk(c, own, p);
      FirstApart(cands);
      var c1 := EvictLeaf(c, p);
      forall q | q in rest
        ensures Candidate(c1, q)
      {
        StillCandidate(c, own, p, q);
      }
      var n := |c.tree[p].blocks|;
      var j := EvictFromTakes(c1, own, rest, needed - n);
      k := j + 1;
      TakesMore(c, c1, EvictFrom(c1, rest, needed - n).0, cands, needed, EvictFrom(c1, rest, needed - n).1, j);
    }
  }

  lemma TakesNone(c: Cache, cands: seq<Path>, needed: int)
    requires needed <= 0 || cands == []
    ensures Takes(c, c, cands, needed, 0, 0)
  {
    assert cands[..0] == [];
  }

  lemma FirstApart(l: seq<Path>)
    requires l != [] && NoDup(l)
    ensures l[0] !in l[1..] && NoDup(l[1..])
  {
  }

  lemma TakesMore(c: Cache, c1: Cache, c2: Cache, cands: seq<Path>, needed: int, n: nat, j: nat)
    requires cands != [] && cands[0] in c.tree && c1.tree == c.tree - {cands[0]} && cands[0] !in cands[1..]
    requires needed > 0 && Takes(c1, c2, cands[1..], needed - |c.tree[cands[0]].blocks|, n, j)
    ensures Takes(c, c2, cands, needed, |c.tree[cands[0]].blocks| + n, j + 1)
  {
    var p, rest := cands[0], cands[1..];
    assert cands[..j + 1] == [p] + rest[..j];
    ListedCons(c.tree, p, rest[..j]);
    ListedSame(c.tree, p, rest[..j]);
    if j > 0 {
      assert cands[..j] == [p] + rest[..j - 1];
      ListedCons(c.tree, p, rest[..j - 1]);
      ListedSame(c.tree, p, rest[..j - 1]);
    } else {
      assert cands[..0] == [];
    }
  }

  /**
   Eviction takes candidates in tree order and stops as soon as their listed pages reach what is
   needed: no leaf goes that need not, and the count is of exactly the lists that went.
   */
  lemma EvictTakesExactly(c: Cache, own: Owners, needed: int) returns (k: nat)
    requires Inv(c, own) && Victim !in own && needed > 0
    ensures var (c', n) := Evict(c, needed);
      Takes(c, c', Candidates(c), needed, n, k)
  {
    CandidatesDistinct(c, c.order);
    k := EvictFromTakes(c, own, Candidates(c), needed);
  }
}
