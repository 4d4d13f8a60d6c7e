/**
 Walking, matching and inserting prompts.  A match forks the pages of the node it stops at; an
 insert makes a node share the caller's pages.
 */
module PrefixTree {
  import opened Prelude
  import opened Paging
  import opened Ledger
  import opened PagePool
  import opened Allocator

  // ---------------------------------------------------------------- walk

  /** Depth reached from depth `i` by following the tokens as long as the child exists. */
  function WalkFrom(tree: map<Path, Node>, tokens: Path, i: nat): (n: nat)
    requires i <= |tokens|
    ensures i <= n <= |tokens|
    ensures forall j :: i < j <= n ==> tokens[..j] in tree
    ensures n < |tokens| ==> tokens[..n + 1] !in tree
    decreases |tokens| - i
  {
    if i < |tokens| && tokens[..i + 1] in tree then WalkFrom(tree, tokens, i + 1) else i
  }

  function Walk(tree: map<Path, Node>, tokens: Path): nat {
    WalkFrom(tree, tokens, 0)
  }

  lemma {:induction false} PrefixClosed(tree: map<Path, Node>, order: seq<Path>, p: Path, n: nat)
    requires TreeOk(tree, order) && p in tree && n <= |p|
    ensures p[..n] in tree
    decreases |p|
  {
    if n == |p| {
      assert p[..n] == p;
    } else {
      PrefixClosed(tree, order, p[..|p| - 1], n);
      assert p[..|p| - 1][..n] == p[..n];
    }
  }

  /** The walk stops at the longest prefix of the tokens that is a node. */
  lemma WalkIsLongest(tree: map<Path, Node>, order: seq<Path>, tokens: Path)
    requires TreeOk(tree, order)
    ensures tokens[..Walk(tree, tokens)] in tree
    ensures forall m :: Walk(tree, tokens) < m <= |tokens| ==> tokens[..m] !in tree
  {
    var n := Walk(tree, tokens);
    assert tokens[..0] == [];
    forall m | n < m <= |tokens|
      ensures tokens[..m] !in tree
    {
      if tokens[..m] in tree {
        assert tokens[..m][..n + 1] == tokens[..n + 1];
        PrefixClosed(tree, order, tokens[..m], n + 1);
      }
    }
  }

  /** Every node is found by walking its own path. */
  lemma NodeIsFound(tree: map<Path, Node>, order: seq<Path>, p: Path)
    requires TreeOk(tree, order) && p in tree
    ensures Walk(tree, p) == |p|
  {
    WalkIsLongest(tree, order, p);
    assert p[..|p|] == p;
  }

  /** Whatever eviction leaves of the tree is found by the same walk, unchanged. */
  lemma SurvivorsAreFound(c: Cache, own: Owners, needed: int, p: Path)
    requires Inv(c, own) && Victim !in own && p in Evict(c, needed).0.tree
    ensures var c' := Evict(c, needed).0;
      Walk(c'.tree, p) == |p| && p in c.tree && c'.tree[p] == c.tree[p] && SameRows(c, c', c.tree[p].blocks)
  {
    hide TreeOk, ListsOk, Counted;
    EvictOk(c, own, needed);
    var c' := Evict(c, needed).0;
    NodeIsFound(c'.tree, c'.order, p);
  }

  // ---------------------------------------------------------------- match

  datatype Hit = Miss | Hit(len: nat, blocks: seq<nat>, logits: Option<Logits>)

  /** A usable hit: the node reached lists enough pages, and logits when nothing remains. */
  function Lookup(c: Cache, tokens: Path): (h: Hit)
    requires c.bs > 0
  {
    var i := Walk(c.tree, tokens);
    if i == 0 || tokens[..i] !in c.tree then Miss
    else
      var node := c.tree[tokens[..i]];
      var need := Pages(i, c.bs);
      if |node.blocks| < need || (i == |tokens| && node.logits.None?) then Miss
      else Hit(i, node.blocks[..need], node.logits)
  }

  /** match_prefix: the pages of a hit gain a reference for the caller. */
  ghost function Match(c: Cache, tokens: Path): (Hit, Cache)
    requires c.bs > 0
  {
    match Lookup(c, tokens)
    case Miss => (Miss, c)
    case Hit(len, blocks, logits) => (Hit(len, blocks, logits), Fork(c, blocks))
  }

  lemma ListPrefixOk(c: Cache, l: seq<nat>, n: nat)
    requires ListOk(c, l) && n <= |l|
    ensures ListOk(c, l[..n])
  {
  }

  /** A hit is the deepest node on the prompt's path, with the pages of its own prefix. */
  lemma HitIsNode(c: Cache, tokens: Path)
    requires Shape(c) && Lookup(c, tokens).Hit?
    ensures var h := Lookup(c, tokens);
      && 0 < h.len <= |tokens| && tokens[..h.len] in c.tree
      && |h.blocks| == Pages(h.len, c.bs) <= |c.tree[tokens[..h.len]].blocks|
      && h.blocks == c.tree[tokens[..h.len]].blocks[..|h.blocks|]
      && h.logits == c.tree[tokens[..h.len]].logits
      && (forall m :: h.len < m <= |tokens| ==> tokens[..m] !in c.tree)
      && (h.len == |tokens| ==> h.logits.Some?)
  {
    WalkIsLongest(c.tree, c.order, tokens);
  }

  /**
   Node `tokens[..n]` is the deepest on the prompt's path, with pages for its length and logits if
   nothing remains.
   */
  ghost predicate Reusable(c: Cache, tokens: Path, n: nat)
    requires c.bs > 0
  {
    && 0 < n <= |tokens| && tokens[..n] in c.tree
    && (forall m :: n < m <= |tokens| ==> tokens[..m] !in c.tree)
    && |c.tree[tokens[..n]].blocks| >= Pages(n, c.bs)
    && (n == |tokens| ==> c.tree[tokens[..n]].logits.Some?)
  }

  /** The hit is node `tokens[..n]`, with its pages for that length and its logits. */
  ghost predicate HitsNode(c: Cache, tokens: Path, n: nat)
    requires c.bs > 0
  {
    && n <= |tokens| && tokens[..n] in c.tree && Pages(n, c.bs) <= |c.tree[tokens[..n]].blocks|
    && Lookup(c, tokens) == Hit(n, c.tree[tokens[..n]].blocks[..Pages(n, c.bs)], c.tree[tokens[..n]].logits)
  }

  /** A prompt hits exactly when the deepest node on its path can be reused, and then it hits that node. */
  lemma LookupExactly(c: Cache, tokens: Path)
    requires TreeOk(c.tree, c.order) && c.bs > 0
    ensures Lookup(c, tokens).Hit? <==> exists n: nat :: Reusable(c, tokens, n)
    ensures forall n: nat :: Reusable(c, tokens, n) ==> HitsNode(c, tokens, n)
  {
    hide TreeOk, Pages, Walk;
    WalkIsLongest(c.tree, c.order, tokens);
    var i := Walk(c.tree, tokens);
    WalkBound(c.tree, tokens);
    if Lookup(c, tokens).Hit? {
      assert Reusable(c, tokens, i);
    }
    forall n: nat | Reusable(c, tokens, n)
      ensures n == i
    {
      OneDeepest(c, tokens, n, i);
    }
  }

  lemma OneDeepest(c: Cache, tokens: Path, n: nat, i: nat)
    requires c.bs > 0 && Reusable(c, tokens, n)
    requires i <= |tokens| && tokens[..i] in c.tree && forall m :: i < m <= |tokens| ==> tokens[..m] !in c.tree
    ensures n == i
  {
  }

  lemma WalkBound(tree: map<Path, Node>, tokens: Path)
    ensures Walk(tree, tokens) <= |tokens|
  {
  }

  lemma MatchOk(c: Cache, own: Owners, k: Owner, tokens: Path)
    requires Inv(c, own) && k !in own
    ensures var (h, c') := Match(c, tokens);
      match h
      case Miss => c' == c
      case Hit(len, blocks, logits) => Inv(c', own[k := blocks]) && Keeps(c, c', own[k := blocks])
  {
    hide TreeOk, PoolOk, Counted, Keeps;
    if Lookup(c, tokens).Hit? {
      HitIsNode(c, tokens);
      var h := Lookup(c, tokens);
      ListPrefixOk(c, c.tree[tokens[..h.len]].blocks, |h.blocks|);
      ForkOwner(c, own, k, h.blocks);
    }
  }

  // ---------------------------------------------------------------- insert

  /** Index just past the last listed descendant of `parent`: where its newest child goes. */
  function ChildSlot(order: seq<Path>, parent: Path): (n: nat)
    ensures n <= |order|
  {
    if order == [] then 0
    else if parent <= order[|order| - 1] then |order|
    else ChildSlot(order[..|order| - 1], parent)
  }

  function AddChild(order: seq<Path>, parent: Path, p: Path): (r: seq<Path>)
    ensures forall q :: q in r <==> q in order || q == p
    ensures NoDup(order) && p !in order ==> NoDup(r)
  {
    var n := ChildSlot(order, parent);
    var r := order[..n] + [p] + order[n..];
    assert order == order[..n] + order[n..];
    r
  }

  /** Visits one node of the path: create it if missing, then count the visit. */
  ghost function Touch(c: Cache, p: Path): Cache
    requires p != []
  {
    if p in c.tree then c.(tree := c.tree[p := c.tree[p].(refs := c.tree[p].refs + 1)])
    else c.(tree := c.tree[p := Node(1, [], None)], order := AddChild(c.order, p[..|p| - 1], p))
  }

  ghost function TouchPath(c: Cache, tokens: Path, i: nat): Cache
    requires i <= |tokens|
  {
    if i == 0 then c else Touch(TouchPath(c, tokens, i - 1), tokens[..i])
  }

  lemma TouchTree(c: Cache, p: Path)
    requires TreeOk(c.tree, c.order) && p != [] && p[..|p| - 1] in c.tree
    ensures TreeOk(Touch(c, p).tree, Touch(c, p).order)
  {
    if p !in c.tree {
      var o := AddChild(c.order, p[..|p| - 1], p);
      assert p !in c.order;
    }
  }

  lemma TouchCounts(c: Cache, own: Owners, p: Path)
    requires Counted(c, own) && p != []
    ensures Counted(Touch(c, p), own)
  {
    hide Count;
    var c' := Touch(c, p);
    BlocksSet(c.tree, p, c'.tree[p]);
    forall b | b in c.alloc
      ensures Count(Blocks(c'.tree), b) == Count(Blocks(c.tree), b)
    {
      CountSet(Blocks(c.tree), p, c'.tree[p].blocks, b);
    }
  }

  lemma TouchLists(c: Cache, own: Owners, p: Path)
    requires ListsOk(c, own) && p != []
    ensures ListsOk(Touch(c, p), own)
  {
    var c' := Touch(c, p);
    forall q | q in c'.tree
      ensures ListOk(c', c'.tree[q].blocks)
    {
      assert q in c.tree ==> ListOk(c, c.tree[q].blocks);
    }
    forall k | k in own
      ensures ListOk(c', own[k])
    {
      assert ListOk(c, own[k]);
    }
  }

  lemma TouchOk(c: Cache, own: Owners, p: Path)
    requires Inv(c, own) && p != [] && p[..|p| - 1] in c.tree
    ensures Inv(Touch(c, p), own)
  {
    hide TreeOk, PoolOk, ListsOk, Counted;
    TouchTree(c, p);
    TouchCounts(c, own, p);
    TouchLists(c, own, p);
  }

  lemma RootIsNode(c: Cache)
    requires Shape(c)
    ensures [] in c.tree
  {
  }

  /** Nodes other than those on the visited path are untouched; visited ones keep pages and logits. */
  ghost predicate SameNodes(c: Cache, c': Cache, except: Path) {
    forall p :: p in c'.tree && p != except ==>
      if p in c.tree then c'.tree[p].blocks == c.tree[p].blocks && c'.tree[p].logits == c.tree[p].logits
      else c'.tree[p].blocks == []
  }

  lemma {:induction false} TouchPathOk(c: Cache, own: Owners, tokens: Path, i: nat)
    requires Inv(c, own) && i <= |tokens|
    ensures var c' := TouchPath(c, tokens, i);
      && Inv(c', own) && c' == c.(tree := c'.tree, order := c'.order)
      && tokens[..i] in c'.tree && (i > 0 ==> c'.tree[tokens[..i]].refs >= 1)
      && (forall p :: p in c.tree ==> p in c'.tree)
      && (forall p :: p in c'.tree && p in c.tree ==>
            c'.tree[p].blocks == c.tree[p].blocks && c'.tree[p].logits == c.tree[p].logits)
      && (forall p :: p in c'.tree && p !in c.tree ==> c'.tree[p].blocks == [])
    decreases i
  {
    hide ListsOk, Counted, PoolOk, TreeOk;
    if i == 0 {
      assert tokens[..0] == [];
      RootIsNode(c);
    } else {
      TouchPathOk(c, own, tokens, i - 1);
      assert tokens[..i][..i - 1] == tokens[..i - 1];
      TouchOk(TouchPath(c, tokens, i - 1), own, tokens[..i]);
    }
  }

  /** insert_or_update with a page list: the node of `tokens` shares `blocks`. */
  ghost function Insert(c: Cache, tokens: Path, blocks: seq<nat>, logits: Option<Logits>): Cache {
    if tokens == [] then c
    else
      var c1 := TouchPath(c, tokens, |tokens|);
      if tokens !in c1.tree then c1
      else
        var node := c1.tree[tokens];
        var c2 := if node.blocks == blocks then c1 else Fork(Release(c1, node.blocks), blocks);
        c2.(tree := c2.tree[tokens := Node(node.refs, blocks, if logits.Some? then logits else node.logits)])
  }

  lemma {:induction false} ReleaseIgnoresTree(c: Cache, t: map<Path, Node>, l: seq<nat>)
    ensures Release(c.(tree := t), l) == Release(c, l).(tree := t)
    decreases |l|
  {
    if l != [] {
      ReleaseIgnoresTree(c, t, l[..|l| - 1]);
    }
  }

  lemma DropIdle(c: Cache, own: Owners, k: Owner)
    requires Inv(c, own) && k in own && own[k] == []
    ensures Inv(c, own - {k})
  {
    hide Shape, Count;
    forall b | b in c.alloc
      ensures Count(own - {k}, b) == Count(own, b)
    {
      CountDrop(own, k, b);
    }
  }

  /** Replaces the pages of one node by `new`, which another owner holds as well. */
  lemma Repage(c: Cache, own: Owners, k: Owner, p: Path, new': seq<nat>, n: Node)
    requires Inv(c, own) && Victim !in own && k in own && own[k] == new' && p in c.tree && p != []
    requires n.blocks == new' && n.refs >= 1
    ensures var c' := Fork(Release(c, c.tree[p].blocks), new').(tree := c.tree[p := n]);
      && Inv(c', own) && c'.bs == c.bs && |c'.kv| == |c.kv| && c'.zero == c.zero
      && (forall j :: j in own ==> SameRows(c, c', own[j]))
      && (forall q :: q in c.tree && q != p ==> SameRows(c, c', c.tree[q].blocks))
  {
    hide Shape, ListsOk, Counted, SameRows;
    var old' := c.tree[p].blocks;
    var blank := c.tree[p].(blocks := [], refs := n.refs);
    var ownV := own[Victim := []];
    AddIdle(c, own, Victim);
    SwapIntoTree(c, ownV, p, blank, Victim);
    var cA := c.(tree := c.tree[p := blank]);
    var ownA := own[Victim := old'];
    assert ownV[Victim := old'] == ownA;
    ReleaseOwner(cA, ownA, Victim);
    assert ownA - {Victim} == own;
    var cB := Release(cA, old');
    ReleaseIgnoresTree(c, cA.tree, old');
    HeldListOk(cB, own, k);
    ForkOwner(cB, own, Victim, new');
    var cC, ownC := Fork(cB, new'), own[Victim := new'];
    SwapIntoTree(cC, ownC, p, n, Victim);
    var cD := cC.(tree := cC.tree[p := n]);
    ReleaseKeepsTree(cA, old');
    assert cC.tree == cA.tree && cA.tree[p := n] == c.tree[p := n];
    assert ownC[Victim := cC.tree[p].blocks] == own[Victim := []];
    DropIdle(cD, own[Victim := []], Victim);
    assert own[Victim := []] - {Victim} == own;
    forall j | j in own
      ensures SameRows(c, cD, own[j])
    {
      assert j in own && j in ownC && ownC[j] == own[j];
      RowsChain(cA, cB, cC, own[j]);
      RowsShift(cA, cC, c, cD, own[j]);
    }
    forall q | q in c.tree && q != p
      ensures SameRows(c, cD, c.tree[q].blocks)
    {
      assert q in cB.tree && q in cC.tree && cA.tree[q] == c.tree[q];
      RowsChain(cA, cB, cC, c.tree[q].blocks);
      RowsShift(cA, cC, c, cD, c.tree[q].blocks);
    }
  }

  lemma ReleaseKeepsTree(c: Cache, l: seq<nat>)
    ensures Release(c, l).tree == c.tree
  {
  }

  lemma HeldListOk(c: Cache, own: Owners, k: Owner)
    requires Inv(c, own) && k in own
    ensures ListOk(c, own[k])
  {
  }

  lemma RowsChain(a: Cache, b: Cache, c: Cache, l: seq<nat>)
    requires SameRows(a, b, l) && SameRows(b, c, l)
    ensures SameRows(a, c, l)
  {
  }

  lemma RowsShift(a: Cache, b: Cache, a': Cache, b': Cache, l: seq<nat>)
    requires SameRows(a, b, l) && a'.kv == a.kv && b'.kv == b.kv
    ensures SameRows(a', b', l)
  {
  }

  /**
   Inserting a prompt whose pages the caller holds: the node lists exactly those pages, every
   other node keeps its pages and logits, and the rows of every owner and node survive.
   */
  lemma InsertOk(c: Cache, own: Owners, k: Owner, tokens: Path, logits: Option<Logits>)
    requires Inv(c, own) && Victim !in own && k in own && tokens != []
    ensures var c' := Insert(c, tokens, own[k], logits);
      && Inv(c', own) && c'.bs == c.bs && |c'.kv| == |c.kv| && c'.zero == c.zero
      && tokens in c'.tree && c'.tree[tokens].blocks == own[k]
      && (logits.Some? ==> c'.tree[tokens].logits == logits)
      && SameNodes(c, c', tokens)
      && (forall j :: j in own ==> SameRows(c, c', own[j]))
      && (forall q :: q in c.tree && q != tokens ==> SameRows(c, c', c.tree[q].blocks))
  {
    hide Shape, ListsOk, Counted, SameRows;
    TouchPathOk(c, own, tokens, |tokens|);
    assert tokens[..|tokens|] == tokens;
    var c1 := TouchPath(c, tokens, |tokens|);
    var node := c1.tree[tokens];
    var n := Node(node.refs, own[k], if logits.Some? then logits else node.logits);
    var c' := Insert(c, tokens, own[k], logits);
    if node.blocks == own[k] {
      TreeNodeSet(c1, own, tokens, n);
      InvRows(c1, own);
      forall j | j in own
        ensures SameRows(c, c', own[j])
      {
        RowsShift(c1, c1, c, c', own[j]);
      }
      forall q | q in c.tree && q != tokens
        ensures SameRows(c, c', c.tree[q].blocks)
      {
        RowsShift(c1, c1, c, c', c.tree[q].blocks);
      }
    } else {
      Repage(c1, own, k, tokens, own[k], n);
      assert Fork(Release(c1, node.blocks), own[k]).tree == c1.tree by { ReleaseKeepsTree(c1, node.blocks); }
      forall j | j in own
        ensures SameRows(c, c', own[j])
      {
        RowsShift(c1, c', c, c', own[j]);
      }
      forall q | q in c.tree && q != tokens
        ensures SameRows(c, c', c.tree[q].blocks)
      {
        RowsShift(c1, c', c, c', c.tree[q].blocks);
      }
    }
  }

  lemma InvRows(c: Cache, own: Owners)
    requires Inv(c, own)
    ensures forall j :: j in own ==> SameRows(c, c, own[j])
    ensures forall q :: q in c.tree ==> SameRows(c, c, c.tree[q].blocks)
  {
    KeepsRefl(c, own);
  }

  /** Changing the visit count or logits of a node moves no page. */
  lemma TreeNodeSet(c: Cache, own: Owners, p: Path, n: Node)
    requires Inv(c, own) && p in c.tree && p != [] && n.refs >= 1 && n.blocks == c.tree[p].blocks
    ensures Inv(c.(tree := c.tree[p := n]), own)
  {
    hide TreeOk, PoolOk, Count;
    var c' := c.(tree := c.tree[p := n]);
    TreeSet(c.tree, c.order, p, n);
    assert Blocks(c'.tree) == Blocks(c.tree);
  }
}
