/**
 What every run keeps of the prefix tree, whatever the pages hold: a delivered prompt is stored
 and hit again for as long as its node stays, nodes on two prompts' paths stay for good, and the
 tree order is the depth-first one.
 */
module TreeRuns {
  import opened Prelude
  import opened Paging
  import opened PagePool
  import opened Allocator
  import opened PrefixTree
  import opened Generation
  import opened Engine
  import opened EngineBalance

  // ---------------------------------------------------------------- allocation only takes nodes away

  /** Nodes that are left are unchanged, and those inserted more than once are all left. */
  ghost predicate Shrinks(c: Cache, c': Cache) {
    && c'.bs == c.bs
    && (forall p :: p in c'.tree ==> p in c.tree && c'.tree[p] == c.tree[p])
    && (forall p :: p in c.tree && c.tree[p].refs >= 2 ==> p in c'.tree)
  }

  lemma {:induction false} ReleaseTree(c: Cache, l: seq<nat>)
    ensures Release(c, l).tree == c.tree && Release(c, l).bs == c.bs && Release(c, l).order == c.order
    decreases |l|
  {
    if l != [] {
      ReleaseTree(c, l[..|l| - 1]);
    }
  }

  /** Evicting leaves that were inserted once. */
  lemma {:induction false} EvictFromShrinks(c: Cache, cands: seq<Path>, needed: int)
    requires forall p :: p in cands && p in c.tree ==> c.tree[p].refs <= 1
    ensures Shrinks(c, EvictFrom(c, cands, needed).0)
    decreases |cands|
  {
    hide Release;
    if !(needed <= 0 || cands == [] || cands[0] !in c.tree) {
      var p := cands[0];
      ReleaseTree(Unlinked(c, p), c.tree[p].blocks);
      EvictFromShrinks(EvictLeaf(c, p), cands[1..], needed - |c.tree[p].blocks|);
    }
  }

  lemma EvictShrinks(c: Cache, needed: int)
    ensures Shrinks(c, Evict(c, needed).0)
  {
    hide EvictFrom;
    EvictFromShrinks(c, Candidates(c), needed);
  }

  lemma {:induction false} AllocLoopShrinks(c: Cache, ids: seq<nat>, count: nat)
    ensures Shrinks(c, AllocLoop(c, ids, count).c)
    decreases count - |ids|
  {
    hide Evict, Release;
    if |ids| < count {
      EvictShrinks(c, count - |ids|);
      match AllocOne(c, count - |ids|) {
        case Oom(c1) => ReleaseTree(c1, ids);
        case Got(c1, b) =>
          if |b| == 1 {
            AllocLoopShrinks(c1, ids + b, count);
          }
      }
    }
  }

  lemma {:induction false} EnsureShrinks(c: Cache, table: seq<nat>, need: nat)
    ensures Shrinks(c, Ensure(c, table, need).1)
    decreases need - |table|
  {
    hide AllocLoop;
    if |table| < need {
      AllocLoopShrinks(c, [], 1);
      match AllocBlocks(c, 1) {
        case Oom(c1) =>
        case Got(c1, ids) =>
          if |ids| == 1 {
            EnsureShrinks(c1, table + ids, need);
          }
      }
    }
  }

  lemma PrepareShrinks(e: State, id: nat)
    requires id in e.seqs && e.c.bs > 0
    ensures Shrinks(e.c, DoPrepare(e, id).c)
  {
    hide AllocLoop, Ensure, PageOf, Pages;
    var s := e.seqs[id];
    var total := if NeedsPrefill(s) then |s.prompt| else s.cached + 1;
    EnsureShrinks(e.c, s.table, Pages(total, e.c.bs));
    var (ok, c1, t1) := Ensure(e.c, s.table, Pages(total, e.c.bs));
    AllocLoopShrinks(c1, [], 1);
  }

  // ---------------------------------------------------------------- inserting

  /** What an insert does to every node. */
  ghost predicate Inserted(c: Cache, c': Cache, tokens: Path, blocks: seq<nat>, logits: Option<Logits>) {
    && c'.bs == c.bs
    && (forall p :: p in c'.tree <==> p in c.tree || (p != [] && p <= tokens))
    && (forall p :: p in c.tree && !(p != [] && p <= tokens) ==> c'.tree[p] == c.tree[p])
    && (forall p :: p != [] && p <= tokens ==> c'.tree[p].refs == 1 + if p in c.tree then c.tree[p].refs else 0)
    && (forall p :: p != [] && p < tokens ==>
          if p in c.tree then c'.tree[p].blocks == c.tree[p].blocks && c'.tree[p].logits == c.tree[p].logits
          else c'.tree[p].blocks == [] && c'.tree[p].logits == None)
    && tokens in c'.tree && c'.tree[tokens].blocks == blocks
    && c'.tree[tokens].logits ==
         (if logits.Some? then logits else if tokens in c.tree then c.tree[tokens].logits else None)
  }

  /** The visited part of the path. */
  ghost predicate Visited(c: Cache, c': Cache, tokens: Path, i: nat) {
    && c'.bs == c.bs
    && (forall p :: p in c'.tree <==> p in c.tree || (p != [] && |p| <= i && p <= tokens))
    && (forall p :: p in c.tree && !(p != [] && |p| <= i && p <= tokens) ==> c'.tree[p] == c.tree[p])
    && (forall p :: p != [] && |p| <= i && p <= tokens ==>
          && c'.tree[p].refs == 1 + (if p in c.tree then c.tree[p].refs else 0)
          && if p in c.tree then c'.tree[p].blocks == c.tree[p].blocks && c'.tree[p].logits == c.tree[p].logits
             else c'.tree[p].blocks == [] && c'.tree[p].logits == None)
  }

  lemma {:induction false} PathVisited(c: Cache, tokens: Path, i: nat)
    requires i <= |tokens|
    ensures Visited(c, TouchPath(c, tokens, i), tokens, i)
    decreases i
  {
    if i > 0 {
      PathVisited(c, tokens, i - 1);
      VisitNext(c, TouchPath(c, tokens, i - 1), tokens, i);
    }
  }

  lemma VisitNext(c: Cache, c1: Cache, tokens: Path, i: nat)
    requires 0 < i <= |tokens| && Visited(c, c1, tokens, i - 1)
    ensures Visited(c, Touch(c1, tokens[..i]), tokens, i)
  {
    hide AddChild;
    forall p: Path | p <= tokens && |p| == i
      ensures p == tokens[..i]
    {
    }
    var q := tokens[..i];
    assert q <= tokens && |q| == i;
    assert q in c1.tree <==> q in c.tree;
  }

  /**
   An insert visits every node of the prompt's path once, creating those that are missing without
   pages, and gives the last one the pages and the logits.
   */
  lemma InsertExactly(c: Cache, tokens: Path, blocks: seq<nat>, logits: Option<Logits>)
    requires tokens != []
    ensures Inserted(c, Insert(c, tokens, blocks, logits), tokens, blocks, logits)
  {
    hide TouchPath, Release, Visited, Inserted;
    PathVisited(c, tokens, |tokens|);
    var c1 := TouchPath(c, tokens, |tokens|);
    LastVisited(c, c1, tokens);
    ReleaseTree(c1, c1.tree[tokens].blocks);
    LastPaged(c, c1, Insert(c, tokens, blocks, logits), tokens, blocks, logits);
  }

  lemma LastVisited(c: Cache, c1: Cache, tokens: Path)
    requires tokens != [] && Visited(c, c1, tokens, |tokens|)
    ensures tokens in c1.tree
  {
    assert tokens <= tokens;
  }

  lemma LastPaged(c: Cache, c1: Cache, c': Cache, tokens: Path, blocks: seq<nat>, logits: Option<Logits>)
    requires tokens != [] && Visited(c, c1, tokens, |tokens|) && tokens in c1.tree && c'.bs == c1.bs
    requires var node := c1.tree[tokens];
      c'.tree == c1.tree[tokens := Node(node.refs, blocks, if logits.Some? then logits else node.logits)]
    ensures Inserted(c, c', tokens, blocks, logits)
  {
    assert tokens <= tokens;
    forall p: Path | p <= tokens
      ensures |p| <= |tokens| && (p == tokens || p < tokens)
    {
    }
  }

  // ---------------------------------------------------------------- stored prompts

  /** Pages and logits that make a node of this length reusable. */
  ghost predicate Usable(bs: nat, n: nat, blocks: seq<nat>, logits: Option<Logits>)
    requires bs > 0
  {
    Pages(n, bs) <= |blocks| && logits.Some?
  }

  /** Every node with pages can be reused, and so can what an undelivered prefill will store. */
  ghost predicate Stocked(e: State) {
    && e.c.bs > 0 && [] in e.c.tree && e.c.tree[[]].blocks == []
    && (forall p :: p in e.c.tree && e.c.tree[p].blocks != [] ==>
          Usable(e.c.bs, |p|, e.c.tree[p].blocks, e.c.tree[p].logits))
    && (forall id :: id in e.seqs && e.seqs[id].pre ==>
          && e.seqs[id].prompt != [] && e.seqs[id].pending.Some?
          && Usable(e.c.bs, |e.seqs[id].prompt|, e.seqs[id].table, e.seqs[id].logits))
  }

  lemma ShrunkStocked(e: State, e': State, id: nat)
    requires Stocked(e) && Shrinks(e.c, e'.c) && [] in e'.c.tree && id in e'.seqs && !e'.seqs[id].pre
    requires forall j :: j in e'.seqs && j != id ==> j in e.seqs && e'.seqs[j] == e.seqs[j]
    ensures Stocked(e')
  {
    hide Usable;
  }

  lemma PrepareStocked(e: State, id: nat)
    requires Balanced(e) && Stocked(e) && Enabled(e, Prepare(id))
    ensures Stocked(DoPrepare(e, id)) && Shrinks(e.c, DoPrepare(e, id).c)
  {
    hide Balanced, DoPrepare, Usable, Shrinks;
    PrepareShrinks(e, id);
    PrepareInv(e, id);
    PrepareFrame(e, id);
    PreparePre(e, id);
    BalancedRoot(DoPrepare(e, id));
    ShrunkStocked(e, DoPrepare(e, id), id);
  }

  lemma PreparePre(e: State, id: nat)
    requires Stocked(e) && Enabled(e, Prepare(id))
    ensures !DoPrepare(e, id).seqs[id].pre
  {
    hide Ensure, Cow, Pages, PageOf, Usable;
  }

  lemma BalancedRoot(e: State)
    requires Balanced(e)
    ensures [] in e.c.tree && TreeOk(e.c.tree, e.c.order)
  {
  }

  lemma ForwardStocked(m: Model, e: State, id: nat)
    requires Stocked(e) && Enabled(e, Forward(id)) && e.seqs[id].prompt != []
    ensures Stocked(DoForward(m, e, id)) && DoForward(m, e, id).c == e.c.(kv := DoForward(m, e, id).c.kv)
  {
    hide Flat, Write, Extend, PageOf, SlotOf, Pages;
    var s := e.seqs[id];
    if NeedsPrefill(s) {
      assert s.cached + |NextInput(s)| == |s.prompt|;
    }
  }

  lemma InsertedNodes(e: State, c': Cache, tokens: Path, blocks: seq<nat>, logits: Option<Logits>)
    requires Stocked(e) && tokens != [] && Inserted(e.c, c', tokens, blocks, logits) && logits.Some?
    requires Usable(e.c.bs, |tokens|, blocks, logits)
    ensures [] in c'.tree && c'.tree[[]].blocks == []
    ensures forall p :: p in c'.tree && c'.tree[p].blocks != [] ==>
              Usable(c'.bs, |p|, c'.tree[p].blocks, c'.tree[p].logits)
  {
    hide Usable;
    forall p | p in c'.tree && c'.tree[p].blocks != []
      ensures Usable(c'.bs, |p|, c'.tree[p].blocks, c'.tree[p].logits)
    {
      OnPath(p, tokens);
    }
  }

  lemma OnPath(p: Path, tokens: Path)
    ensures p <= tokens <==> p < tokens || p == tokens
  {
  }

  lemma DeliverStocked(e: State, id: nat)
    requires Stocked(e) && Enabled(e, Deliver(id))
    ensures Stocked(DoDeliver(e, id))
    ensures e.seqs[id].pre ==>
      Inserted(e.c, DoDeliver(e, id).c, e.seqs[id].prompt, e.seqs[id].table, e.seqs[id].logits)
    ensures !e.seqs[id].pre ==> DoDeliver(e, id).c == e.c
  {
    hide Insert, Pages;
    var s := e.seqs[id];
    if s.pre {
      InsertExactly(e.c, s.prompt, s.table, s.logits);
      hide Usable;
      InsertedNodes(e, DoDeliver(e, id).c, s.prompt, s.table, s.logits);
    }
  }

  /** Every step keeps the stock. */
  lemma ApplyStocked(m: Model, e: State, step: Step)
    requires Balanced(e) && Stocked(e)
    ensures Stocked(Apply(m, e, step))
  {
    hide Balanced, Usable, DoPrepare, DoForward, DoDeliver, Shrinks, Inserted, Release, Lookup, PageOf, SlotOf;
    if Enabled(e, step) {
      match step {
        case Admit(id, prompt, seed) =>
        case Prepare(id) => PrepareStocked(e, id);
        case Burst(id) => BurstStocked(e, id);
        case Forward(id) =>
          if e.seqs[id].prompt != [] {
            ForwardStocked(m, e, id);
          }
        case Deliver(id) => DeliverStocked(e, id);
        case Finish(id, keep) =>
          ReleaseTree(e.c, e.seqs[id].table);
        case Lose(id, k) =>
      }
    }
  }

  lemma BurstStocked(e: State, id: nat)
    requires Balanced(e) && Stocked(e) && Enabled(e, Step.Burst(id))
    ensures Stocked(DoBurst(e, id))
  {
    hide Balanced, Usable, DoPrepare, Shrinks, SlotOf;
    if SlotOf(e.seqs[id].cached, e.c.bs) == 0 || e.seqs[id].table == [] {
      PrepareStocked(e, id);
    }
  }

  // ---------------------------------------------------------------- one node over a step

  /** A node that is left has not lost its pages, and one inserted more than once is left. */
  ghost predicate Lasts(c: Cache, c': Cache) {
    && (forall p :: p in c.tree && p in c'.tree && c.tree[p].blocks != [] ==> c'.tree[p].blocks != [])
    && (forall p :: p in c.tree && c.tree[p].refs >= 2 ==> p in c'.tree && c'.tree[p].refs >= c.tree[p].refs)
  }

  lemma ShrunkLasts(c: Cache, c': Cache)
    requires Shrinks(c, c')
    ensures Lasts(c, c')
  {
  }

  lemma InsertedLasts(bs: nat, c: Cache, c': Cache, tokens: Path, blocks: seq<nat>, logits: Option<Logits>)
    requires bs > 0 && tokens != [] && Inserted(c, c', tokens, blocks, logits) && Usable(bs, |tokens|, blocks, logits)
    ensures Lasts(c, c')
  {
    PagesPositive(|tokens|, bs);
    forall p | p in c.tree
      ensures p <= tokens <==> p < tokens || p == tokens
    {
      OnPath(p, tokens);
    }
  }

  lemma ApplyLasts(m: Model, e: State, step: Step)
    requires Balanced(e) && Stocked(e)
    ensures Lasts(e.c, Apply(m, e, step).c)
  {
    hide Balanced, Stocked, Usable, DoPrepare, DoForward, DoDeliver, Shrinks, Inserted, Release, Lookup, PageOf, SlotOf;
    if Enabled(e, step) && e.c.bs > 0 {
      match step {
        case Admit(id, prompt, seed) =>
        case Prepare(id) =>
          PrepareShrinks(e, id);
          ShrunkLasts(e.c, DoPrepare(e, id).c);
        case Burst(id) =>
          PrepareShrinks(e, id);
          ShrunkLasts(e.c, DoPrepare(e, id).c);
        case Forward(id) =>
          if e.seqs[id].prompt != [] {
            ForwardStocked(m, e, id);
          }
        case Deliver(id) =>
          DeliverStocked(e, id);
          if e.seqs[id].pre {
            StockedPre(e, id);
            var s := e.seqs[id];
            InsertedLasts(e.c.bs, e.c, DoDeliver(e, id).c, s.prompt, s.table, s.logits);
          }
        case Finish(id, keep) => ReleaseTree(e.c, e.seqs[id].table);
        case Lose(id, k) =>
      }
    }
  }

  lemma StockedPre(e: State, id: nat)
    requires Stocked(e) && id in e.seqs && e.seqs[id].pre
    ensures e.c.bs > 0 && e.seqs[id].prompt != []
    ensures Usable(e.c.bs, |e.seqs[id].prompt|, e.seqs[id].table, e.seqs[id].logits)
  {
  }

  // ---------------------------------------------------------------- runs

  lemma FreshStocked(e: State)
    requires Fresh(e)
    ensures Stocked(e)
  {
  }

  lemma {:induction false} RunStocked(m: Model, e: State, steps: seq<Step>)
    requires Balanced(e) && Stocked(e)
    ensures Balanced(Run(m, e, steps)) && Stocked(Run(m, e, steps))
    decreases |steps|
  {
    hide Balanced, Stocked, Apply;
    if steps != [] {
      var n := |steps| - 1;
      RunStocked(m, e, steps[..n]);
      ApplyInv(m, Run(m, e, steps[..n]), steps[n]);
      ApplyStocked(m, Run(m, e, steps[..n]), steps[n]);
    }
  }

  /** The node has been in the tree in every state of the run. */
  ghost predicate Stays(m: Model, e: State, steps: seq<Step>, p: Path) {
    forall k :: 0 <= k <= |steps| ==> p in Run(m, e, steps[..k]).c.tree
  }

  lemma {:induction false} StayingKeepsPages(m: Model, e: State, steps: seq<Step>, p: Path)
    requires Balanced(e) && Stocked(e) && p in e.c.tree && e.c.tree[p].blocks != [] && Stays(m, e, steps, p)
    ensures p in Run(m, e, steps).c.tree && Run(m, e, steps).c.tree[p].blocks != []
    decreases |steps|
  {
    hide Balanced, Stocked, Apply;
    assert steps[..|steps|] == steps;
    if steps != [] {
      var n := |steps| - 1;
      var front := steps[..n];
      forall k | 0 <= k <= n
        ensures p in Run(m, e, front[..k]).c.tree
      {
        assert front[..k] == steps[..k];
      }
      StayingKeepsPages(m, e, front, p);
      RunStocked(m, e, front);
      ApplyLasts(m, Run(m, e, front), steps[n]);
    }
  }

  /** Node `p` on the path of `t`, and nothing deeper. */
  ghost predicate LeavesAt(c: Cache, t: Path, p: Path) {
    p <= t && p != [] && forall n :: |p| < n <= |t| ==> t[..n] !in c.tree
  }

  /**
   A prompt that was delivered after its prefill is hit again: as long as its node has stayed in
   the tree, any prompt that extends it and leaves the tree there finds all of it cached, on
   pages of the node, whatever was admitted, evicted, copied or finished in between.
   */
  lemma StoredPromptIsHit(m: Model, e: State, before: seq<Step>, id: nat, after: seq<Step>, t: Path)
    requires Fresh(e)
    requires var e1 := Run(m, e, before); Enabled(e1, Deliver(id)) && e1.seqs[id].pre
    requires var e1 := Run(m, e, before);
      var e2, p := Apply(m, e1, Deliver(id)), e1.seqs[id].prompt;
      Stays(m, e2, after, p) && LeavesAt(Run(m, e2, after).c, t, p)
    ensures var e1 := Run(m, e, before);
      var e3, p := Run(m, Apply(m, e1, Deliver(id)), after), e1.seqs[id].prompt;
      && p in e3.c.tree && e3.c.bs > 0 && HitsNode(e3.c, t, |p|)
      && forall j, seed :: j !in e3.seqs ==>
           var e4 := Apply(m, e3, Admit(j, t, seed));
           j in e4.seqs && e4.seqs[j].cached == |p| && |e4.seqs[j].table| == Pages(|p|, e3.c.bs)
  {
    hide Balanced, Stocked, Apply, Fresh, Run, Stays, LeavesAt, HitsNode;
    var e1 := Run(m, e, before);
    FreshBalanced(e);
    FreshStocked(e);
    RunStocked(m, e, before);
    var e2, p := Apply(m, e1, Deliver(id)), e1.seqs[id].prompt;
    ApplyInv(m, e1, Deliver(id));
    ApplyStocked(m, e1, Deliver(id));
    DeliveredNode(m, e1, id);
    StayingKeepsPages(m, e2, after, p);
    RunStocked(m, e2, after);
    NodeIsHit(m, Run(m, e2, after), t, p);
  }

  lemma DeliveredNode(m: Model, e: State, id: nat)
    requires Stocked(e) && Enabled(e, Deliver(id)) && e.seqs[id].pre
    ensures var e', p := Apply(m, e, Deliver(id)), e.seqs[id].prompt;
      p in e'.c.tree && e'.c.tree[p].blocks == e.seqs[id].table && e'.c.tree[p].blocks != []
  {
    hide Stocked, DoDeliver;
    DeliverStocked(e, id);
    StockedPre(e, id);
    PagesPositive(|e.seqs[id].prompt|, e.c.bs);
  }

  lemma NodeIsHit(m: Model, e: State, t: Path, p: Path)
    requires Balanced(e) && Stocked(e) && p in e.c.tree && e.c.tree[p].blocks != [] && LeavesAt(e.c, t, p)
    ensures e.c.bs > 0 && HitsNode(e.c, t, |p|)
    ensures forall j, seed :: j !in e.seqs ==>
      var e' := Apply(m, e, Admit(j, t, seed));
      j in e'.seqs && e'.seqs[j].cached == |p| && |e'.seqs[j].table| == Pages(|p|, e.c.bs)
  {
    hide Balanced, Lookup, Pages;
    BalancedRoot(e);
    LookupExactly(e.c, t);
    assert t[..|p|] == p;
    assert Reusable(e.c, t, |p|);
  }

  /**
   A node on the paths of two stored prompts, or of one stored twice, is never evicted again: its
   insertions are counted up and never down, so its pages are not given back.
   */
  lemma {:induction false} TwiceStoredStays(m: Model, e: State, steps: seq<Step>, p: Path)
    requires Balanced(e) && Stocked(e) && p in e.c.tree && e.c.tree[p].refs >= 2
    ensures var e' := Run(m, e, steps);
      p in e'.c.tree && e'.c.tree[p].refs >= e.c.tree[p].refs
      && (e.c.tree[p].blocks != [] ==> e'.c.tree[p].blocks != [])
    decreases |steps|
  {
    hide Balanced, Stocked, Apply;
    if steps != [] {
      var n := |steps| - 1;
      TwiceStoredStays(m, e, steps[..n], p);
      RunStocked(m, e, steps[..n]);
      ApplyLasts(m, Run(m, e, steps[..n]), steps[n]);
    }
  }

  // ---------------------------------------------------------------- the order of the tree

  /** Depth-first: a node stands before its descendants, and they stand together. */
  ghost predicate Preorder(order: seq<Path>) {
    && (forall i, j :: 0 <= i < j < |order| ==> !(order[j] <= order[i]))
    && (forall i, j, k :: 0 <= i < j < k < |order| && order[i] <= order[k] ==> order[i] <= order[j])
  }

  lemma {:induction false} SlotIsLast(order: seq<Path>, parent: Path)
    ensures var n := ChildSlot(order, parent);
      && (forall i :: n <= i < |order| ==> !(parent <= order[i]))
      && (n > 0 ==> parent <= order[n - 1])
    decreases |order|
  {
    if order != [] && !(parent <= order[|order| - 1]) {
      SlotIsLast(order[..|order| - 1], parent);
    }
  }

  /** A new child stands right behind its parent's last descendant; nothing else moves. */
  lemma ChildIsLast(order: seq<Path>, parent: Path, p: Path) returns (n: nat)
    requires parent in order
    ensures n < |order| && AddChild(order, parent, p) == order[..n + 1] + [p] + order[n + 1..]
    ensures parent <= order[n] && forall i :: n < i < |order| ==> !(parent <= order[i])
  {
    SlotIsLast(order, parent);
    var slot := ChildSlot(order, parent);
    var i :| 0 <= i < |order| && order[i] == parent;
    assert slot > i;
    n := slot - 1;
  }

  /** Between a node and one of its descendants there are only descendants. */
  lemma Between(order: seq<Path>, m: nat, n: nat, i: nat)
    requires Preorder(order) && m <= i <= n < |order| && order[m] <= order[n]
    ensures order[m] <= order[i]
  {
    if m < i < n {
      assert order[m] <= order[i];
    }
  }

  lemma Above(a: Path, b: Path, c: Path)
    requires a <= b && b <= c
    ensures a <= c
  {
  }

  /** A path above a child is above or at its parent, or the child itself. */
  lemma BelowOrSame(q: Path, p: Path, parent: Path)
    requires parent <= p && |p| == |parent| + 1 && q <= p
    ensures q == p || q <= parent
  {
  }

  /** Where a new child `p` of node `m` goes: behind `n`, its last descendant. */
  ghost predicate Place(order: seq<Path>, p: Path, m: nat, n: nat) {
    && m <= n < |order| && p != [] && order[m] == p[..|p| - 1] && order[m] <= order[n]
    && (forall x :: n < x < |order| ==> !(order[m] <= order[x]))
    && (forall x :: 0 <= x < |order| ==> !(p <= order[x]))
  }

  lemma NewIsAfter(order: seq<Path>, p: Path, m: nat, n: nat, x: nat)
    requires Preorder(order) && Place(order, p, m, n) && n < x < |order|
    ensures !(order[x] <= p)
  {
    if order[x] <= p {
      BelowOrSame(order[x], p, order[m]);
    }
  }

  lemma AboveLast(order: seq<Path>, p: Path, m: nat, n: nat, i: nat, j: nat)
    requires Preorder(order) && Place(order, p, m, n) && i < j <= n && order[i] <= p
    ensures order[i] <= order[j]
  {
    BelowOrSame(order[i], p, order[m]);
    assert order[i] <= order[m];
    Above(order[i], order[m], order[n]);
    Between(order, i, n, j);
  }

  lemma AboveNew(order: seq<Path>, p: Path, m: nat, n: nat, i: nat, k: nat)
    requires Preorder(order) && Place(order, p, m, n) && i <= n < k < |order| && order[i] <= order[k]
    ensures order[i] <= p
  {
    if i >= m {
      Between(order, m, n, i);
      assert false;
    }
    Between(order, i, k, m);
    Above(order[i], order[m], p);
  }

  /** The order with `p` behind position `n`. */
  ghost function Splice(order: seq<Path>, n: nat, p: Path): (r: seq<Path>)
    requires n < |order|
    ensures |r| == |order| + 1 && r[n + 1] == p
    ensures forall i :: 0 <= i <= n ==> r[i] == order[i]
    ensures forall i :: n + 1 < i < |r| ==> r[i] == order[i - 1]
  {
    order[..n + 1] + [p] + order[n + 1..]
  }

  lemma SplicedPair(order: seq<Path>, p: Path, m: nat, n: nat, i: nat, j: nat)
    requires Preorder(order) && Place(order, p, m, n) && i < j < |order| + 1
    ensures var r := Splice(order, n, p); !(r[j] <= r[i])
  {
    hide Splice;
    if i == n + 1 {
      NewIsAfter(order, p, m, n, j - 1);
    }
  }

  lemma SplicedTriple(order: seq<Path>, p: Path, m: nat, n: nat, i: nat, j: nat, k: nat)
    requires Preorder(order) && Place(order, p, m, n) && i < j < k < |order| + 1
    ensures var r := Splice(order, n, p); r[i] <= r[k] ==> r[i] <= r[j]
  {
    PlaceIs(order, p, m, n);
    hide Splice, Place;
    var r := Splice(order, n, p);
    if r[i] <= r[k] {
      if k == n + 1 {
        AboveLast(order, p, m, n, i, j);
      } else if j == n + 1 {
        AboveNew(order, p, m, n, i, k - 1);
      }
    }
  }

  lemma PlaceIs(order: seq<Path>, p: Path, m: nat, n: nat)
    requires Place(order, p, m, n)
    ensures m <= n < |order| && forall x :: 0 <= x < |order| ==> !(p <= order[x])
  {
  }

  lemma ChildKeepsPreorder(order: seq<Path>, parent: Path, p: Path)
    requires Preorder(order) && parent in order && p != [] && parent == p[..|p| - 1]
    requires forall q :: q in order ==> !(p <= q)
    ensures Preorder(AddChild(order, parent, p))
  {
    hide Preorder, Place, Splice;
    var n := ChildIsLast(order, parent, p);
    var m := PlaceOf(order, parent, p, n);
    var r := Splice(order, n, p);
    assert AddChild(order, parent, p) == r by { SpliceIs(order, n, p); }
    PlaceIs(order, p, m, n);
    forall i, j | 0 <= i < j < |r|
      ensures !(r[j] <= r[i])
    {
      SplicedPair(order, p, m, n, i, j);
    }
    forall i, j, k | 0 <= i < j < k < |r| && r[i] <= r[k]
      ensures r[i] <= r[j]
    {
      SplicedTriple(order, p, m, n, i, j, k);
    }
    IsPreorder(r);
  }

  lemma IsPreorder(order: seq<Path>)
    requires forall i, j :: 0 <= i < j < |order| ==> !(order[j] <= order[i])
    requires forall i, j, k :: 0 <= i < j < k < |order| && order[i] <= order[k] ==> order[i] <= order[j]
    ensures Preorder(order)
  {
  }

  lemma SpliceIs(order: seq<Path>, n: nat, p: Path)
    requires n < |order|
    ensures Splice(order, n, p) == order[..n + 1] + [p] + order[n + 1..]
  {
  }

  lemma PlaceOf(order: seq<Path>, parent: Path, p: Path, n: nat) returns (m: nat)
    requires Preorder(order) && parent in order && p != [] && parent == p[..|p| - 1] && n < |order|
    requires forall q :: q in order ==> !(p <= q)
    requires parent <= order[n] && forall i :: n < i < |order| ==> !(parent <= order[i])
    ensures Place(order, p, m, n)
  {
    m :| 0 <= m < |order| && order[m] == parent;
    forall x | 0 <= x < |order|
      ensures !(p <= order[x])
    {
      assert order[x] in order;
    }
  }

  /** `h` may stand in front of `rest`. */
  ghost predicate HeadOk(h: Path, rest: seq<Path>) {
    && (forall j :: 0 <= j < |rest| ==> !(rest[j] <= h))
    && (forall j, k :: 0 <= j < k < |rest| && h <= rest[k] ==> h <= rest[j])
  }

  lemma HeadFirst(order: seq<Path>)
    requires Preorder(order) && order != []
    ensures HeadOk(order[0], order[1..]) && Preorder(order[1..])
  {
  }

  lemma HeadJoins(h: Path, rest: seq<Path>)
    requires HeadOk(h, rest) && Preorder(rest)
    ensures Preorder([h] + rest)
  {
  }

  lemma {:induction false} HeadWithout(h: Path, rest: seq<Path>, p: Path)
    requires HeadOk(h, rest)
    ensures HeadOk(h, Without(rest, p))
    decreases |rest|
  {
    if rest != [] {
      HeadRest(h, rest);
      HeadWithout(h, rest[1..], p);
      var w := Without(rest[1..], p);
      if rest[0] != p {
        forall k | 0 <= k < |w| && h <= w[k]
          ensures h <= rest[0]
        {
          assert w[k] in rest[1..];
          var i :| 0 <= i < |rest[1..]| && rest[1..][i] == w[k];
          assert rest[i + 1] == w[k];
        }
        HeadMore(h, rest[0], w);
      }
    }
  }

  lemma HeadRest(h: Path, rest: seq<Path>)
    requires HeadOk(h, rest) && rest != []
    ensures HeadOk(h, rest[1..]) && !(rest[0] <= h)
  {
  }

  lemma HeadMore(h: Path, x: Path, w: seq<Path>)
    requires HeadOk(h, w) && !(x <= h) && forall k :: 0 <= k < |w| && h <= w[k] ==> h <= x
    ensures HeadOk(h, [x] + w)
  {
  }

  /** Taking a node out keeps the order depth-first. */
  lemma {:induction false} WithoutKeepsPreorder(order: seq<Path>, p: Path)
    requires Preorder(order)
    ensures Preorder(Without(order, p))
    decreases |order|
  {
    hide Preorder, HeadOk;
    if order != [] {
      HeadFirst(order);
      WithoutKeepsPreorder(order[1..], p);
      if order[0] != p {
        HeadWithout(order[0], order[1..], p);
        HeadJoins(order[0], Without(order[1..], p));
      }
    }
  }

  // ---------------------------------------------------------------- the order over runs

  lemma {:induction false} EvictFromPreorder(c: Cache, cands: seq<Path>, needed: int)
    requires Preorder(c.order)
    ensures Preorder(EvictFrom(c, cands, needed).0.order)
    decreases |cands|
  {
    hide Preorder, Release;
    if !(needed <= 0 || cands == [] || cands[0] !in c.tree) {
      var p := cands[0];
      WithoutKeepsPreorder(c.order, p);
      ReleaseTree(Unlinked(c, p), c.tree[p].blocks);
      EvictFromPreorder(EvictLeaf(c, p), cands[1..], needed - |c.tree[p].blocks|);
    }
  }

  lemma {:induction false} AllocLoopPreorder(c: Cache, ids: seq<nat>, count: nat)
    requires Preorder(c.order)
    ensures Preorder(AllocLoop(c, ids, count).c.order)
    decreases count - |ids|
  {
    hide Preorder, EvictFrom, Release, Candidates;
    if |ids| < count {
      EvictFromPreorder(c, Candidates(c), count - |ids|);
      match AllocOne(c, count - |ids|) {
        case Oom(c1) => ReleaseTree(c1, ids);
        case Got(c1, b) =>
          if |b| == 1 {
            AllocLoopPreorder(c1, ids + b, count);
          }
      }
    }
  }

  lemma {:induction false} EnsurePreorder(c: Cache, table: seq<nat>, need: nat)
    requires Preorder(c.order)
    ensures Preorder(Ensure(c, table, need).1.order)
    decreases need - |table|
  {
    hide Preorder, AllocLoop;
    if |table| < need {
      AllocLoopPreorder(c, [], 1);
      match AllocBlocks(c, 1) {
        case Oom(c1) =>
        case Got(c1, ids) =>
          if |ids| == 1 {
            EnsurePreorder(c1, table + ids, need);
          }
      }
    }
  }

  lemma PreparePreorder(e: State, id: nat)
    requires id in e.seqs && e.c.bs > 0 && Preorder(e.c.order)
    ensures Preorder(DoPrepare(e, id).c.order)
  {
    hide Preorder, AllocLoop, Ensure, PageOf, Pages;
    var s := e.seqs[id];
    var total := if NeedsPrefill(s) then |s.prompt| else s.cached + 1;
    EnsurePreorder(e.c, s.table, Pages(total, e.c.bs));
    var (ok, c1, t1) := Ensure(e.c, s.table, Pages(total, e.c.bs));
    AllocLoopPreorder(c1, [], 1);
  }

  lemma {:induction false} TouchPreorder(c: Cache, tokens: Path, i: nat)
    requires TreeOk(c.tree, c.order) && Preorder(c.order) && i <= |tokens|
    ensures var c' := TouchPath(c, tokens, i);
      TreeOk(c'.tree, c'.order) && Preorder(c'.order) && tokens[..i] in c'.tree
    decreases i
  {
    hide Preorder, AddChild, TreeOk;
    if i == 0 {
      assert tokens[..0] == [];
      RootIn(c);
    } else {
      TouchPreorder(c, tokens, i - 1);
      var c1, p := TouchPath(c, tokens, i - 1), tokens[..i];
      assert p[..|p| - 1] == tokens[..i - 1];
      TouchTree(c1, p);
      if p !in c1.tree {
        NothingBelow(c1, p);
        ChildKeepsPreorder(c1.order, p[..|p| - 1], p);
      }
      TouchedIn(c1, p);
    }
  }

  lemma RootIn(c: Cache)
    requires TreeOk(c.tree, c.order)
    ensures [] in c.tree
  {
  }

  lemma TouchedIn(c: Cache, p: Path)
    requires p != []
    ensures p in Touch(c, p).tree
  {
  }

  /** A missing node has no descendants, and its parent is listed. */
  lemma NothingBelow(c: Cache, p: Path)
    requires TreeOk(c.tree, c.order) && p != [] && p !in c.tree && p[..|p| - 1] in c.tree
    ensures p[..|p| - 1] in c.order && forall q :: q in c.order ==> !(p <= q)
  {
    forall q | q in c.order
      ensures !(p <= q)
    {
      if p <= q {
        assert q[..|p|] == p;
        PrefixClosed(c.tree, c.order, q, |p|);
      }
    }
  }

  lemma InsertPreorder(c: Cache, tokens: Path, blocks: seq<nat>, logits: Option<Logits>)
    requires TreeOk(c.tree, c.order) && Preorder(c.order)
    ensures Preorder(Insert(c, tokens, blocks, logits).order)
  {
    hide Preorder, TouchPath, Release, TreeOk;
    if tokens != [] {
      TouchPreorder(c, tokens, |tokens|);
      var c1 := TouchPath(c, tokens, |tokens|);
      if tokens in c1.tree {
        ReleaseTree(c1, c1.tree[tokens].blocks);
      }
    }
  }

  lemma ApplyPreorder(m: Model, e: State, step: Step)
    requires Balanced(e) && Preorder(e.c.order)
    ensures Preorder(Apply(m, e, step).c.order)
  {
    hide Balanced, Preorder, DoPrepare, Insert, Release, Lookup, PageOf, SlotOf, Flat, Write, Extend, Covers;
    if Enabled(e, step) && e.c.bs > 0 {
      match step {
        case Admit(id, prompt, seed) =>
        case Prepare(id) => PreparePreorder(e, id);
        case Burst(id) => PreparePreorder(e, id);
        case Forward(id) =>
        case Deliver(id) =>
          BalancedRoot(e);
          InsertPreorder(e.c, e.seqs[id].prompt, e.seqs[id].table, e.seqs[id].logits);
        case Finish(id, keep) => ReleaseTree(e.c, e.seqs[id].table);
        case Lose(id, k) =>
      }
    }
  }

  /**
   In every reachable state the tree order is depth-first: eviction, which goes through it, meets a
   node's descendants together and right behind it.
   */
  lemma {:induction false} RunPreorder(m: Model, e: State, steps: seq<Step>)
    requires Fresh(e)
    ensures Preorder(Run(m, e, steps).c.order)
    decreases |steps|
  {
    hide Balanced, Apply, Preorder;
    if steps == [] {
      RootAlone(e.c.order);
    } else {
      var n := |steps| - 1;
      RunPreorder(m, e, steps[..n]);
      RunInv(m, e, steps[..n]);
      ApplyPreorder(m, Run(m, e, steps[..n]), steps[n]);
    }
  }

  lemma RootAlone(order: seq<Path>)
    requires |order| == 1
    ensures Preorder(order)
  {
  }
}
