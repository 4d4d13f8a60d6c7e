/**
 Page preparation, both ways: when it succeeds, which pages it adds or copies, and that it evicts
 only from a pool that has run dry.
 */
module Preparing {
  import opened Prelude
  import opened Paging
  import opened Ledger
  import opened PagePool
  import opened Allocator
  import opened PoolLaws
  import opened PrefixTree
  import opened Supply
  import opened Generation
  import opened Engine
  import opened EngineSafety
  import opened EngineBalance
  import opened BatchRun
  import opened BurstRun
  import opened TreeRuns

  /** A single page can be given exactly when the pool is not exhausted. */
  lemma GivesOneExactly(c: Cache, own: Owners)
    requires PagePool.Inv(c, own) && Victim !in own && InFlight !in own
    ensures CanGive(c, 1) <==> !Exhausted(c)
  {
    hide PagePool.Inv, CanGive, AllocBlocks;
    AllocSucceedsExactly(c, own, 1);
    OomExactly(c, own);
  }

  /** Taking one page for a growing table. */
  lemma OneGrown(c: Cache, own: Owners, k: Owner, n: nat)
    requires PagePool.Inv(c, own) && k in own && k != InFlight && Victim !in own && InFlight !in own && n > 0
    ensures match AllocBlocks(c, 1)
      case Got(c1, ids) =>
        && |ids| == 1 && PagePool.Inv(c1, own[k := own[k] + ids]) && (CanGive(c, n) <==> CanGive(c1, n - 1))
      case Oom(_) => !CanGive(c, n)
  {
    hide ListsOk, Counted, Shape, CanGive, Keeps, Calm, AllocOne;
    AllocBlocksOk(c, own, 1);
    OneTaken(c, own, 1, n);
    match AllocOne(c, 1) {
      case Got(c1, b) =>
        assert b != [] ==> AllocLoop(c1, [] + b, 1) == Got(c1, [] + b);
        OnePage(c, own);
        GrowOwner(c1, own, k, b);
      case Oom(c1) =>
    }
  }

  lemma OnePage(c: Cache, own: Owners)
    requires PagePool.Inv(c, own) && Victim !in own && InFlight !in own && AllocOne(c, 1).Got?
    ensures var r := AllocOne(c, 1);
      && |r.ids| == 1 && PagePool.Inv(r.c, own[InFlight := r.ids]) && Private(r.c, r.ids)
      && AllocBlocks(c, 1) == Got(r.c, r.ids)
  {
    hide Shape, ListsOk, Counted, Keeps, Calm, AllocOne;
    AddIdle(c, own, InFlight);
    AllocOneOk(c, own[InFlight := []], InFlight, 1);
    var r := AllocOne(c, 1);
    assert [] + r.ids == r.ids;
    assert own[InFlight := []][InFlight := r.ids] == own[InFlight := r.ids];
    assert AllocLoop(c, [], 1) == AllocLoop(r.c, r.ids, 1);
  }

  /**
   A table grows to exactly the pages it needs, and it can grow exactly when that many more pages
   can be given by some choice of evictions.
   */
  lemma {:induction false} EnsureExactly(c: Cache, own: Owners, k: Owner, need: nat)
    requires PagePool.Inv(c, own) && k in own && k != InFlight && Victim !in own && InFlight !in own
    ensures var (ok, c', t) := Ensure(c, own[k], need);
      && (ok <==> CanGive(c, need - |own[k]|))
      && (if ok then |t| == (if need <= |own[k]| then |own[k]| else need) else |t| < need && Exhausted(c'))
      && (need <= |own[k]| ==> c' == c && t == own[k])
    decreases need - |own[k]|
  {
    hide PagePool.Inv, CanGive, AllocBlocks, Exhausted, Keeps, Calm;
    if need <= |own[k]| {
      InvShape(c, own);
      GivesNothing(c, need - |own[k]|);
    } else {
      OneGrown(c, own, k, need - |own[k]|);
      match AllocBlocks(c, 1) {
        case Got(c1, ids) => EnsureExactly(c1, own[k := own[k] + ids], k, need);
        case Oom(c1) => AllocRefused(c, own);
      }
    }
  }

  lemma InvShape(c: Cache, own: Owners)
    requires PagePool.Inv(c, own)
    ensures Shape(c)
  {
  }

  // ---------------------------------------------------------------- a prefill

  /**
   A prefill gets its pages exactly when they can be given; its table then covers the prompt and
   no more, the pages it had first, and the rest private to it.
   */
  lemma PrefillPrepared(e: State, id: nat)
    requires Balanced(e) && Enabled(e, Prepare(id)) && NeedsPrefill(e.seqs[id])
    ensures var e', s := DoPrepare(e, id), e.seqs[id];
      var need, t := Pages(|s.prompt|, e.c.bs), e'.seqs[id].table;
      && (e'.seqs[id].ready <==> CanGive(e.c, need - |s.table|))
      && (e'.seqs[id].ready ==> |t| == if need <= |s.table| then |s.table| else need)
      && |s.table| <= |t| && t[..|s.table|] == s.table
      && (forall i :: |s.table| <= i < |t| ==> t[i] in e'.c.alloc && e'.c.alloc[t[i]] == 1)
      && (need <= |s.table| ==> e'.c == e.c)
  {
    hide PagePool.Inv, CanGive, Tables, Ensure, Cow, Exhausted, Pages, PageOf, Keeps, Calm;
    var s, own := e.seqs[id], Tables(e.seqs);
    TableOf(e.seqs, id);
    NoTemps(e.seqs);
    EnsureOk(e.c, own, Sequence(id), Pages(|s.prompt|, e.c.bs));
    EnsureExactly(e.c, own, Sequence(id), Pages(|s.prompt|, e.c.bs));
  }

  // ---------------------------------------------------------------- a decode

  /** The page of the next row is on the table, and somebody else refers to it too. */
  ghost predicate SharedPage(e: State, id: nat)
    requires id in e.seqs && e.c.bs > 0
  {
    var t, page := e.seqs[id].table, PageOf(e.seqs[id].cached, e.c.bs);
    page < |t| && t[page] in e.c.alloc && e.c.alloc[t[page]] > 1
  }

  ghost predicate LacksPage(e: State, id: nat)
    requires id in e.seqs && e.c.bs > 0
  {
    PageOf(e.seqs[id].cached, e.c.bs) >= |e.seqs[id].table|
  }

  /**
   A decode takes a page exactly when its table ends before the next row or the page of that row
   is shared, and it is refused exactly when it needs one and none can be given.  A table that
   ends gets one more page; a shared page is swapped for a private one with the same rows;
   otherwise neither the pool nor the table changes.
   */
  lemma DecodePrepared(e: State, id: nat)
    requires Balanced(e) && Bursting(e, id)
    ensures var e', s := DoPrepare(e, id), e.seqs[id];
      var t, page := e'.seqs[id].table, PageOf(s.cached, e.c.bs);
      && (e'.seqs[id].ready <==> (SharedPage(e, id) || LacksPage(e, id) ==> CanGive(e.c, 1)))
      && (!SharedPage(e, id) && !LacksPage(e, id) ==> e'.c == e.c && t == s.table)
      && (e'.seqs[id].ready && LacksPage(e, id) ==> |t| == |s.table| + 1 && t[..|s.table|] == s.table)
      && (e'.seqs[id].ready && SharedPage(e, id) ==>
            && |t| == |s.table| && t == s.table[page := t[page]] && t[page] != s.table[page]
            && t[page] < |e'.c.kv| && s.table[page] < |e.c.kv| && e'.c.kv[t[page]] == e.c.kv[s.table[page]])
      && (e'.seqs[id].ready ==> page < |t| && (t[page] in e'.c.alloc ==> e'.c.alloc[t[page]] <= 1))
  {
    hide PagePool.Inv, CanGive, Tables, Ensure, AllocBlocks, Exhausted, Pages, PageOf, SlotOf, Keeps, Calm;
    var s, own, page := e.seqs[id], Tables(e.seqs), PageOf(e.seqs[id].cached, e.c.bs);
    NextPages(s.cached, e.c.bs);
    TablePages(e, id);
    TableOf(e.seqs, id);
    NoTemps(e.seqs);
    GivesOneExactly(e.c, own);
    GrowOne(e.c, s.table, Pages(s.cached + 1, e.c.bs));
    if page < |s.table| {
      CopyChecked(e, id);
      CowOk(e.c, own, Sequence(id), page);
      if SharedPage(e, id) && Cow(e.c, s.table[page]).Got? {
        CopyApart(e.c, own, Sequence(id), page);
      }
    } else {
      GrowthChecked(e, id);
      AllocSpare(e.c, own);
      if AllocBlocks(e.c, 1).Got? {
        GrownPage(e.c, own);
        var r := AllocBlocks(e.c, 1);
        AllocBlocksOk(e.c, own, 1);
        assert r.ids == [r.ids[0]];
        assert (s.table + r.ids)[|s.table|] == r.ids[0];
        assert Replace(s.table + r.ids, page, r.ids[0]) == s.table + r.ids;
      }
    }
  }

  /** A copy is another page. */
  lemma CopyApart(c: Cache, own: Owners, k: Owner, i: nat)
    requires PagePool.Inv(c, own) && Victim !in own && InFlight !in own && k in own && i < |own[k]|
    requires own[k][i] in c.alloc && c.alloc[own[k][i]] > 1 && Cow(c, own[k][i]).Got?
    ensures |Cow(c, own[k][i]).ids| == 1 && Cow(c, own[k][i]).ids[0] != own[k][i]
  {
    hide Shape, ListsOk, Counted, Keeps, Calm, AllocOne;
    var b := own[k][i];
    AllocBlocksOk(c, own, 1);
    var r := AllocBlocks(c, 1);
    var own1 := own[InFlight := r.ids];
    assert r.ids == [r.ids[0]] && r.ids[0] in own1[InFlight];
    SoleOwner(r.c, own1, InFlight, r.ids[0]);
    assert own1[k] == own[k];
    assert b in own[k];
  }

  // ---------------------------------------------------------------- who changes the tree

  lemma OneFits(c: Cache)
    requires Shape(c) && Unissued(c) > 0
    ensures var r := AllocBlocks(c, 1);
      && r.Got? && |r.ids| == 1 && Shape(r.c) && Unissued(r.c) == Unissued(c) - 1 && r.c.tree == c.tree
      && (forall b :: b in c.alloc ==> b in r.c.alloc && r.c.alloc[b] == c.alloc[b])
      && r.ids[0] in r.c.alloc && r.c.alloc[r.ids[0]] == 1
  {
    hide TreeOk, PoolOk, AllocOne;
    OneOut(c, 1);
    var r := AllocOne(c, 1);
    assert [] + r.ids == r.ids;
    assert AllocLoop(c, [], 1) == AllocLoop(r.c, r.ids, 1);
    assert r.ids[0] in FirstPages(c, 1);
    OneFree(c);
  }

  lemma OneFree(c: Cache)
    requires Shape(c) && Unissued(c) > 0
    ensures FirstPages(c, 1) == [Nth(c, 0)] && Nth(c, 0) !in c.alloc
  {
    hide TreeOk;
    if c.free != [] {
      PopShape(c);
    } else {
      BumpShape(c);
    }
  }

  lemma {:induction false} GrowthFits(c: Cache, table: seq<nat>, need: nat)
    requires Shape(c) && need - |table| <= Unissued(c)
    ensures var (ok, c', t) := Ensure(c, table, need);
      && ok && Shape(c') && c'.tree == c.tree
      && Unissued(c') == Unissued(c) - (if need <= |table| then 0 else need - |table|)
      && (forall b :: b in c.alloc ==> b in c'.alloc && c'.alloc[b] == c.alloc[b])
      && |table| <= |t| && t[..|table|] == table
      && (forall i :: |table| <= i < |t| ==> t[i] in c'.alloc && c'.alloc[t[i]] == 1)
    decreases need - |table|
  {
    hide Shape, AllocBlocks;
    if |table| < need {
      OneFits(c);
      var r := AllocBlocks(c, 1);
      GrowthFits(r.c, table + r.ids, need);
      var (ok, c', t) := Ensure(c, table, need);
      assert t[..|table|] == (table + r.ids)[..|table|];
      assert t[|table|] == (table + r.ids)[|table|];
    }
  }

  /**
   Preparation evicts nothing while the pool still has the pages it needs: those its table lacks,
   and one for a shared page about to be written.
   */
  lemma EvictsOnlyWhenDry(e: State, id: nat)
    requires Balanced(e) && Enabled(e, Prepare(id))
    requires var s := e.seqs[id];
      var total := if NeedsPrefill(s) then |s.prompt| else s.cached + 1;
      var missing := if Pages(total, e.c.bs) <= |s.table| then 0 else Pages(total, e.c.bs) - |s.table|;
      missing + One(!NeedsPrefill(s) && SharedPage(e, id)) <= Unissued(e.c)
    ensures DoPrepare(e, id).c.tree == e.c.tree && DoPrepare(e, id).seqs[id].ready
  {
    hide ListsOk, Counted, Shape, Ensure, AllocBlocks, Pages, PageOf, Tables;
    var s := e.seqs[id];
    var total := if NeedsPrefill(s) then |s.prompt| else s.cached + 1;
    var page := PageOf(s.cached, e.c.bs);
    var (ok, c1, t1) := Ensure(e.c, s.table, Pages(total, e.c.bs));
    GrowthFits(e.c, s.table, Pages(total, e.c.bs));
    if !NeedsPrefill(s) && page < |s.table| {
      assert t1[page] == s.table[page];
      ListedAlloc(e, id, page);
      NextPages(s.cached, e.c.bs);
      if SharedPage(e, id) {
        OneFits(c1);
      }
    }
  }

  lemma ListedAlloc(e: State, id: nat, i: nat)
    requires Balanced(e) && id in e.seqs && i < |e.seqs[id].table|
    ensures e.seqs[id].table[i] in e.c.alloc
  {
    TableOf(e.seqs, id);
    assert ListOk(e.c, Tables(e.seqs)[Sequence(id)]);
    assert e.seqs[id].table[i] in e.seqs[id].table;
  }

  /**
   The tree grows by nothing but the delivery of a first token after a prefill, and then by
   exactly the missing nodes of that prompt's path.
   */
  lemma TreeGrowsExactly(m: Model, e: State, step: Step, p: Path)
    requires Balanced(e) && Stocked(e) && p !in e.c.tree
    ensures p in Apply(m, e, step).c.tree <==>
      && step.Deliver? && Enabled(e, step) && e.seqs[step.id].pre
      && p != [] && p <= e.seqs[step.id].prompt
  {
    hide Balanced, Usable, DoPrepare, Shrinks, Inserted, Release, Lookup, PageOf, SlotOf, Insert, Flat, Extend, Write;
    if Enabled(e, step) && e.c.bs > 0 {
      match step {
        case Admit(id, prompt, seed) =>
        case Prepare(id) => ShrinksTo(e, id, p);
        case Burst(id) => ShrinksTo(e, id, p);
        case Forward(id) =>
        case Deliver(id) =>
          if e.seqs[id].pre {
            StockedPre(e, id);
            var s := e.seqs[id];
            InsertExactly(e.c, s.prompt, s.table, s.logits);
            InsertedNode(e.c, Insert(e.c, s.prompt, s.table, s.logits), s, p);
          }
        case Finish(id, keep) => ReleaseTree(e.c, e.seqs[id].table);
        case Lose(id, k) =>
      }
    }
    BalancedSize(e);
  }

  lemma BalancedSize(e: State)
    requires Balanced(e)
    ensures e.c.bs > 0
  {
  }

  lemma InsertedNode(c: Cache, c': Cache, s: Seq, p: Path)
    requires Inserted(c, c', s.prompt, s.table, s.logits)
    ensures p in c'.tree <==> p in c.tree || (p != [] && p <= s.prompt)
  {
  }

  lemma ShrinksTo(e: State, id: nat, p: Path)
    requires id in e.seqs && e.c.bs > 0 && p !in e.c.tree
    ensures p !in DoPrepare(e, id).c.tree
  {
    hide DoPrepare;
    PrepareShrinks(e, id);
  }
}
