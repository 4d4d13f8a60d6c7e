/**
 The decode burst of the runner over the engine.  Pages are looked at on page boundaries only, a
 page that cannot be had raises out of the loop, and the tokens of a device burst are read from
 their ring only after the loop, so a burst that raises there has written rows whose tokens are
 lost.
 */
module BurstRun {
  import opened Prelude
  import opened Paging
  import opened Ledger
  import opened PagePool
  import opened Allocator
  import opened Generation
  import opened Engine
  import opened EngineSafety
  import opened EngineBalance
  import opened ColdBursts
  import opened EngineRuns
  import opened BatchRun
  import opened RadixCacheImpl
  import opened EngineCoreImpl

  // ---------------------------------------------------------------- pages

  /** Pages that can be had without evicting anything. */
  ghost function Spare(c: Cache): nat {
    |c.free| + if c.next <= |c.kv| then |c.kv| - c.next else 0
  }

  /**
   A step that looks at its pages takes one to grow the table or to copy a shared page.  The
   per-step loop looks every time, the paged loop on page boundaries only.
   */
  ghost predicate NeedsPage(e: State, id: nat, every: bool) {
    && e.c.bs > 0 && id in e.seqs && (every || SlotOf(e.seqs[id].cached, e.c.bs) == 0)
    && var t, page := e.seqs[id].table, PageOf(e.seqs[id].cached, e.c.bs);
       page < |t| ==> t[page] in e.c.alloc && e.c.alloc[t[page]] > 1
  }

  /** A copy still due in the middle of a page. */
  ghost function Due(e: State, id: nat, every: bool): nat {
    if NeedsPage(e, id, every) && SlotOf(e.seqs[id].cached, e.c.bs) != 0 then 1 else 0
  }

  /** A page is needed and there is none. */
  ghost predicate Wall(e: State, id: nat, every: bool) {
    NeedsPage(e, id, every) && Exhausted(e.c)
  }

  ghost function CheckStep(id: nat, every: bool): Step {
    if every then Prepare(id) else Step.Burst(id)
  }

  /** The page check of a step in a burst. */
  ghost function Checked(e: State, id: nat, every: bool): State
    requires id in e.seqs && e.c.bs > 0
  {
    if every then DoPrepare(e, id) else DoBurst(e, id)
  }

  /** A request in its decode phase, its cached rows on its pages. */
  ghost predicate Bursting(e: State, id: nat) {
    e.c.bs > 0 && EngineBalance.Decoding(e, id) && Covers(e.c.kv, e.seqs[id].table, e.c.bs, e.seqs[id].cached)
  }

  lemma AllocSpare(c: Cache, own: Owners)
    requires PagePool.Inv(c, own) && Victim !in own && InFlight !in own
    ensures match AllocBlocks(c, 1)
      case Got(c1, ids) => !Exhausted(c) && |ids| == 1 && Spare(c1) + 1 >= Spare(c)
      case Oom(c1) => c1 == c && Exhausted(c)
  {
    hide Calm, Keeps;
    AllocBlocksOk(c, own, 1);
    OomExactly(c, own);
    if AllocBlocks(c, 1).Oom? {
      AllocRefused(c, own);
    } else {
      hide PagePool.Inv;
      SpareOne(c);
    }
  }

  lemma SpareOne(c: Cache)
    requires AllocBlocks(c, 1).Got?
    ensures Spare(AllocBlocks(c, 1).c) + 1 >= Spare(c)
  {
    hide Evict;
    match AllocOne(c, 1) {
      case Got(c1, b) => assert AllocLoop(c, [], 1) == AllocLoop(c1, [] + b, 1);
      case Oom(c1) =>
    }
  }

  /** Growth by at most one page. */
  lemma GrowOne(c: Cache, table: seq<nat>, need: nat)
    requires need <= |table| + 1
    ensures Ensure(c, table, need) == if need <= |table| then (true, c, table) else
      match AllocBlocks(c, 1)
      case Oom(c1) => (false, c1, table)
      case Got(c1, ids) => (|ids| == 1, c1, if |ids| == 1 then table + ids else table)
  {
    hide AllocBlocks;
    if need > |table| {
      match AllocBlocks(c, 1) {
        case Oom(c1) =>
        case Got(c1, ids) =>
          if |ids| == 1 {
            assert Ensure(c1, table + ids, need) == (true, c1, table + ids);
          }
      }
    }
  }

  lemma NextPages(n: nat, bs: nat)
    requires bs > 0
    ensures Pages(n + 1, bs) == PageOf(n, bs) + 1
    ensures Pages(n + 1, bs) == Pages(n, bs) + if SlotOf(n, bs) == 0 then 1 else 0
  {
    if SlotOf(n, bs) == 0 {
      AlignedPages(n, bs);
    } else {
      NextOnPage(n - 1, bs);
    }
  }

  /** The rows of a decode lie on its pages. */
  lemma TablePages(e: State, id: nat)
    requires Bursting(e, id)
    ensures var s := e.seqs[id]; s.cached > 0 && s.table != [] && Pages(s.cached, e.c.bs) <= |s.table|
  {
    PagesPositive(e.seqs[id].cached, e.c.bs);
  }

  /** The page check when the table has to grow. */
  lemma GrowthChecked(e: State, id: nat)
    requires Balanced(e) && Bursting(e, id) && PageOf(e.seqs[id].cached, e.c.bs) >= |e.seqs[id].table|
    ensures var e1 := DoPrepare(e, id);
      && id in e1.seqs && (!e1.seqs[id].ready <==> Exhausted(e.c))
      && (Exhausted(e.c) ==> e1 == e.(seqs := e.seqs[id := e.seqs[id].(ready := false)]))
      && Spare(e1.c) + 1 >= Spare(e.c)
  {
    hide PagePool.Inv, Tables, Ensure, AllocBlocks, Exhausted, Spare, Pages, PageOf, SlotOf, Keeps, Calm, Cow;
    var s, own := e.seqs[id], Tables(e.seqs);
    NextPages(s.cached, e.c.bs);
    TablePages(e, id);
    NoTemps(e.seqs);
    GrowOne(e.c, s.table, Pages(s.cached + 1, e.c.bs));
    AllocSpare(e.c, own);
    if AllocBlocks(e.c, 1).Got? {
      GrownPage(e.c, own);
      var ids := AllocBlocks(e.c, 1).ids;
      assert (s.table + ids)[|s.table|] == ids[0];
    }
  }

  /** A page just taken is private, so it is not copied. */
  lemma GrownPage(c: Cache, own: Owners)
    requires PagePool.Inv(c, own) && Victim !in own && InFlight !in own && AllocBlocks(c, 1).Got?
    ensures var r := AllocBlocks(c, 1); |r.ids| == 1 && Cow(r.c, r.ids[0]) == Got(r.c, r.ids)
  {
    hide PagePool.Inv, Calm, Keeps, AllocBlocks;
    AllocBlocksOk(c, own, 1);
    var r := AllocBlocks(c, 1);
    assert r.ids == [r.ids[0]];
  }

  /** The page check when the table has the page already. */
  lemma CopyChecked(e: State, id: nat)
    requires Balanced(e) && Bursting(e, id) && PageOf(e.seqs[id].cached, e.c.bs) < |e.seqs[id].table|
    ensures var e1, b := DoPrepare(e, id), e.seqs[id].table[PageOf(e.seqs[id].cached, e.c.bs)];
      var shared := b in e.c.alloc && e.c.alloc[b] > 1;
      && id in e1.seqs && (!e1.seqs[id].ready <==> shared && Exhausted(e.c))
      && (shared && Exhausted(e.c) ==> e1 == e.(seqs := e.seqs[id := e.seqs[id].(ready := false)]))
      && Spare(e1.c) + (if shared then 1 else 0) >= Spare(e.c)
  {
    hide PagePool.Inv, Tables, Ensure, AllocBlocks, Exhausted, Pages, PageOf, SlotOf, Keeps, Calm;
    var s, own := e.seqs[id], Tables(e.seqs);
    NextPages(s.cached, e.c.bs);
    NoTemps(e.seqs);
    GrowOne(e.c, s.table, Pages(s.cached + 1, e.c.bs));
    AllocSpare(e.c, own);
  }

  /**
   The page check of a burst step fails exactly at a wall, and then it leaves everything as it
   was; otherwise it takes at most the one page it needs.
   */
  lemma BurstRefusedExactly(e: State, id: nat, every: bool)
    requires Balanced(e) && Bursting(e, id)
    ensures var e1 := Checked(e, id, every);
      && id in e1.seqs && (!e1.seqs[id].ready <==> Wall(e, id, every))
      && (Wall(e, id, every) ==> e1 == e.(seqs := e.seqs[id := e.seqs[id].(ready := false)]))
      && Spare(e1.c) + (if NeedsPage(e, id, every) then 1 else 0) >= Spare(e.c)
  {
    hide Balanced, DoPrepare, Exhausted, Spare, PageOf, SlotOf, Covers;
    var s := e.seqs[id];
    TablePages(e, id);
    if every || SlotOf(s.cached, e.c.bs) == 0 {
      if PageOf(s.cached, e.c.bs) < |s.table| {
        CopyChecked(e, id);
      } else {
        GrowthChecked(e, id);
      }
    }
  }

  // ---------------------------------------------------------------- one step

  /** Forward and append of a burst step whose pages are ready. */
  ghost function Forwarded(m: Model, e: State, id: nat): State {
    Apply(m, Apply(m, e, Forward(id)), Deliver(id))
  }

  ghost function BurstStep(m: Model, e: State, id: nat, every: bool): State {
    Forwarded(m, Apply(m, e, CheckStep(id, every)), id)
  }

  /** A burst step that finds its pages appends one token and one row, and stays in the decode phase. */
  lemma StepKeeps(m: Model, e: State, id: nat, every: bool)
    requires Balanced(e) && Bursting(e, id) && !Wall(e, id, every)
    ensures var e', s := BurstStep(m, e, id, every), e.seqs[id];
      && Balanced(e') && Bursting(e', id) && e'.c.bs == e.c.bs && e'.seqs.Keys == e.seqs.Keys
      && (forall j :: j in e.seqs && j != id ==> e'.seqs[j] == e.seqs[j])
      && Due(e', id, every) == 0
      && Spare(e'.c) + Pages(s.cached + 1, e.c.bs) - Pages(s.cached, e.c.bs) + Due(e, id, every) >= Spare(e.c)
      && Grown(s, e'.seqs[id], 1) && e'.seqs[id].warm
  {
    hide Balanced, DoPrepare, DoBurst, Spare, PageOf, SlotOf, Covers, Forwarded, Wall, Pages, Apply, NeedsPage;
    var e1 := Checked(e, id, every);
    BurstRefusedExactly(e, id, every);
    NextPages(e.seqs[id].cached, e.c.bs);
    BurstApplied(m, e, id, every);
    BurstFrame(e, id, every);
    ForwardKeeps(m, e1, id);
    DueOrBoundary(e, id, every);
    DueOrBoundary(Forwarded(m, e1, id), id, every);
    if every {
      NothingDue(e, id);
      NextOnPageDue(e1, Forwarded(m, e1, id), id);
    }
  }

  /** A page is needed on a boundary, or it is due. */
  lemma DueOrBoundary(e: State, id: nat, every: bool)
    requires e.c.bs > 0 && id in e.seqs
    ensures (if NeedsPage(e, id, every) then 1 else 0)
         <= Due(e, id, every) + if SlotOf(e.seqs[id].cached, e.c.bs) == 0 then 1 else 0
    ensures Due(e, id, false) == 0
  {
  }

  /** Forward and append with the pages ready. */
  lemma ForwardKeeps(m: Model, e: State, id: nat)
    requires Balanced(e) && Bursting(e, id) && e.seqs[id].ready
    requires Covers(e.c.kv, e.seqs[id].table, e.c.bs, e.seqs[id].cached + 1)
    ensures var e', s := Forwarded(m, e, id), e.seqs[id];
      && Balanced(e') && Bursting(e', id) && e'.c.bs == e.c.bs && e'.seqs.Keys == e.seqs.Keys
      && (forall j :: j in e.seqs && j != id ==> e'.seqs[j] == e.seqs[j])
      && Spare(e'.c) == Spare(e.c) && e'.c.alloc == e.c.alloc && e'.seqs[id].table == s.table
      && Grown(s, e'.seqs[id], 1) && e'.seqs[id].warm
  {
    hide Balanced, Spare, PageOf, SlotOf, Covers, DoForward, Pages;
    ApplyInv(m, e, Forward(id));
    ForwardAppends(m, e, id);
    var e2 := DoForward(m, e, id);
    SpareSame(e.c, e2.c);
    ApplyInv(m, e2, Deliver(id));
  }

  /** After a page check in the per-step loop the page of the next row is private. */
  lemma NothingDue(e: State, id: nat)
    requires Balanced(e) && Bursting(e, id) && !Wall(e, id, true)
    ensures var e1 := DoPrepare(e, id);
      && id in e1.seqs && Bursting(e1, id) && e1.seqs[id].cached == e.seqs[id].cached
      && PrivateNext(e1, id)
  {
    hide Balanced, DoPrepare, Flat, Exhausted, PageOf, SlotOf;
    var s := e.seqs[id];
    BurstRefusedExactly(e, id, true);
    PreparedDecode(e, id, Flat(e.c.kv, s.table, e.c.bs, s.cached));
    PrepareFrame(e, id);
    PageInRange(s.cached, s.cached + 1, e.c.bs);
  }

  /** The page of the next row is listed and private. */
  ghost predicate PrivateNext(e: State, id: nat)
    requires id in e.seqs && e.c.bs > 0
  {
    var t, page := e.seqs[id].table, PageOf(e.seqs[id].cached, e.c.bs);
    page < |t| && t[page] in e.c.alloc && e.c.alloc[t[page]] == 1
  }

  lemma NextOnPageDue(e1: State, e2: State, id: nat)
    requires e1.c.bs > 0 && id in e1.seqs && PrivateNext(e1, id) && id in e2.seqs
    requires e2.c.bs == e1.c.bs && e2.c.alloc == e1.c.alloc && e2.seqs[id].table == e1.seqs[id].table
    requires e2.seqs[id].cached == e1.seqs[id].cached + 1
    ensures Due(e2, id, true) == 0
  {
    hide PageOf, SlotOf;
    if SlotOf(e2.seqs[id].cached, e2.c.bs) != 0 {
      NextOnPage(e1.seqs[id].cached, e1.c.bs);
    }
  }

  lemma SpareSame(c: Cache, c': Cache)
    requires c' == c.(kv := c'.kv) && |c'.kv| == |c.kv|
    ensures Spare(c') == Spare(c)
  {
  }

  /** What `n` decode steps do to the request itself. */
  ghost predicate Grown(s: Seq, s': Seq, n: nat) {
    && s'.prompt == s.prompt && s'.seed == s.seed && s'.finished == s.finished
    && s.output <= s'.output && |s'.output| == |s.output| + n && s'.cached == s.cached + n
  }

  /** The page check of a burst keeps the rows of the request, and gives it room for one more. */
  lemma BurstFrame(e: State, id: nat, every: bool)
    requires Balanced(e) && Bursting(e, id) && !Wall(e, id, every)
    ensures var e1, s := Checked(e, id, every), e.seqs[id];
      && e1.c.bs == e.c.bs && e1.seqs.Keys == e.seqs.Keys && Bursting(e1, id)
      && (forall j :: j in e.seqs && j != id ==> e1.seqs[j] == e.seqs[j])
      && e1.seqs[id] == s.(table := e1.seqs[id].table, ready := true, cold := e1.seqs[id].cold)
      && Covers(e1.c.kv, e1.seqs[id].table, e1.c.bs, s.cached + 1)
  {
    hide Balanced, Exhausted, PageOf, SlotOf, DoPrepare, Pages, Flat;
    var s := e.seqs[id];
    BurstRefusedExactly(e, id, every);
    NextPages(s.cached, e.c.bs);
    TablePages(e, id);
    if every || SlotOf(s.cached, e.c.bs) == 0 {
      PreparedDecode(e, id, Flat(e.c.kv, s.table, e.c.bs, s.cached));
      PrepareFrame(e, id);
    }
  }

  lemma ForwardAppends(m: Model, e: State, id: nat)
    requires Balanced(e) && Bursting(e, id) && e.seqs[id].ready
    requires Covers(e.c.kv, e.seqs[id].table, e.c.bs, e.seqs[id].cached + 1)
    ensures var e2, s := DoForward(m, e, id), e.seqs[id];
      && e2.c == e.c.(kv := e2.c.kv) && |e2.c.kv| == |e.c.kv| && e2.seqs.Keys == e.seqs.Keys
      && (forall j :: j in e.seqs && j != id ==> e2.seqs[j] == e.seqs[j])
      && e2.seqs[id].pending.Some? && !e2.seqs[id].pre
      && e2.seqs[id] == s.(cached := s.cached + 1, ready := false, warm := true, cold := e2.seqs[id].cold,
                           pending := e2.seqs[id].pending, pre := false)
      && Covers(e2.c.kv, s.table, e.c.bs, s.cached + 1)
  {
    hide PagePool.Inv, Tables, Write, Flat, Pages, SlotOf, Extend;
    var s := e.seqs[id];
    AppendForward(m, e, id, Flat(e.c.kv, s.table, e.c.bs, s.cached));
    TableOf(e.seqs, id);
    InvGrid(e.c, Tables(e.seqs));
  }

  /** The row of the last token joins the rows that are read, and the token after them the output. */
  ghost predicate GoesOn(m: Model, s: Seq, past: seq<Row>, e': State, id: nat)
    requires s.output != []
  {
    var row := m.step(past, s.output[|s.output| - 1]);
    && Reads(e', id, past + [row])
    && e'.seqs[id].output == s.output + [m.pick(m.out(past + [row]), s.seed, |s.output|)]
  }

  /**
   The token of a burst step is what the model gives after the rows the request reads, whatever
   these rows are, and the row of its last token joins them.
   */
  lemma StepTells(m: Model, e: State, id: nat, every: bool, past: seq<Row>)
    requires Balanced(e) && Bursting(e, id) && !Wall(e, id, every) && Reads(e, id, past)
    ensures GoesOn(m, e.seqs[id], past, BurstStep(m, e, id, every), id)
  {
    hide Balanced, DoPrepare, DoBurst, PageOf, SlotOf, Covers, Wall, Flat, DoDeliver, DoForward, Apply;
    var s := e.seqs[id];
    var e1 := Checked(e, id, every);
    BurstApplied(m, e, id, every);
    BurstFrame(e, id, every);
    CheckedReads(e, id, every, past);
    ForwardTells(m, e1, id, past);
    ForwardedIs(m, e1, id);
    DeliverReads(DoForward(m, e1, id), id, past + [m.step(past, s.output[|s.output| - 1])]);
  }

  lemma CheckedReads(e: State, id: nat, every: bool, past: seq<Row>)
    requires Balanced(e) && Bursting(e, id) && !Wall(e, id, every) && Reads(e, id, past)
    ensures Reads(Checked(e, id, every), id, past)
  {
    hide Balanced, DoPrepare, PageOf, SlotOf, Covers, Flat;
    BurstRefusedExactly(e, id, every);
    TablePages(e, id);
    if every || SlotOf(e.seqs[id].cached, e.c.bs) == 0 {
      PreparedDecode(e, id, past);
    }
  }

  lemma ForwardTells(m: Model, e: State, id: nat, past: seq<Row>)
    requires Balanced(e) && Bursting(e, id) && e.seqs[id].ready && Reads(e, id, past)
    requires Covers(e.c.kv, e.seqs[id].table, e.c.bs, e.seqs[id].cached + 1)
    ensures var e2, s := DoForward(m, e, id), e.seqs[id];
      var row := m.step(past, s.output[|s.output| - 1]);
      && Reads(e2, id, past + [row]) && e2.seqs[id].pending == Some(m.pick(m.out(past + [row]), s.seed, |s.output|))
  {
    hide PagePool.Inv, Tables, Write, Flat, Pages, SlotOf, Extend;
    AppendForward(m, e, id, past);
    OneRow(m, past, e.seqs[id].output[|e.seqs[id].output| - 1]);
  }

  lemma DeliverReads(e: State, id: nat, rows: seq<Row>)
    requires Reads(e, id, rows) && e.seqs[id].pending.Some? && !e.seqs[id].pre
    ensures Reads(DoDeliver(e, id), id, rows)
  {
    hide Flat, Covers;
  }

  // ---------------------------------------------------------------- the loop

  /** `taken` tokens were produced; the burst raised if it could not go on. */
  datatype BurstEnd = BurstEnd(e: State, taken: nat, raised: bool)

  /** The break token ends a burst. */
  ghost predicate Breaks(e: State, id: nat, brk: Option<Token>) {
    id in e.seqs && e.seqs[id].output != [] && brk == Some(e.seqs[id].output[|e.seqs[id].output| - 1])
  }

  /** A burst of up to `n` steps. */
  ghost function BurstLoop(m: Model, e: State, id: nat, every: bool, n: nat, brk: Option<Token>): BurstEnd
    decreases n
  {
    if n == 0 then BurstEnd(e, 0, false)
    else
      var e1 := Apply(m, e, CheckStep(id, every));
      if id !in e1.seqs || !e1.seqs[id].ready then BurstEnd(e1, 0, true)
      else
        var e2 := Forwarded(m, e1, id);
        if Breaks(e2, id, brk) then BurstEnd(e2, 1, false)
        else
          var r := BurstLoop(m, e2, id, every, n - 1, brk);
          r.(taken := r.taken + 1)
  }

  /** The state after `k` burst steps. */
  ghost function BurstSteps(m: Model, e: State, id: nat, every: bool, k: nat): State
    decreases k
  {
    if k == 0 then e else BurstSteps(m, BurstStep(m, e, id, every), id, every, k - 1)
  }

  /** Step `k` of the burst is reached, no break token before it, and stands at a wall. */
  ghost predicate MeetsWall(m: Model, e: State, id: nat, every: bool, brk: Option<Token>, k: nat) {
    && Wall(BurstSteps(m, e, id, every, k), id, every)
    && forall j :: 0 < j <= k ==> !Breaks(BurstSteps(m, e, id, every, j), id, brk)
  }

  lemma WallLater(m: Model, e: State, id: nat, every: bool, brk: Option<Token>, k: nat)
    requires !Breaks(BurstStep(m, e, id, every), id, brk)
    ensures MeetsWall(m, e, id, every, brk, k + 1) <==> MeetsWall(m, BurstStep(m, e, id, every), id, every, brk, k)
  {
    hide BurstStep, Breaks, Wall;
    var e' := BurstStep(m, e, id, every);
    assert forall j :: 0 < j ==> BurstSteps(m, e, id, every, j) == BurstSteps(m, e', id, every, j - 1);
    if MeetsWall(m, e, id, every, brk, k + 1) {
      forall j | 0 < j <= k
        ensures !Breaks(BurstSteps(m, e', id, every, j), id, brk)
      {
        assert BurstSteps(m, e', id, every, j) == BurstSteps(m, e, id, every, j + 1);
      }
    }
    if MeetsWall(m, e', id, every, brk, k) {
      forall j | 0 < j <= k + 1
        ensures !Breaks(BurstSteps(m, e, id, every, j), id, brk)
      {
        if j == 1 {
          assert BurstSteps(m, e', id, every, 0) == e';
        }
      }
    }
  }

  lemma NoLaterWall(m: Model, e: State, id: nat, every: bool, brk: Option<Token>, k: nat)
    requires Breaks(BurstStep(m, e, id, every), id, brk)
    ensures !MeetsWall(m, e, id, every, brk, k + 1)
  {
    hide BurstStep, Breaks, Wall;
    assert BurstSteps(m, e, id, every, 1) == BurstSteps(m, BurstStep(m, e, id, every), id, every, 0);
  }

  /**
   A burst raises exactly when one of its steps, reached without the break token, needs a page
   and finds the pool exhausted.  Whatever happens it appends one token per row it writes, leaves
   the other requests alone and keeps the page counts balanced.
   */
  lemma {:induction false} BurstRaisesExactly(m: Model, e: State, id: nat, every: bool, n: nat, brk: Option<Token>)
    requires Balanced(e) && Bursting(e, id)
    ensures var r := BurstLoop(m, e, id, every, n, brk);
      && (r.raised <==> exists k: nat :: k < n && MeetsWall(m, e, id, every, brk, k))
      && Balanced(r.e) && Bursting(r.e, id) && Grown(e.seqs[id], r.e.seqs[id], r.taken) && r.taken <= n
      && (r.raised ==> r.taken < n && Exhausted(r.e.c)) && (!r.raised && n > 0 ==> r.taken > 0)
      && r.e.seqs.Keys == e.seqs.Keys && (forall j :: j in e.seqs && j != id ==> r.e.seqs[j] == e.seqs[j])
    decreases n
  {
    hide Balanced, Bursting, Apply, Exhausted, Forwarded, BurstSteps, Breaks, MeetsWall;
    if n > 0 {
      AtStart(m, e, id, every, brk);
      BurstApplied(m, e, id, every);
      if !Wall(e, id, every) {
        var e2 := BurstStep(m, e, id, every);
        StepKeeps(m, e, id, every);
        BurstRaisesExactly(m, e2, id, every, n - 1, brk);
        if Breaks(e2, id, brk) {
          forall k: nat | 0 < k < n
            ensures !MeetsWall(m, e, id, every, brk, k)
          {
            NoLaterWall(m, e, id, every, brk, k - 1);
          }
        } else {
          WallShifts(m, e, id, every, brk, n);
        }
      }
    }
  }

  /**
   How far a burst goes: it takes one step after the other, and stops at the first break token, at
   the first wall, or after `n` steps.
   */
  lemma {:induction false} BurstGoesOn(m: Model, e: State, id: nat, every: bool, n: nat, brk: Option<Token>)
    requires Balanced(e) && Bursting(e, id)
    ensures var r := BurstLoop(m, e, id, every, n, brk);
      && (forall j :: 0 < j < r.taken ==> !Breaks(BurstSteps(m, e, id, every, j), id, brk))
      && (r.raised ==> MeetsWall(m, e, id, every, brk, r.taken))
      && (!r.raised ==> r.e == BurstSteps(m, e, id, every, r.taken) && (r.taken == n || Breaks(r.e, id, brk)))
    decreases n
  {
    hide Balanced, Bursting, BurstStep, BurstSteps, Breaks, Wall, MeetsWall, BurstLoop, DoPrepare, DoBurst;
    if n == 0 {
      NoMore(m, e, id, every, brk);
      FirstSteps(m, e, id, every, 0);
    } else if Wall(e, id, every) {
      LoopRaises(m, e, id, every, n, brk);
      AtStart(m, e, id, every, brk);
    } else {
      LoopTurn(m, e, id, every, n, brk);
      StepKeeps(m, e, id, every);
      var e2 := BurstStep(m, e, id, every);
      FirstSteps(m, e, id, every, 0);
      if !Breaks(e2, id, brk) {
        BurstGoesOn(m, e2, id, every, n - 1, brk);
        var r := BurstLoop(m, e2, id, every, n - 1, brk);
        WallLater(m, e, id, every, brk, r.taken);
        forall j | 0 < j < r.taken + 1
          ensures !Breaks(BurstSteps(m, e, id, every, j), id, brk)
        {
          FirstSteps(m, e, id, every, j - 1);
          FirstSteps(m, e2, id, every, 0);
        }
        FirstSteps(m, e, id, every, r.taken);
      }
    }
  }

  lemma FirstSteps(m: Model, e: State, id: nat, every: bool, k: nat)
    ensures BurstSteps(m, e, id, every, 0) == e
    ensures BurstSteps(m, e, id, every, k + 1) == BurstSteps(m, BurstStep(m, e, id, every), id, every, k)
    ensures BurstSteps(m, e, id, every, 1) == BurstStep(m, e, id, every)
  {
    hide BurstStep;
    var e2 := BurstStep(m, e, id, every);
    assert BurstSteps(m, e2, id, every, 0) == e2;
  }

  lemma WallShifts(m: Model, e: State, id: nat, every: bool, brk: Option<Token>, n: nat)
    requires n > 0 && !Breaks(BurstStep(m, e, id, every), id, brk) && !MeetsWall(m, e, id, every, brk, 0)
    ensures (exists k: nat :: k < n && MeetsWall(m, e, id, every, brk, k))
       <==> (exists k: nat :: k < n - 1 && MeetsWall(m, BurstStep(m, e, id, every), id, every, brk, k))
  {
    hide MeetsWall, BurstStep, Breaks;
    if k: nat :| k < n && MeetsWall(m, e, id, every, brk, k) {
      WallLater(m, e, id, every, brk, k - 1);
    }
    if k: nat :| k < n - 1 && MeetsWall(m, BurstStep(m, e, id, every), id, every, brk, k) {
      WallLater(m, e, id, every, brk, k);
    }
  }

  lemma AtStart(m: Model, e: State, id: nat, every: bool, brk: Option<Token>)
    ensures MeetsWall(m, e, id, every, brk, 0) <==> Wall(e, id, every)
  {
  }

  /** The page check as a step of the engine. */
  lemma BurstApplied(m: Model, e: State, id: nat, every: bool)
    requires Balanced(e) && Bursting(e, id)
    ensures var e1 := Apply(m, e, CheckStep(id, every));
      && e1 == Checked(e, id, every) && Balanced(e1) && id in e1.seqs && (!e1.seqs[id].ready <==> Wall(e, id, every))
      && (Wall(e, id, every) ==> (
        && e1.c == e.c && Bursting(e1, id) && Grown(e.seqs[id], e1.seqs[id], 0)
        && e1.seqs.Keys == e.seqs.Keys && (forall j :: j in e.seqs && j != id ==> e1.seqs[j] == e.seqs[j])))
  {
    hide Balanced, Wall, DoPrepare, DoBurst, Covers;
    BurstRefusedExactly(e, id, every);
    ApplyInv(m, e, CheckStep(id, every));
  }

  /**
   Enough pages that need no eviction: one for each page boundary among the rows of the burst,
   and one for a copy that is due.  Then it does not raise, whatever the tokens are.
   */
  lemma {:induction false} RoomIsEnough(m: Model, e: State, id: nat, every: bool, n: nat, brk: Option<Token>)
    requires Balanced(e) && Bursting(e, id)
    requires Spare(e.c) + Pages(e.seqs[id].cached, e.c.bs) >= Pages(e.seqs[id].cached + n, e.c.bs) + Due(e, id, every)
    ensures !BurstLoop(m, e, id, every, n, brk).raised
    decreases n
  {
    hide Balanced, Bursting, Apply, Forwarded, Breaks, Spare, Pages;
    if n > 0 {
      NoWall(e, id, every, n);
      BurstApplied(m, e, id, every);
      StepKeeps(m, e, id, every);
      RoomIsEnough(m, BurstStep(m, e, id, every), id, every, n - 1, brk);
    }
  }

  /**
   Seen before the call: pages that need no eviction for the whole request, prompt and tokens,
   beyond those its rows are on.  Then none of its bursts raises.
   */
  lemma CoveredNeverRaises(m: Model, e: State, id: nat, every: bool, n: nat, brk: Option<Token>, limit: nat)
    requires Balanced(e) && Bursting(e, id) && InStep(e.seqs[id]) && |e.seqs[id].output| + n <= limit
    requires Spare(e.c) + Pages(e.seqs[id].cached, e.c.bs) >= Pages(|e.seqs[id].prompt| + limit, e.c.bs) + Due(e, id,
                                                                                                               every)
    ensures !BurstLoop(m, e, id, every, n, brk).raised
    ensures forall k: nat :: k < n ==> !MeetsWall(m, e, id, every, brk, k)
  {
    hide Balanced, Covers, BurstLoop, Spare, Due, MeetsWall, Pages;
    PagesMono(e.seqs[id].cached + n, |e.seqs[id].prompt| + limit, e.c.bs);
    RoomIsEnough(m, e, id, every, n, brk);
    BurstRaisesExactly(m, e, id, every, n, brk);
  }

  lemma NoWall(e: State, id: nat, every: bool, n: nat)
    requires Bursting(e, id) && n > 0
    requires Spare(e.c) + Pages(e.seqs[id].cached, e.c.bs) >= Pages(e.seqs[id].cached + n, e.c.bs) + Due(e, id, every)
    ensures !Wall(e, id, every)
  {
    hide Pages, SlotOf, PageOf, Covers;
    NextPages(e.seqs[id].cached, e.c.bs);
    PagesMono(e.seqs[id].cached + 1, e.seqs[id].cached + n, e.c.bs);
  }

  // ---------------------------------------------------------------- contents

  lemma StepSound(m: Model, e: State, id: nat, every: bool)
    requires Sound(m, e) && Bursting(e, id) && !Wall(e, id, every) && SafeStep(e, CheckStep(id, every))
    ensures Sound(m, BurstStep(m, e, id, every))
  {
    hide Sound, Apply, Bursting, Wall, SafeStep;
    ApplyOk(m, e, CheckStep(id, every));
    var e1 := Apply(m, e, CheckStep(id, every));
    assert SafeStep(e1, Forward(id)) && SafeStep(Apply(m, e1, Forward(id)), Deliver(id)) by { OwnSteps(e1, id); }
    ApplyOk(m, e1, Forward(id));
    ApplyOk(m, Apply(m, e1, Forward(id)), Deliver(id));
  }

  lemma OwnSteps(e: State, id: nat)
    ensures forall e': State :: SafeStep(e', Forward(id)) && SafeStep(e', Deliver(id))
  {
  }

  /** A burst whose first step is safe keeps the engine sound, whether it raises or not. */
  lemma {:induction false} BurstIsSound(m: Model, e: State, id: nat, every: bool, n: nat, brk: Option<Token>)
    requires Sound(m, e) && Bursting(e, id) && (n > 0 ==> SafeStep(e, CheckStep(id, every)))
    ensures Sound(m, BurstLoop(m, e, id, every, n, brk).e)
    decreases n
  {
    hide Sound, Apply, Bursting, Wall, SafeStep, Breaks, BurstStep, BurstLoop, Balanced, Good, ColdOk, Checked;
    SoundBalanced(m, e);
    if n == 0 {
      NoMore(m, e, id, every, brk);
    } else if Wall(e, id, every) {
      LoopRaises(m, e, id, every, n, brk);
      BurstApplied(m, e, id, every);
      ApplyOk(m, e, CheckStep(id, every));
    } else {
      LoopTurn(m, e, id, every, n, brk);
      StepKeeps(m, e, id, every);
      StepSound(m, e, id, every);
      Present(BurstStep(m, e, id, every), id);
      WarmIsSafe(BurstStep(m, e, id, every), id, every);
      BurstIsSound(m, BurstStep(m, e, id, every), id, every, n - 1, brk);
    }
  }

  lemma WarmIsSafe(e: State, id: nat, every: bool)
    requires id in e.seqs && e.seqs[id].warm
    ensures SafeStep(e, CheckStep(id, every))
  {
  }

  /** Cached rows and tokens of a decode in step with each other. */
  ghost predicate InStep(s: Seq) {
    s.cached + 1 == |s.prompt| + |s.output|
  }

  lemma SoundInStep(m: Model, e: State, id: nat)
    requires Sound(m, e) && Bursting(e, id)
    ensures InStep(e.seqs[id])
  {
    hide PagePool.Inv, NodeOk, Rows, Reference, ColdOk, KV, WarmPage, DecodePage;
    assert SeqOk(m, e.c, e.seqs[id]);
  }

  /**
   Losing the tokens of a burst leaves the engine sound exactly when there were none: the request
   keeps one cached row for every lost token, so rows and tokens are out of step from then on.
   */
  lemma LossIsHarmlessExactly(m: Model, e: State, id: nat, k: nat)
    requires Sound(m, e) && Bursting(e, id) && k < |e.seqs[id].output|
    ensures var e' := DoLose(e, id, k);
      && Bursting(e', id) && e'.seqs[id].output == e.seqs[id].output[..|e.seqs[id].output| - k]
      && e'.seqs[id].cached + 1 == |e'.seqs[id].prompt| + |e'.seqs[id].output| + k
      && (Sound(m, e') <==> k == 0) && (InStep(e'.seqs[id]) <==> k == 0)
  {
    hide Sound, Covers;
    SoundInStep(m, e, id);
    var e' := DoLose(e, id, k);
    if k == 0 {
      LoseNothing(e, id);
    } else if Sound(m, e') {
      SoundInStep(m, e', id);
    }
  }

  // ---------------------------------------------------------------- in place

  lemma ForwardedIs(m: Model, e: State, id: nat)
    requires Balanced(e) && Bursting(e, id) && e.seqs[id].ready
    requires Covers(e.c.kv, e.seqs[id].table, e.c.bs, e.seqs[id].cached + 1)
    ensures var e2 := DoForward(m, e, id);
      && id in e2.seqs && e2.seqs[id].pending.Some? && Forwarded(m, e, id) == DoDeliver(e2, id)
      && id in DoDeliver(e2, id).seqs
      && DoDeliver(e2, id).seqs[id].output == e.seqs[id].output + [e2.seqs[id].pending.value] && !e2.seqs[id].pre
  {
    hide Balanced, DoForward, Covers;
    ForwardAppends(m, e, id);
  }

  /** One turn of the loop of `BurstLoop` that does not raise. */
  lemma LoopTurn(m: Model, e: State, id: nat, every: bool, n: nat, brk: Option<Token>)
    requires n > 0 && Balanced(e) && Bursting(e, id) && !Wall(e, id, every)
    ensures var e2 := BurstStep(m, e, id, every);
      BurstLoop(m, e, id, every, n, brk) ==
        if Breaks(e2, id, brk) then BurstEnd(e2, 1, false)
        else var r := BurstLoop(m, e2, id, every, n - 1, brk); BurstEnd(r.e, r.taken + 1, r.raised)
  {
    hide Balanced, Bursting, Wall, Apply, Forwarded, Breaks;
    BurstApplied(m, e, id, every);
  }

  lemma LoopRaises(m: Model, e: State, id: nat, every: bool, n: nat, brk: Option<Token>)
    requires n > 0 && Balanced(e) && Bursting(e, id) && Wall(e, id, every)
    ensures BurstLoop(m, e, id, every, n, brk) == BurstEnd(Checked(e, id, every), 0, true)
  {
    hide Balanced, Bursting, Wall, Apply, Forwarded, Breaks;
    BurstApplied(m, e, id, every);
  }

  /** One turn: the page check, and if it succeeds the forward and the append. */
  method Turn(core: EngineCore, id: nat, every: bool) returns (ok: bool, tok: Token)
    requires core.Valid() && Balanced(core.View()) && Bursting(core.View(), id)
    modifies core, core.radix, core.radix.kv
    ensures core.Valid() && (ok <==> !Wall(old(core.View()), id, every))
    ensures !ok ==> core.View() == Checked(old(core.View()), id, every) && id in core.View().seqs
    ensures ok ==> core.View() == BurstStep(core.m, old(core.View()), id, every) && id in core.View().seqs
    ensures ok ==> core.View().seqs[id].output == old(core.View()).seqs[id].output + [tok]
  {
    hide Shape, Rows2, Balanced, DoPrepare, DoBurst, DoForward, DoDeliver, Apply, Wall, Forwarded;
    ghost var e := core.View();
    BurstApplied(core.m, e, id, every);
    if every {
      core.Prepare(id);
    } else {
      core.PrepareInBurst(id);
    }
    ok, tok := core.seqs[id].ready, 0;
    if ok {
      ghost var e1 := core.View();
      BurstFrame(e, id, every);
      ForwardedIs(core.m, e1, id);
      core.RunForward(id);
      tok := core.seqs[id].pending.value;
      core.DeliverToken(id);
    }
  }

  /**
   The burst loop of the runner.  On the host path each token is in the output as soon as it is
   sampled, and `brk` ends the loop; on the device path the tokens stay in a ring that is read
   after the loop, so a burst that raises leaves its rows behind without them.
   */
  method RunBurst(core: EngineCore, id: nat, every: bool, n: nat, brk: Option<Token>, device: bool)
    returns (toks: seq<Token>, raised: bool)
    requires core.Valid() && Balanced(core.View()) && Bursting(core.View(), id)
    modifies core, core.radix, core.radix.kv
    ensures core.Valid()
    ensures var r := BurstLoop(core.m, old(core.View()), id, every, n, brk);
      && raised == r.raised && id in r.e.seqs
      && core.View() == (if r.raised && device then DoLose(r.e, id, r.taken) else r.e)
      && r.e.seqs[id].output == old(core.View()).seqs[id].output + toks && |toks| == r.taken
  {
    hide Shape, Rows2, Balanced, Bursting, Checked, Wall, Breaks, BurstLoop, BurstStep, DoLose;
    ghost var e0 := core.View();
    var i := 0;
    toks, raised := [], false;
    Present(core.View(), id);
    while i < n
      invariant 0 <= i <= n && i == |toks| && !raised && core.Valid() && id in e0.seqs && id in core.View().seqs
      invariant Balanced(core.View()) && Bursting(core.View(), id)
      invariant core.View().seqs[id].output == e0.seqs[id].output + toks
      invariant var r := BurstLoop(core.m, core.View(), id, every, n - i, brk);
        BurstLoop(core.m, e0, id, every, n, brk) == BurstEnd(r.e, r.taken + i, r.raised)
    {
      ghost var e := core.View();
      var ok, tok := Turn(core, id, every);
      if !ok {
        LoopRaises(core.m, e, id, every, n - i, brk);
        SameOutput(e, id, every);
        raised := true;
        if device {
          core.LoseTokens(id, i);
        }
        return;
      }
      LoopTurn(core.m, e, id, every, n - i, brk);
      StepKeeps(core.m, e, id, every);
      toks := toks + [tok];
      i := i + 1;
      if brk == Some(tok) {
        BreakHere(core.View(), id, brk);
        return;
      }
      NoBreak(core.View(), id, brk, tok);
    }
    NoMore(core.m, core.View(), id, every, brk);
  }

  lemma Present(e: State, id: nat)
    requires Bursting(e, id)
    ensures id in e.seqs
  {
  }

  lemma SameOutput(e: State, id: nat, every: bool)
    requires Bursting(e, id) && Balanced(e) && Wall(e, id, every)
    ensures id in e.seqs && id in Checked(e, id, every).seqs
    ensures Checked(e, id, every).seqs[id].output == e.seqs[id].output
  {
    hide Balanced, Wall;
    BurstRefusedExactly(e, id, every);
  }

  lemma NoMore(m: Model, e: State, id: nat, every: bool, brk: Option<Token>)
    ensures BurstLoop(m, e, id, every, 0, brk) == BurstEnd(e, 0, false)
  {
  }

  lemma BreakHere(e: State, id: nat, brk: Option<Token>)
    requires id in e.seqs && e.seqs[id].output != [] && brk == Some(e.seqs[id].output[|e.seqs[id].output| - 1])
    ensures Breaks(e, id, brk)
  {
  }

  lemma NoBreak(e: State, id: nat, brk: Option<Token>, tok: Token)
    requires id in e.seqs && e.seqs[id].output != [] && tok == e.seqs[id].output[|e.seqs[id].output| - 1]
    requires brk != Some(tok)
    ensures !Breaks(e, id, brk)
  {
  }
}
