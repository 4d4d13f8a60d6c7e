/**
 The engine loop over the engine, in place: one object for the loop with its scheduler, one for
 the requests over the page pool, and the pump that drives both.
 */
module ServingLoopImpl {
  import opened Prelude
  import opened Paging
  import opened PagePool
  import opened PrefixTree
  import opened Generation
  import opened Engine
  import opened EngineBalance
  import opened EngineRuns
  import opened Serving
  import opened BatchRun
  import opened BurstRun
  import opened Limits
  import opened LoopEngine
  import opened EnginePump
  import opened RadixCacheImpl
  import opened EngineCoreImpl
  import opened EngineLoopImpl
  import S = Scheduling
  import L = Loop
  import LS = LoopSafety
  import Draining
  import RaisedDrains

  /** The token that ends a burst: the per-step loop stops at the end-of-sequence token always. */
  function BreakOf(p: Params, every: bool): Option<Token> {
    if every || !p.ignoreEos then p.eos else None
  }

  /** State in which the burst of a lone decode begins, its first token delivered. */
  ghost function BurstStart(cfg: S.Config, m: Model, w: Whole): State {
    var b := S.FormBatch(cfg, w.l.s);
    if b.ids == [] then w.e
    else Apply(m, Run(m, w.e, BatchPlan(w.e, b.ids, S.Flags(w.l.s.table, b))), Deliver(b.ids[0]))
  }

  /** The batch is one decode that bursts, and its burst meets a wall before the break token. */
  ghost predicate BurstFails(cfg: S.Config, m: Model, w: Whole, burst: nat, every: bool) {
    var b := S.FormBatch(cfg, w.l.s);
    && b.ids != [] && b.ids[0] in w.l.gen
    && var n, brk := L.Extra(w.l, b, burst), BreakOf(w.l.gen[b.ids[0]].params, every);
       var e := BurstStart(cfg, m, w);
       exists k: nat :: k < n && MeetsWall(m, e, b.ids[0], every, brk, k)
  }

  /** The steps the runner takes for the next batch. */
  ghost function NextPlan(cfg: S.Config, w: Whole): seq<Step> {
    var b := S.FormBatch(cfg, w.l.s);
    BatchPlan(w.e, b.ids, S.Flags(w.l.s.table, b))
  }

  /** On an admitted state: the batch is a decode that bursts, and the burst raises. */
  ghost predicate RaisesNow(cfg: S.Config, l: L.State, burst: nat, o: L.Outcome) {
    o.Raised? && L.Extra(l, S.FormBatch(cfg, l.s), burst) > 0
  }

  ghost function ExtraOf(l: L.State, ids: seq<nat>, pre: seq<bool>, burst: nat): nat
    requires |pre| == |ids|
  {
    if burst <= 1 || |ids| != 1 || pre[0] || ids[0] !in l.gen then 0
    else
      var g := l.gen[ids[0]];
      var left: nat := if g.params.maxTokens > |g.output| then g.params.maxTokens - |g.output| - 1 else 0;
      if left < burst - 1 then left else burst - 1
  }

  /** The token the model gives each request next. */
  ghost function Firsts(m: Model, e: State): nat -> Token {
    id => if id in e.seqs then Expected(m, e.seqs[id]) else 0
  }

  /** Some page preparation of the plan finds the pool exhausted. */
  ghost predicate PlanStarves(m: Model, e: State, plan: seq<Step>) {
    exists k :: 0 <= k <= |plan| && Starved(Run(m, e, plan[..k]), plan[..k])
  }

  /** A live request whose only news are `toks`, everyone else told everything. */
  ghost predicate Told1(w: Whole, id: nat, toks: seq<Token>) {
    && id in w.e.seqs && !w.e.seqs[id].finished && w.e.seqs[id].pending.None?
    && toks != [] && News(w, id) == toks && EvenBut(w, id)
  }

  class ServingLoop {
    const loop: EngineLoop
    const core: EngineCore
    ghost var batch: seq<nat>

    ghost function View(): Whole
      reads this, loop, loop.sched, core, core.radix, core.radix.kv
    {
      Whole(loop.View(), core.View(), batch)
    }

    ghost predicate Valid()
      reads this, loop, loop.sched, core, core.radix, core.radix.kv
    {
      core.Valid()
    }

    ghost predicate Ready()
      reads this, loop, loop.sched, core, core.radix, core.radix.kv
    {
      Steady(loop.sched.cfg, core.m, View())
    }

    /** A new loop over a new engine. */
    constructor (cfg: S.Config, burst: nat, poolTokens: nat, blockSize: nat, zeroRow: Row, m: Model)
      requires blockSize > 0
      ensures Valid() && Ready() && Start(View())
      ensures loop.sched.cfg == cfg && loop.burst == burst && core.m == m
      ensures fresh(loop) && fresh(loop.sched) && fresh(core) && fresh(core.radix) && fresh(core.radix.kv)
    {
      loop := new EngineLoop(cfg, burst);
      var radix := new RadixCache(poolTokens, blockSize, zeroRow);
      core := new EngineCore(radix, m);
      batch := [];
      new;
      FreshPool(poolTokens, blockSize, zeroRow, core.View());
      NewIsSteady(cfg, m, View());
    }

    method Submit(rid: nat, prompt: seq<Token>, p: Params) returns (ok: bool)
      requires Valid() && Ready() && LS.FreshId(loop.View(), rid)
      modifies loop
      ensures Valid() && Ready()
      ensures View() == Act1(loop.sched.cfg, core.m, old(View()), LoopEngine.Submit(rid, prompt, p))
      ensures ok == L.Admissible(old(loop.View()), prompt, p)
    {
      hide Fine, L.LoopInv, Settled, Even, EngineCore.Valid, LS.FreshId;
      SubmitSteady(loop.sched.cfg, core.m, View(), rid, prompt, p);
      ok := loop.Submit(rid, prompt, p);
    }

    /** Cancels a request wherever it is; its pages go back at once. */
    method Cancel(rid: nat)
      requires Valid() && Ready()
      modifies loop, loop.sched, core, core.radix, core.radix.kv
      ensures Valid() && Ready() && View() == Act1(loop.sched.cfg, core.m, old(View()), LoopEngine.Cancel(rid))
    {
      hide Fine, L.LoopInv, Settled, Even, EngineCore.Valid, DoFinish, DoStop, L.DoCancelReq;
      ghost var cfg, m, w := loop.sched.cfg, core.m, View();
      ghost var l' := L.DoCancelReq(w.l, rid);
      CancelActKeeps(cfg, m, w, rid);
      StopShape(cfg, m, w, rid, l');
      CancelOnly(w.l, rid);
      var found := rid in loop.sched.byRid;
      var id := if found then loop.sched.byRid[rid] else 0;
      loop.Cancel(rid);
      if found {
        core.MarkFinished(id, |loop.gen[id].output|);
      }
      StopSteady(cfg, m, w, rid, l');
    }

    /** Ends a request whose deadline has passed. */
    method Expire(rid: nat)
      requires Valid() && Ready()
      modifies loop, loop.sched, core, core.radix, core.radix.kv
      ensures Valid() && Ready() && View() == Act1(loop.sched.cfg, core.m, old(View()), LoopEngine.Timeout(rid))
    {
      hide Fine, L.LoopInv, Settled, Even, EngineCore.Valid, DoFinish, DoStop, L.DoTimeout;
      ghost var cfg, m, w := loop.sched.cfg, core.m, View();
      ghost var l' := L.DoTimeout(w.l, rid);
      CancelActKeeps(cfg, m, w, rid);
      StopShape(cfg, m, w, rid, l');
      CancelOnly(w.l, rid);
      var found := rid in loop.sched.byRid;
      var id := if found then loop.sched.byRid[rid] else 0;
      loop.Expire(rid);
      if found {
        core.MarkFinished(id, |loop.gen[id].output|);
      }
      StopSteady(cfg, m, w, rid, l');
    }

    /** Empties the submission queue into scheduler and engine. */
    method AdmitPending(seeds: nat -> nat)
      requires Valid() && Ready() && AlignedQueue(core.View().c, loop.queue)
      modifies loop, loop.sched, core, core.radix, core.radix.kv
      ensures Valid() && Ready() && loop.queue == []
      ensures View() == AdmitEvery(loop.sched.cfg, core.m, old(View()), seeds)
    {
      hide Steady, Act1, AlignedHit, Lookup, L.AdmitOne, DoAdmit, Apply, EngineCore.Valid;
      while loop.queue != []
        invariant Valid() && Ready() && AlignedQueue(core.View().c, loop.queue)
        invariant AdmitEvery(loop.sched.cfg, core.m, View(), seeds) == AdmitEvery(loop.sched.cfg, core.m, old(View()),
                                                                                  seeds)
        decreases |loop.queue|
      {
        ghost var w := View();
        var it := loop.queue[0];
        AdmitNextSteady(loop.sched.cfg, core.m, w, seeds(it.rid));
        AdmitNextQueue(loop.sched.cfg, core.m, w, seeds(it.rid));
        NextIsNew(loop.sched.cfg, core.m, w, seeds(it.rid));
        loop.queue := loop.queue[1..];
        var hit := 0;
        if it.rid !in loop.cancelled
          && |loop.sched.waiting| < loop.sched.cfg.maxWaiting && |it.prompt| <= loop.sched.cfg.maxPrompt
        {
          var id := loop.sched.nextId;
          core.AddRequest(id, it.prompt, seeds(it.rid));
          hit := core.seqs[id].cached;
        }
        loop.AdmitItem(it, hit);
        assert View() == Act1(loop.sched.cfg, core.m, w, AdmitNext(seeds(it.rid)));
      }
    }

    /** The runner failed: every member ends with the tokens it was told. */
    method FailBatch(ids: seq<nat>)
      requires Valid() && NoDup(ids) && batch == ids
      requires Fine(loop.sched.cfg, core.m, View()) && Even(View()) && Halfway(View(), ids, 0)
      modifies loop, loop.sched, core, core.radix, core.radix.kv
      ensures Valid() && Fine(loop.sched.cfg, core.m, View()) && Even(View()) && Halfway(View(), ids, |ids|)
      ensures loop.View() == L.FailAll(old(loop.View()), ids)
    {
      hide Fine, Even, Halfway, OnlyOne, Square, Act1, L.FailOne, DoFinish, EngineCore.Valid, NoDup;
      var i := 0;
      while i < |ids|
        invariant 0 <= i <= |ids| && Valid() && Fine(loop.sched.cfg, core.m, View()) && Even(View())
        invariant Halfway(View(), ids, i)
        invariant L.FailAll(loop.View(), ids[i..]) == L.FailAll(old(loop.View()), ids)
      {
        ghost var w := View();
        MemberLive(w, ids, i);
        BatchKnown(loop.sched.cfg, core.m, w, ids[i]);
        FailMember(loop.sched.cfg, core.m, w, ids[i]);
        var keep := |loop.gen[ids[i]].output|;
        loop.Fail(ids[i]);
        core.MarkFinished(ids[i], keep);
        assert View() == w.(l := L.FailOne(w.l, ids[i]), e := DoFinish(w.e, ids[i], keep));
        SameWhole(View(), Act1(loop.sched.cfg, core.m, w, Fail(ids[i])), w);
        Onward(w, View(), ids, i, _ => 0);
        i := i + 1;
      }
    }

    method GiveToken(id: nat)
      requires Valid() && Fine(loop.sched.cfg, core.m, View()) && Even(View()) && id in batch
      requires id in core.seqs && !core.seqs[id].finished && core.seqs[id].pending.Some?
      modifies loop, loop.sched, core, core.radix, core.radix.kv
      ensures Valid() && View() == Give(loop.sched.cfg, core.m, old(View()), id)
    {
      hide Fine, Even, OnlyOne, Square, Give, L.DeliverOne, Closing, DoDeliver, EngineCore.Valid, Balanced, Sound;
      ghost var w := View();
      GiveMember(loop.sched.cfg, core.m, w, id);
      FineBlock(loop.sched.cfg, core.m, w);
      DeliverFacts(core.m, w.e, id);
      var tok := core.seqs[id].pending.value;
      core.DeliverToken(id);
      loop.Deliver(id, [tok]);
      CloseIfFinished(id);
      SameWhole(View(), Give(loop.sched.cfg, core.m, w, id), w);
    }

    /** The sampled token of every member is appended, judged and reported. */
    method DeliverBatch(ids: seq<nat>, ghost first: nat -> Token)
      requires Valid() && NoDup(ids) && batch == ids
      requires Fine(loop.sched.cfg, core.m, View()) && Even(View()) && Halfway(View(), ids, 0)
      requires Sampled(View(), ids, 0, first)
      modifies loop, loop.sched, core, core.radix, core.radix.kv
      ensures Valid() && Fine(loop.sched.cfg, core.m, View()) && Even(View()) && Halfway(View(), ids, |ids|)
      ensures loop.View() == L.DeliverAll(old(loop.View()), ids, first)
    {
      hide Fine, Even, Halfway, OnlyOne, Square, Give, Sampled, L.DeliverOne, Closing, DoDeliver, EngineCore.Valid,
        NoDup;
      var i := 0;
      while i < |ids|
        invariant 0 <= i <= |ids| && Valid() && Fine(loop.sched.cfg, core.m, View()) && Even(View())
        invariant Halfway(View(), ids, i) && Sampled(View(), ids, i, first)
        invariant L.DeliverAll(loop.View(), ids[i..], first) == L.DeliverAll(old(loop.View()), ids, first)
      {
        ghost var w := View();
        MemberLive(w, ids, i);
        MemberToken(w, ids, i, first);
        GiveMember(loop.sched.cfg, core.m, w, ids[i]);
        GiveToken(ids[i]);
        Onward(w, View(), ids, i, first);
        i := i + 1;
      }
    }

    /** A request that the loop ended is ended in the engine, with the tokens it was told. */
    method CloseIfFinished(id: nat)
      requires Valid() && id in core.seqs
      modifies core, core.radix, core.radix.kv
      ensures Valid() && core.View() == Closing(loop.View(), old(core.View()), id)
    {
      hide DoFinish;
      if id in loop.sched.table && loop.sched.table[id].finished {
        var keep := if id in loop.gen then |loop.gen[id].output| else 0;
        core.MarkFinished(id, keep);
      }
    }

    /** The first token of a lone decode is appended, then it bursts. */
    method FirstAndBurst(id: nat, n: nat, every: bool, brk: Option<Token>, device: bool)
      returns (tok: Token, toks: seq<Token>, raised: bool, ghost r: BurstEnd)
      requires Valid() && Fine(loop.sched.cfg, core.m, View()) && Even(View()) && batch == [id]
      requires id in core.seqs && !core.seqs[id].finished && core.seqs[id].pending.Some? && id in loop.gen
      modifies core, core.radix, core.radix.kv
      ensures Valid() && tok == old(core.seqs)[id].pending.value
      ensures r == BurstLoop(core.m, Apply(core.m, old(core.View()), Deliver(id)), id, every, n, brk)
      ensures raised == r.raised && |toks| == r.taken && (raised ==> |toks| < n && Exhausted(r.e.c)) && |toks| <= n
      ensures var e := Apply(core.m, old(core.View()), Deliver(id));
        raised <==> exists k: nat :: k < n && MeetsWall(core.m, e, id, every, brk, k)
      ensures id in r.e.seqs && core.View() == (if raised && device then DoLose(r.e, id, r.taken) else r.e)
      ensures Fine(loop.sched.cfg, core.m, old(View()).(e := r.e)) && Told1(old(View()).(e := r.e), id, [tok] + toks)
    {
      hide Fine, Even, DoDeliver, EngineCore.Valid, Balanced, Sound, Bursting, BurstLoop, Apply, MeetsWall, DoLose,
        Exhausted, Told1;
      ghost var w := View();
      FineBlock(loop.sched.cfg, core.m, w);
      DeliverFacts(core.m, w.e, id);
      StepFine(loop.sched.cfg, core.m, w, Deliver(id));
      tok := core.seqs[id].pending.value;
      core.DeliverToken(id);
      ghost var w1 := View();
      LoneBursting(loop.sched.cfg, core.m, w1, id);
      BurstRaisesExactly(core.m, w1.e, id, every, n, brk);
      BurstFine(loop.sched.cfg, core.m, w1, id, every, n, brk);
      r := BurstLoop(core.m, w1.e, id, every, n, brk);
      toks, raised := RunBurst(core, id, every, n, brk, device);
      BurstShape(w, w1, w1.(e := r.e), id, tok, toks);
    }

    /**
     A lone decode that bursts: first token, burst, then the stop rules over all tokens; or the
     burst raises, `lost` of its tokens gone with the ring.
     */
    method LoneBurst(id: nat, n: nat, every: bool)
      returns (raised: bool, lost: nat, ghost tok: Token, ghost more: seq<Token>)
      requires Valid() && Fine(loop.sched.cfg, core.m, View()) && Even(View()) && batch == [id]
      requires id in core.seqs && !core.seqs[id].finished && core.seqs[id].pending.Some? && id in loop.gen
      modifies loop, loop.sched, core, core.radix, core.radix.kv
      ensures Valid() && tok == old(core.seqs)[id].pending.value && (lost > 0 ==> raised && !every)
      ensures var e := Apply(core.m, old(core.View()), Deliver(id));
        raised <==> exists k: nat :: k < n && MeetsWall(core.m, e, id, every, BreakOf(old(loop.gen)[id].params, every),
                                                        k)
      ensures raised ==> Exhausted(core.View().c) && |more| < n && loop.View() == L.KeepOne(old(loop.View()), id,
                                                                                            [tok] + more)
      ensures !raised ==> |more| <= n && loop.View() == L.DeliverOne(old(loop.View()), id, [tok] + more)
      ensures lost == 0 ==> Fine(loop.sched.cfg, core.m, View()) && Even(View()) && Square(View(), id)
    {
      hide Fine, Even, OnlyOne, Square, Act1, L.DeliverOne, L.KeepOne, Closing, EngineCore.Valid, BurstLoop, Apply,
        MeetsWall,
        DoLose, Exhausted, News, EvenBut;
      var brk := BreakOf(loop.gen[id].params, every);
      var device := !every && loop.gen[id].params.ignoreEos;
      ghost var w0 := View();
      var first, toks;
      ghost var r;
      first, toks, raised, r := FirstAndBurst(id, n, every, brk, device);
      ghost var w := w0.(e := r.e);
      tok, lost, more := first, 0, toks;
      if !raised {
        TellMember(loop.sched.cfg, core.m, w, id);
        loop.Deliver(id, [first] + toks);
        CloseIfFinished(id);
        SameWhole(View(), Act1(loop.sched.cfg, core.m, w, Report(id)), w);
      } else if device && toks != [] {
        lost, more := |toks|, [];
        LoseCache(r.e, id, r.taken);
        loop.Keep(id, [first]);
        assert [tok] + more == [first];
      } else {
        LoseNothing(r.e, id);
        RaiseMember(loop.sched.cfg, core.m, w, id);
        loop.Keep(id, [first] + toks);
        SameWhole(View(), Act1(loop.sched.cfg, core.m, w, Raise(id, 0)), w);
      }
    }

    /** Every member gets its token; a lone decode bursts on for up to `extra` more. */
    method DeliverOrBurst(ids: seq<nat>, extra: nat, every: bool, ghost first: nat -> Token)
      returns (raised: bool, lost: nat, ghost more: seq<Token>)
      requires Valid() && NoDup(ids) && batch == ids && ids != []
      requires Fine(loop.sched.cfg, core.m, View()) && Even(View()) && Halfway(View(), ids, 0)
      requires Sampled(View(), ids, 0, first)
      requires extra > 0 ==> |ids| == 1 && ids[0] in loop.gen
      modifies loop, loop.sched, core, core.radix, core.radix.kv
      ensures Valid() && (lost > 0 ==> raised && !every)
      ensures lost == 0 ==> Fine(loop.sched.cfg, core.m, View()) && Even(View()) && Halfway(View(), ids, |ids|)
      ensures raised ==> Exhausted(core.View().c) && extra > 0
      ensures extra == 0 ==> more == [] && loop.View() == L.DeliverAll(old(loop.View()), ids, first)
      ensures extra > 0 && raised ==> |more| < extra && loop.View() == L.KeepOne(old(loop.View()), ids[0],
                                                                                 [first(ids[0])] + more)
      ensures extra > 0 && !raised ==>
        |more| <= extra && loop.View() == L.DeliverOne(old(loop.View()), ids[0], [first(ids[0])] + more)
      ensures extra > 0 ==>
        var e, brk := Apply(core.m, old(core.View()), Deliver(ids[0])), BreakOf(old(loop.gen)[ids[0]].params, every);
        raised <==> exists k: nat :: k < extra && MeetsWall(core.m, e, ids[0], every, brk, k)
    {
      hide Fine, Even, Halfway, Sampled, Square, EngineCore.Valid, Exhausted, L.DeliverAll, L.DeliverOne, L.KeepOne,
        MeetsWall,
        NoDup, Apply;
      raised, lost, more := false, 0, [];
      if extra > 0 {
        LoneBatch(View(), ids, first);
        ghost var tok;
        raised, lost, tok, more := LoneBurst(ids[0], extra, every);
        if lost == 0 {
          LoneDone(View(), ids);
        }
      } else {
        DeliverBatch(ids, first);
      }
    }

    /** One scheduler step, and the runner's work on the batch. */
    method RunNext() returns (ids: seq<nat>, pre: seq<bool>, ok: bool)
      requires Valid() && Ready()
      modifies this, loop.sched, core, core.radix, core.radix.kv
      ensures Valid() && batch == ids && NoDup(ids) && |pre| == |ids|
      ensures var b := S.FormBatch(loop.sched.cfg, old(loop.sched.View()));
        ids == b.ids && pre == S.Flags(old(loop.sched.View()).table, b)
      ensures loop.View() == old(loop.View()).(s := S.DoStep(loop.sched.cfg, old(loop.sched.View())))
      ensures Fine(loop.sched.cfg, core.m, View()) && Even(View()) && Halfway(View(), ids, 0)
      ensures ids != [] ==> ids[0] in loop.gen
      ensures ok ==> Sampled(View(), ids, 0, Firsts(core.m, old(core.View())))
      ensures ok && ids != [] ==>
        BurstStart(loop.sched.cfg, core.m, old(View())) == Apply(core.m, core.View(), Deliver(ids[0]))
      ensures !ok ==> ids != [] && PlanStarves(core.m, old(core.View()), NextPlan(loop.sched.cfg, old(View())))
    {
      hide Fine, L.LoopInv, Settled, Even, Halfway, Sampled, EngineCore.Valid, Run, Within, Followed, Batchable, Sound,
        BatchPlan, S.FormBatch, S.DoStep, S.Flags, SameMembers, AllPending, Starved, PlanStarves, NoDup, Expected,
        BurstStart,
        Firsts;
      ghost var cfg, m := loop.sched.cfg, core.m;
      ghost var w1 := View();
      BatchFormed(cfg, m, w1);
      ids, pre := loop.sched.Step();
      batch, ok := ids, true;
      ghost var w2 := View();
      FlagsOfStep(cfg, w1.l.s);
      BatchableIs(w1.e, ids, pre);
      if ids == [] {
        NobodyWaits(w2, Firsts(m, w1.e));
        return;
      }
      var results;
      ghost var steps;
      ok, results, steps := RunBatch(core, ids, pre);
      RunnerFine(cfg, m, w1, w2, View(), steps);
      if ok {
        RunnerSampled(m, w1, View(), ids, results);
        BurstStartIs(cfg, m, w1, core.View(), steps);
      } else {
        StarvesHere(m, w1.e, core.View(), steps, BatchPlan(w1.e, ids, pre));
      }
    }

    /** The next batch: the runner works on it, and every member gets its token or its ending. */
    method WorkBatch(every: bool) returns (worked: bool, raised: bool, lost: nat, ghost o: L.Outcome)
      requires Valid() && Ready()
      modifies this, loop, loop.sched, core, core.radix, core.radix.kv
      ensures Valid() && (lost == 0 ==> Ready()) && (lost > 0 ==> raised && !every)
      ensures loop.View() == L.PumpBatch(loop.sched.cfg, old(loop.View()), loop.burst, o)
      ensures worked <==> S.FormBatch(loop.sched.cfg, old(loop.sched.View())).ids != []
      ensures raised <==> worked && RaisesNow(loop.sched.cfg, old(loop.View()), loop.burst, o)
      ensures raised <==> worked && !o.Crash? && BurstFails(loop.sched.cfg, core.m, old(View()), loop.burst, every)
      ensures raised ==> Exhausted(core.View().c)
      ensures worked && o.Crash? ==> PlanStarves(core.m, old(core.View()), NextPlan(loop.sched.cfg, old(View())))
    {
      hide Fine, L.LoopInv, Settled, Even, Halfway, Sampled, EngineCore.Valid, S.FormBatch, S.DoStep, S.Flags,
        Exhausted,
        PlanStarves, NextPlan, L.FailAll, L.DeliverAll, L.DeliverOne, L.KeepOne, MeetsWall, BurstFails, NoDup,
        L.PumpBatch,
        L.Extra, RaisesNow, BurstStart, Apply, Firsts;
      ghost var cfg, m := loop.sched.cfg, core.m;
      ghost var w1 := View();
      ghost var b := S.FormBatch(cfg, w1.l.s);
      var ids, pre, ok := RunNext();
      worked, raised, lost, o := ids != [], false, 0, L.Crash;
      if ids == [] {
        PumpNothing(cfg, w1.l, loop.burst);
      } else if ok {
        ghost var first := Firsts(m, w1.e);
        var extra := Burstable(ids, pre);
        ExtraIs(cfg, m, w1, View(), extra, loop.burst);
        ghost var more;
        raised, lost, more := DeliverOrBurst(ids, extra, every, first);
        o := if raised then L.Raised(first, more) else L.Tokens(first, more);
        BurstFailsIs(cfg, m, w1, loop.burst, every);
        PumpGoes(cfg, w1.l, loop.burst, o, first, more);
      } else {
        FailBatch(ids);
        PumpFails(cfg, w1.l, loop.burst);
      }
      LS.PumpBatchKeeps(cfg, w1.l, loop.burst, o);
      if lost == 0 {
        BatchSettled(cfg, m, View(), ids);
      }
    }

    /** How many tokens a burst may add to the batch. */
    method Burstable(ids: seq<nat>, pre: seq<bool>) returns (extra: nat)
      requires |pre| == |ids|
      ensures extra == ExtraOf(loop.View(), ids, pre, loop.burst)
    {
      if loop.burst <= 1 || |ids| != 1 || pre[0] || ids[0] !in loop.gen {
        return 0;
      }
      var g := loop.gen[ids[0]];
      var left: nat := if g.params.maxTokens > |g.output| then g.params.maxTokens - |g.output| - 1 else 0;
      extra := if left < loop.burst - 1 then left else loop.burst - 1;
    }

    /**
     pump_once over the engine: a pump of the loop machine, with the hits the tree has and the
     outcome the engine dictates.  It raises exactly when the burst of its lone decode meets a
     wall, fails its batch only when the plan starves, and otherwise leaves everything settled.
     */
    method PumpOnce(seeds: nat -> nat, every: bool) returns (worked: bool, raised: bool, lost: nat, ghost o: L.Outcome)
      requires Valid() && Ready() && AlignedQueue(core.View().c, loop.queue)
      modifies this, loop, loop.sched, core, core.radix, core.radix.kv
      ensures Valid() && L.LoopInv(loop.sched.cfg, loop.View()) && loop.queue == []
      ensures lost == 0 ==> Ready()
      ensures lost > 0 ==> raised && !every
      ensures var hits := Hits(old(core.View()).c, old(loop.queue));
        && loop.View() == L.DoPump(loop.sched.cfg, old(loop.View()), loop.burst, hits, o)
        && (raised <==> worked && L.Raises(loop.sched.cfg, old(loop.View()), loop.burst, hits, o))
      ensures var w1 := AdmitEvery(loop.sched.cfg, core.m, old(View()), seeds);
        && (worked <==> S.FormBatch(loop.sched.cfg, w1.l.s).ids != [])
        && (raised <==> worked && !o.Crash? && BurstFails(loop.sched.cfg, core.m, w1, loop.burst, every))
        && (worked && o.Crash? ==> PlanStarves(core.m, w1.e, NextPlan(loop.sched.cfg, w1)))
      ensures raised ==> Exhausted(core.View().c)
    {
      hide Steady, L.LoopInv, AlignedQueue, AdmitEvery, L.AdmitAll, L.PumpBatch, Hits, S.FormBatch, Exhausted,
        PlanStarves,
        NextPlan, BurstFails, L.Extra, EngineCore.Valid;
      ghost var cfg, w0 := loop.sched.cfg, View();
      AdmitEveryKeeps(cfg, core.m, w0, seeds);
      SteadyLoop(cfg, core.m, w0);
      LS.AdmitAllKeeps(cfg, w0.l, Hits(w0.e.c, w0.l.queue));
      AdmitPending(seeds);
      ghost var w1 := View();
      worked, raised, lost, o := WorkBatch(every);
      PumpBatchQueue(cfg, w1.l, loop.burst, o);
      LS.PumpBatchKeeps(cfg, w1.l, loop.burst, o);
    }

    /**
     pump_until_idle over the engine.  Either it ends idle, everyone answered and everything
     settled, or a burst raised out of it on an exhausted pool and left its request unanswered.
     */
    method PumpUntilIdle(seeds: nat -> nat, every: nat -> bool) returns (pumps: nat, raised: bool, lost: nat)
      requires Valid() && Ready() && AlignedQueue(core.View().c, loop.queue)
      requires loop.sched.cfg.maxBatch >= 1 && loop.sched.cfg.maxTokens >= 1
      modifies this, loop, loop.sched, core, core.radix, core.radix.kv
      ensures Valid() && L.LoopInv(loop.sched.cfg, loop.View()) && loop.frames.Keys == old(loop.frames).Keys
      ensures lost == 0 ==> Ready()
      ensures pumps <= L.Work(old(loop.View()))
      ensures !raised ==> lost == 0 && !L.Busy(loop.View())
      ensures !raised ==> forall rid :: rid in loop.frames ==> L.Closed(loop.frames[rid])
      ensures raised ==> Exhausted(core.View().c)
      ensures raised && RaisedDrains.Wired(old(loop.View())) ==> exists id :: RaisedDrains.Unanswered(loop.View(), id)
    {
      hide Steady, L.LoopInv, AlignedQueue, AdmitEvery, L.DoPump, L.Work, L.Closed, L.Raises, Hits, S.FormBatch,
        Exhausted,
        PlanStarves, NextPlan, BurstFails, EngineCore.Valid, RaisedDrains.Wired, RaisedDrains.Unanswered, L.Busy;
      ghost var cfg, m := loop.sched.cfg, core.m;
      pumps, raised, lost := 0, false, 0;
      SteadyLoop(cfg, m, View());
      while !raised && (loop.sched.waiting != [] || loop.sched.running != [] || loop.queue != [])
        invariant Valid() && L.LoopInv(cfg, loop.View()) && loop.frames.Keys == old(loop.frames).Keys
        invariant (lost == 0 ==> Ready()) && (lost > 0 ==> raised)
        invariant !raised ==> AlignedQueue(core.View().c, loop.queue)
        invariant pumps + L.Work(loop.View()) <= L.Work(old(loop.View()))
        invariant raised ==> Exhausted(core.View().c)
        invariant RaisedDrains.Wired(old(loop.View())) ==>
          RaisedDrains.Wired(loop.View()) && (raised ==> exists id :: RaisedDrains.Unanswered(loop.View(), id))
        decreases L.Work(loop.View())
      {
        ghost var w := View();
        ghost var hits := Hits(w.e.c, w.l.queue);
        BusyNow(w.l);
        ghost var o;
        var worked;
        worked, raised, lost, o := PumpOnce(seeds, every(pumps));
        PumpEffect(cfg, w.l, loop.burst, hits, o);
        if lost == 0 {
          NothingQueued(cfg, m, View());
        }
        pumps := pumps + 1;
      }
      if !raised {
        IdleNow(loop.View());
        forall rid | rid in loop.frames
          ensures L.Closed(loop.frames[rid])
        {
          Draining.IdleIsClosed(cfg, loop.View(), rid);
        }
      }
    }
  }

  lemma FreshPool(poolTokens: nat, blockSize: nat, z: Row, e: State)
    requires blockSize > 0 && e.seqs == map[]
    requires e.c == Cache(blockSize, z, map[], [], 0, e.c.kv, map[[] := Node(0, [], None)], [[]])
    requires forall b :: 0 <= b < |e.c.kv| ==> e.c.kv[b] == seq(blockSize, _ => z)
    requires |e.c.kv| == if poolTokens == 0 then 1 else Pages(poolTokens, blockSize)
    ensures Fresh(e)
  {
    if poolTokens > 0 {
      PagesPositive(poolTokens, blockSize);
    }
  }

  lemma NewIsSteady(cfg: S.Config, m: Model, w: Whole)
    requires Start(w)
    ensures Steady(cfg, m, w)
  {
    hide Fine, L.LoopInv;
    StartIsFine(cfg, m, w);
    Draining.EmptyOk(cfg);
  }

  /** What the admission of the queue's head does to the engine. */
  lemma NextIsNew(cfg: S.Config, m: Model, w: Whole, seed: nat)
    requires Steady(cfg, m, w) && w.l.queue != []
    ensures var it, w' := w.l.queue[0], Act1(cfg, m, w, AdmitNext(seed));
      var hit := HitLength(Lookup(w.e.c, it.prompt));
      var l1 := w.l.(queue := w.l.queue[1..]);
      if it.rid in w.l.cancelled || !S.Accepts(cfg, w.l.s, |it.prompt|) then
        w'.e == w.e && forall h: nat :: L.AdmitOne(cfg, l1, it, h) == L.AdmitOne(cfg, l1, it, hit)
      else
        && w.l.s.nextId !in w.e.seqs && w'.e == DoAdmit(w.e, w.l.s.nextId, it.prompt, seed)
        && w.l.s.nextId in w'.e.seqs && w'.e.seqs[w.l.s.nextId].cached == hit
  {
    hide Served, S.Inv, Answers, L.Emit, S.DoAdd, Lookup, S.Accepts, Agreed, L.LoopInv, Settled, Even;
    var it := w.l.queue[0];
    ServedInv(cfg, m, AsServer(w));
    if it.rid !in w.l.cancelled && S.Accepts(cfg, w.l.s, |it.prompt|) {
      AddSched(cfg, w.l.s, it.rid, |it.prompt|, 0);
      AddFrame(m, w.e, w.l.s.nextId, it.prompt, seed);
    }
  }

  lemma MemberLive(w: Whole, ids: seq<nat>, i: nat)
    requires Halfway(w, ids, i) && i < |ids|
    ensures ids[i] in w.e.seqs && !w.e.seqs[ids[i]].finished
  {
  }

  lemma MemberToken(w: Whole, ids: seq<nat>, i: nat, first: nat -> Token)
    requires Sampled(w, ids, i, first) && i < |ids|
    ensures ids[i] in w.e.seqs && w.e.seqs[ids[i]].pending == Some(first(ids[i]))
  {
  }

  lemma SameWhole(a: Whole, b: Whole, w: Whole)
    requires a.l == b.l && a.e == b.e && a.batch == w.batch && b.batch == w.batch
    ensures a == b
  {
  }

  /** What the loop finds after the burst of its lone member. */
  lemma BurstShape(w: Whole, w1: Whole, w2: Whole, id: nat, tok: Token, toks: seq<Token>)
    requires Even(w) && id in w.e.seqs && id in w.l.gen && w1.l == w.l && w2.l == w.l
    requires w1.e.seqs.Keys == w.e.seqs.Keys && w1.e.seqs[id].output == w.e.seqs[id].output + [tok]
    requires forall j :: j in w.e.seqs && j != id ==> w1.e.seqs[j] == w.e.seqs[j]
    requires w2.e.seqs.Keys == w1.e.seqs.Keys && w2.e.seqs[id].output == w1.e.seqs[id].output + toks
    requires forall j :: j in w1.e.seqs && j != id ==> w2.e.seqs[j] == w1.e.seqs[j]
    requires !w1.e.seqs[id].finished && Bursting(w2.e, id)
    ensures Told1(w2, id, [tok] + toks)
  {
    BurstNews(w, w2, id, tok, toks);
  }

  lemma LoseCache(e: State, id: nat, k: nat)
    requires id in e.seqs
    ensures DoLose(e, id, k).c == e.c
  {
  }

  // ---------------------------------------------------------------- lemmas of the pump

  lemma BatchableIs(e: State, ids: seq<nat>, pre: seq<bool>)
    requires Batchable(e, ids, pre)
    ensures |pre| == |ids| && NoDup(ids) && forall i :: 0 <= i < |ids| ==> ids[i] in e.seqs
  {
  }

  lemma EvenSame(w: Whole, w': Whole)
    requires Even(w) && SameMembers(w.e, w'.e) && w'.l.gen == w.l.gen
    ensures Even(w')
  {
  }

  /** After the runner, whether it failed or not. */
  lemma RunnerFine(cfg: S.Config, m: Model, w1: Whole, w2: Whole, w3: Whole, steps: seq<Step>)
    requires Fine(cfg, m, w2) && Even(w2) && w2.e == w1.e && w3.l == w2.l && w3.batch == w2.batch
    requires w3.e == Run(m, w1.e, steps) && Within(steps, w2.batch) && SameMembers(w1.e, w3.e)
    requires forall i :: 0 <= i < |w2.batch| ==> w2.batch[i] in w1.e.seqs && !w1.e.seqs[w2.batch[i]].finished
    ensures Fine(cfg, m, w3) && Even(w3) && Halfway(w3, w2.batch, 0)
  {
    hide Fine, Even, Run, Within;
    RunFine(cfg, m, w2, steps);
    assert w2.(e := w3.e) == w3;
    EvenSame(w2, w3);
  }

  lemma RunnerSampled(m: Model, w1: Whole, w3: Whole, ids: seq<nat>, results: seq<Option<Token>>)
    requires SameMembers(w1.e, w3.e) && AllPending(w3.e, ids, results)
    requires forall i :: 0 <= i < |ids| ==> ids[i] in w1.e.seqs && !w1.e.seqs[ids[i]].finished
    requires forall i :: 0 <= i < |ids| ==> results[i] == Some(Expected(m, w1.e.seqs[ids[i]]))
    ensures Sampled(w3, ids, 0, Firsts(m, w1.e))
  {
    hide Expected;
  }

  lemma LoneBatch(w: Whole, ids: seq<nat>, first: nat -> Token)
    requires |ids| == 1 && Halfway(w, ids, 0) && Sampled(w, ids, 0, first)
    ensures ids == [ids[0]] && ids[0] in w.e.seqs && !w.e.seqs[ids[0]].finished
    ensures w.e.seqs[ids[0]].pending == Some(first(ids[0]))
  {
  }

  lemma BurstStartIs(cfg: S.Config, m: Model, w1: Whole, e3: State, steps: seq<Step>)
    requires var b := S.FormBatch(cfg, w1.l.s);
      && b.ids != [] && e3 == Run(m, w1.e, steps)
      && Followed(true, e3, [], steps, BatchPlan(w1.e, b.ids, S.Flags(w1.l.s.table, b)))
    ensures BurstStart(cfg, m, w1) == Apply(m, e3, Deliver(S.FormBatch(cfg, w1.l.s).ids[0]))
  {
    hide Run, BatchPlan, S.FormBatch, S.Flags, Apply;
    var b := S.FormBatch(cfg, w1.l.s);
    assert [] + BatchPlan(w1.e, b.ids, S.Flags(w1.l.s.table, b)) == BatchPlan(w1.e, b.ids, S.Flags(w1.l.s.table, b));
  }

  lemma ExtraIs(cfg: S.Config, m: Model, w1: Whole, w3: Whole, extra: nat, burst: nat)
    requires w3.l.gen == w1.l.gen
    requires var b := S.FormBatch(cfg, w1.l.s);
      |S.Flags(w1.l.s.table, b)| == |b.ids| && extra == ExtraOf(w3.l, b.ids, S.Flags(w1.l.s.table, b), burst)
    ensures var b := S.FormBatch(cfg, w1.l.s);
      extra == L.Extra(w1.l, b, burst) && (extra > 0 ==> |b.ids| == 1 && b.ids[0] in w1.l.gen)
  {
    hide S.FormBatch, S.Flags;
  }

  lemma BurstFailsIs(cfg: S.Config, m: Model, w: Whole, burst: nat, every: bool)
    requires var b := S.FormBatch(cfg, w.l.s); b.ids != [] && b.ids[0] in w.l.gen
    ensures var b := S.FormBatch(cfg, w.l.s);
      var n, brk, e := L.Extra(w.l, b, burst), BreakOf(w.l.gen[b.ids[0]].params, every), BurstStart(cfg, m, w);
      BurstFails(cfg, m, w, burst, every) <==> exists k: nat :: k < n && MeetsWall(m, e, b.ids[0], every, brk, k)
  {
    hide S.FormBatch, L.Extra, BurstStart, MeetsWall;
  }

  /** With pages for the whole request the pump returns. */
  lemma CoveredPumpReturns(cfg: S.Config, m: Model, w: Whole, burst: nat, every: bool, id: nat)
    requires S.FormBatch(cfg, w.l.s).ids == [id] && id in w.l.gen && BurstStart(cfg, m, w).c.bs > 0
    requires Balanced(BurstStart(cfg, m, w)) && Bursting(BurstStart(cfg, m, w), id)
    requires var e, limit := BurstStart(cfg, m, w), w.l.gen[id].params.maxTokens;
      && InStep(e.seqs[id]) && |e.seqs[id].output| + L.Extra(w.l, S.FormBatch(cfg, w.l.s), burst) <= limit
      && Spare(e.c) + Pages(e.seqs[id].cached, e.c.bs) >= Pages(|e.seqs[id].prompt| + limit, e.c.bs) + Due(e, id, every)
    ensures !BurstFails(cfg, m, w, burst, every)
  {
    hide S.FormBatch, L.Extra, BurstStart, MeetsWall, Balanced, Bursting, Spare, Due, Pages;
    var n, brk := L.Extra(w.l, S.FormBatch(cfg, w.l.s), burst), BreakOf(w.l.gen[id].params, every);
    CoveredNeverRaises(m, BurstStart(cfg, m, w), id, every, n, brk, w.l.gen[id].params.maxTokens);
    BurstFailsIs(cfg, m, w, burst, every);
  }

  lemma StarvesHere(m: Model, e: State, e3: State, steps: seq<Step>, plan: seq<Step>)
    requires e3 == Run(m, e, steps) && Followed(false, e3, [], steps, plan)
    ensures PlanStarves(m, e, plan)
  {
    hide Run, Starved;
    assert [] + plan == plan;
    assert plan[..|steps|] == steps;
  }

  lemma PumpNothing(cfg: S.Config, l: L.State, burst: nat)
    requires S.FormBatch(cfg, l.s).ids == []
    ensures L.PumpBatch(cfg, l, burst, L.Crash) == l.(s := S.DoStep(cfg, l.s))
  {
    hide S.FormBatch, S.DoStep;
  }

  lemma PumpFails(cfg: S.Config, l: L.State, burst: nat)
    requires S.FormBatch(cfg, l.s).ids != []
    ensures L.PumpBatch(cfg, l, burst, L.Crash) == L.FailAll(l.(s := S.DoStep(cfg, l.s)), S.FormBatch(cfg, l.s).ids)
    ensures !RaisesNow(cfg, l, burst, L.Crash)
  {
    hide S.FormBatch, S.DoStep, L.FailAll;
  }

  lemma PumpGoes(cfg: S.Config, l: L.State, burst: nat, o: L.Outcome, first: nat -> Token, more: seq<Token>)
    requires S.FormBatch(cfg, l.s).ids != [] && (o == L.Raised(first, more) || o == L.Tokens(first, more))
    requires var n := L.Extra(l, S.FormBatch(cfg, l.s), burst);
      if o.Raised? then |more| < n else |more| <= n
    ensures var ids, l1 := S.FormBatch(cfg, l.s).ids, l.(s := S.DoStep(cfg, l.s));
      L.PumpBatch(cfg, l, burst, o) ==
        if L.Extra(l, S.FormBatch(cfg, l.s), burst) == 0 then L.DeliverAll(l1, ids, first)
        else if o.Raised? then L.KeepOne(l1, ids[0], [first(ids[0])] + more)
        else L.DeliverOne(l1, ids[0], [first(ids[0])] + more)
    ensures RaisesNow(cfg, l, burst, o) <==> o.Raised?
  {
    hide S.FormBatch, S.DoStep, L.DeliverAll, L.DeliverOne, L.KeepOne, L.Extra;
    assert more[..|more|] == more;
  }

  lemma NobodyWaits(w: Whole, first: nat -> Token)
    ensures Halfway(w, [], 0) && Sampled(w, [], 0, first)
  {
  }

  lemma LoneDone(w: Whole, ids: seq<nat>)
    requires |ids| == 1 && Square(w, ids[0])
    ensures Halfway(w, ids, |ids|)
  {
    hide Square;
  }

  lemma BatchSettled(cfg: S.Config, m: Model, w: Whole, ids: seq<nat>)
    requires Fine(cfg, m, w) && Even(w) && L.LoopInv(cfg, w.l) && w.batch == ids
    requires Halfway(w, ids, |ids|)
    ensures Steady(cfg, m, w)
  {
    hide Fine, L.LoopInv, Even, Square, Settled;
    forall i | 0 <= i < |ids|
      ensures Square(w, ids[i])
    {
    }
    SettledByBatch(cfg, m, w);
  }

  /** What a cancel and a timeout may change in the loop. */
  lemma CancelOnly(l: L.State, rid: nat)
    ensures var l' := L.DoCancelReq(l, rid);
      l' == l.(s := S.DoCancel(l.s, rid), cancelled := l'.cancelled, frames := l'.frames, open := l'.open)
    ensures var l' := L.DoTimeout(l, rid);
      l' == l.(s := S.DoCancel(l.s, rid), cancelled := l'.cancelled, frames := l'.frames, open := l'.open)
  {
    hide S.DoCancel;
  }

  lemma SteadyLoop(cfg: S.Config, m: Model, w: Whole)
    requires Steady(cfg, m, w)
    ensures L.LoopInv(cfg, w.l)
  {
    hide Fine, L.LoopInv;
  }

  lemma NothingQueued(cfg: S.Config, m: Model, w: Whole)
    requires Steady(cfg, m, w) && w.l.queue == []
    ensures AlignedQueue(w.e.c, w.l.queue)
  {
    hide Fine, L.LoopInv;
    FineBlock(cfg, m, w);
  }

  lemma BusyNow(l: L.State)
    ensures L.Busy(l) <==> l.s.waiting != [] || l.s.running != [] || l.queue != []
  {
  }

  lemma IdleNow(l: L.State)
    requires l.s.waiting == [] && l.s.running == [] && l.queue == []
    ensures !L.Busy(l)
  {
  }

  /** What one pump of the loop machine does to the work left and to open queues. */
  lemma PumpEffect(cfg: S.Config, l: L.State, burst: nat, hits: nat -> nat, o: L.Outcome)
    requires L.LoopInv(cfg, l) && L.Busy(l) && cfg.maxBatch >= 1 && cfg.maxTokens >= 1
    ensures var l' := L.DoPump(cfg, l, burst, hits, o);
      && L.Work(l') < L.Work(l) && l'.frames.Keys == l.frames.Keys
      && (RaisedDrains.Wired(l) ==> RaisedDrains.Wired(l'))
      && (RaisedDrains.Wired(l) && L.Raises(cfg, l, burst, hits, o) ==> exists id :: RaisedDrains.Unanswered(l', id))
  {
    hide L.LoopInv, L.DoPump, L.Work, L.Busy, L.Raises, RaisedDrains.Wired, RaisedDrains.Unanswered;
    Draining.PumpLowersWork(cfg, l, burst, hits, o);
    Draining.PumpKeepsFrames(cfg, l, Draining.Input(burst, hits, o));
    if RaisedDrains.Wired(l) {
      RaisedDrains.PumpWired(cfg, l, burst, hits, o);
      if L.Raises(cfg, l, burst, hits, o) {
        var id := RaisedDrains.RaiseLeavesOpen(cfg, l, burst, hits, o);
      }
    }
  }
}
