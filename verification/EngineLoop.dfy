/**
 Scheduler and EngineLoop, updated in place.  Each method is proved against the value machine of
 Scheduling and Loop; PumpUntilIdle carries the termination measure of Draining and stops at a
 pump that raises.
 */
module EngineLoopImpl {
  import opened Prelude
  import opened Scheduling
  import opened Limits
  import opened StopRules
  import opened Loop
  import opened LoopSafety
  import opened Draining
  import opened RaisedDrains

  class Scheduler {
    const cfg: Config
    var table: map<nat, Req>
    var waiting: seq<nat>
    var running: seq<nat>
    var nextId: nat
    var byRid: map<nat, nat>
    ghost var started: seq<nat>

    ghost function View(): Sched
      reads this
    {
      Sched(table, waiting, running, nextId, byRid, started)
    }

    constructor (cfg: Config)
      ensures View() == Idle && this.cfg == cfg
    {
      this.cfg := cfg;
      table, waiting, running, nextId, byRid, started := map[], [], [], 1, map[], [];
    }

    /** Decodes of running requests first, then the queue while the token budget lasts. */
    method FormBatch() returns (ids: seq<nat>, pre: seq<bool>)
      modifies this`waiting
      ensures var b := Scheduling.FormBatch(cfg, old(View()));
        View() == old(View()).(waiting := b.waiting) && ids == b.ids && pre == Flags(table, b)
    {
      hide Live, Remaining, Cost, Flags, PickRunning, PickWaiting;
      ghost var b0 := Batch([], 0, waiting, cfg.maxTokens);
      NoFlags(table, b0);
      ids, pre := [], [];
      var budget := cfg.maxTokens;
      var decodes := 0;
      var i := 0;
      while i < |running| && |ids| < cfg.maxBatch && budget > 0
        invariant 0 <= i <= |running| && decodes == |ids| && waiting == old(waiting)
        invariant pre == Flags(table, Batch(ids, decodes, waiting, budget))
        invariant PickRunning(cfg, table, running[i..], Batch(ids, decodes, waiting, budget))
               == PickRunning(cfg, table, running, b0)
      {
        var id := running[i];
        ghost var b := Batch(ids, decodes, waiting, budget);
        RunningNext(cfg, table, running, i, b);
        DecodeFlag(table, b, id, budget - 1);
        if Live(table, id) {
          ids, pre, budget, decodes := ids + [id], pre + [false], budget - 1, decodes + 1;
        }
        i := i + 1;
      }
      RunningDone(cfg, table, running[i..], Batch(ids, decodes, waiting, budget));
      while waiting != [] && |ids| < cfg.maxBatch && budget > 0
        invariant decodes <= |ids|
        invariant pre == Flags(table, Batch(ids, decodes, waiting, budget))
        invariant PickWaiting(cfg, table, Batch(ids, decodes, waiting, budget))
               == PickWaiting(cfg, table, PickRunning(cfg, table, running, b0))
        decreases |waiting|
      {
        var id := waiting[0];
        ghost var b := Batch(ids, decodes, waiting, budget);
        WaitingNext(cfg, table, b);
        if !Live(table, id) {
          SameFlags(table, b, waiting[1..]);
          waiting := waiting[1..];
        } else {
          LiveIsKnown(table, id);
          CostIs(table[id]);
          var remaining := Remaining(table[id]);
          var cost := if remaining > 0 then (if remaining > 1 then remaining else 1) else 1;
          if cost > budget && ids != [] {
            break;
          }
          waiting := waiting[1..];
          ids, pre := ids + [id], pre + [remaining > 0];
          budget := budget - if cost < budget then cost else budget;
          WaitingFlag(table, b, id, waiting, budget);
        }
      }
      if waiting == [] || |ids| >= cfg.maxBatch || budget <= 0 {
        WaitingDone(cfg, table, Batch(ids, decodes, waiting, budget));
      }
    }

    /** Forms the batch and merges its newcomers into the running list. */
    method Step() returns (ids: seq<nat>, pre: seq<bool>)
      modifies this
      ensures var b := Scheduling.FormBatch(cfg, old(View()));
        View() == DoStep(cfg, old(View())) && ids == b.ids && pre == Flags(table, b)
    {
      hide Scheduling.FormBatch, Flags;
      ghost var s0 := View();
      ids, pre := FormBatch();
      ghost var fresh' := Newcomers(s0, ids);
      var i := 0;
      var before := running;
      while i < |ids|
        invariant 0 <= i <= |ids| && table == old(table) && View() == s0.(waiting := waiting, running := running)
        invariant waiting == Scheduling.FormBatch(cfg, s0).waiting
        invariant running + Newcomers(s0, ids[i..]) == before + fresh'
      {
        if ids[i] !in before && ids[i] in table && !table[ids[i]].finished {
          running := running + [ids[i]];
        }
        i := i + 1;
      }
      assert ids[|ids|..] == [] && Newcomers(s0, []) == [];
      assert running == before + fresh';
      running := Filter(table, running);
      started := started + fresh';
    }

    method AddRequest(rid: nat, prompt: nat, hit: nat) returns (ok: bool, id: nat)
      modifies this
      ensures ok == Accepts(cfg, old(View()), prompt) && id == old(nextId)
      ensures View() == DoAdd(cfg, old(View()), rid, prompt, hit)
    {
      id := nextId;
      if |waiting| >= cfg.maxWaiting || prompt > cfg.maxPrompt {
        return false, id;
      }
      table := table[id := Req(rid, prompt, hit, false, false)];
      nextId := nextId + 1;
      waiting := waiting + [id];
      byRid := byRid[rid := id];
      ok := true;
    }

    method MarkFinished(id: nat)
      modifies this
      ensures View() == DoFinish(old(View()), id)
    {
      if id in table {
        var rid := table[id].rid;
        table := table[id := table[id].(finished := true)];
        running := Without(running, id);
        waiting := Without(waiting, id);
        byRid := byRid - {rid};
      }
    }

    method Cancel(rid: nat) returns (found: bool)
      modifies this
      ensures found == (rid in old(byRid) && old(byRid)[rid] in old(table))
      ensures View() == DoCancel(old(View()), rid)
    {
      found := rid in byRid && byRid[rid] in table;
      if found {
        var id := byRid[rid];
        table := table[id := table[id].(cancelled := true)];
        MarkFinished(id);
      }
    }

    method Advance(id: nat, cached: nat)
      modifies this`table
      ensures View() == DoAdvance(old(View()), id, cached)
    {
      if id in table {
        table := table[id := table[id].(cached := cached)];
      }
    }
  }

  lemma NoFlags(t: map<nat, Req>, b: Batch)
    requires b.ids == []
    ensures Flags(t, b) == []
  {
  }

  lemma SameFlags(t: map<nat, Req>, b: Batch, waiting: seq<nat>)
    ensures Flags(t, b.(waiting := waiting)) == Flags(t, b)
  {
  }

  lemma DecodeFlag(t: map<nat, Req>, b: Batch, id: nat, budget: int)
    requires b.decodes == |b.ids|
    ensures Flags(t, Batch(b.ids + [id], b.decodes + 1, b.waiting, budget)) == Flags(t, b) + [false]
  {
  }

  lemma WaitingFlag(t: map<nat, Req>, b: Batch, id: nat, waiting: seq<nat>, budget: int)
    requires b.decodes <= |b.ids| && id in t
    ensures Flags(t, Batch(b.ids + [id], b.decodes, waiting, budget)) == Flags(t, b) + [Remaining(t[id]) > 0]
  {
    hide Remaining;
  }

  lemma CostIs(r: Req)
    ensures Cost(r) == if Remaining(r) > 1 then Remaining(r) else 1
  {
  }

  lemma RunningNext(cfg: Config, t: map<nat, Req>, running: seq<nat>, i: nat, b: Batch)
    requires i < |running| && |b.ids| < cfg.maxBatch && b.budget > 0
    ensures PickRunning(cfg, t, running[i..], b)
         == PickRunning(cfg, t, running[i + 1..],
              if !Live(t, running[i]) then b
              else b.(ids := b.ids + [running[i]], decodes := b.decodes + 1, budget := b.budget - 1))
  {
    hide Live;
    assert running[i..][1..] == running[i + 1..];
  }

  lemma RunningDone(cfg: Config, t: map<nat, Req>, running: seq<nat>, b: Batch)
    requires running == [] || |b.ids| >= cfg.maxBatch || b.budget <= 0
    ensures PickRunning(cfg, t, running, b) == b
  {
  }

  lemma WaitingNext(cfg: Config, t: map<nat, Req>, b: Batch)
    requires b.waiting != [] && |b.ids| < cfg.maxBatch && b.budget > 0
    ensures var id := b.waiting[0];
      PickWaiting(cfg, t, b) ==
        if !Live(t, id) then PickWaiting(cfg, t, b.(waiting := b.waiting[1..]))
        else if Cost(t[id]) > b.budget && b.ids != [] then b
        else PickWaiting(cfg, t, Batch(b.ids + [id], b.decodes, b.waiting[1..],
                                       b.budget - if Cost(t[id]) < b.budget then Cost(t[id]) else b.budget))
  {
    hide Cost;
  }

  lemma WaitingDone(cfg: Config, t: map<nat, Req>, b: Batch)
    requires b.waiting == [] || |b.ids| >= cfg.maxBatch || b.budget <= 0
    ensures PickWaiting(cfg, t, b) == b
  {
  }

  lemma LiveIsKnown(t: map<nat, Req>, id: nat)
    requires Live(t, id)
    ensures id in t
  {
  }

  class EngineLoop {
    const sched: Scheduler
    const burst: nat
    var gen: map<nat, Gen>
    var queue: seq<Pending>
    var cancelled: set<nat>
    var open: set<nat>
    var frames: map<nat, seq<Frame>>
    var draining: bool

    ghost function View(): State
      reads this, sched
    {
      State(sched.View(), gen, queue, cancelled, open, frames, draining)
    }

    ghost predicate Valid()
      reads this, sched
    {
      LoopInv(sched.cfg, View())
    }

    constructor (cfg: Config, burst: nat)
      ensures Valid() && fresh(sched) && View() == Empty && sched.cfg == cfg && this.burst == burst
    {
      this.burst := burst;
      sched := new Scheduler(cfg);
      gen, queue, cancelled, open, frames, draining := map[], [], {}, {}, map[], false;
      new;
      EmptyOk(cfg);
    }

    method Submit(rid: nat, prompt: seq<Token>, p: Params) returns (ok: bool)
      requires Valid() && FreshId(View(), rid)
      modifies this
      ensures Valid() && View() == DoSubmit(old(View()), rid, prompt, p)
      ensures ok == Admissible(old(View()), prompt, p)
    {
      hide LoopInv;
      SubmitKeeps(sched.cfg, View(), rid, prompt, p);
      if draining || p.maxTokens == 0 || prompt == [] {
        return false;
      }
      open := open + {rid};
      frames := frames[rid := []];
      queue := queue + [Pending(rid, prompt, p)];
      ok := true;
    }

    method BeginDrain()
      requires Valid()
      modifies this`draining
      ensures Valid() && View() == DoDrain(old(View()))
    {
      hide LoopInv;
      DrainKeeps(sched.cfg, View());
      draining := true;
    }

    method Send(rid: nat, f: Frame)
      modifies this`open, this`frames
      ensures View() == Emit(old(View()), rid, f)
    {
      if rid in open && rid in frames {
        frames := frames[rid := frames[rid] + [f]];
        if f.Final? {
          open := open - {rid};
        }
      }
    }

    method Cancel(rid: nat)
      requires Valid()
      modifies this, sched
      ensures Valid() && View() == DoCancelReq(old(View()), rid)
    {
      hide LoopInv, Emit, DoCancel;
      CancelReqKeeps(sched.cfg, View(), rid);
      cancelled := cancelled + {rid};
      var found := sched.Cancel(rid);
      Send(rid, Final(Cancelled, []));
    }

    method Expire(rid: nat)
      requires Valid()
      modifies this, sched
      ensures Valid() && View() == DoTimeout(old(View()), rid)
    {
      hide LoopInv, Emit, DoCancel;
      TimeoutKeeps(sched.cfg, View(), rid);
      var found := sched.Cancel(rid);
      Send(rid, Final(TimedOut, []));
    }

    /** Empties the submission queue into the scheduler. */
    method AdmitPending(hits: nat -> nat)
      requires Valid()
      modifies this, sched
      ensures Valid() && View() == AdmitAll(sched.cfg, old(View()), hits)
    {
      hide LoopInv, Emit, DoAdd, Accepts, AdmitOne;
      AdmitAllKeeps(sched.cfg, View(), hits);
      while queue != []
        invariant AdmitAll(sched.cfg, View(), hits) == AdmitAll(sched.cfg, old(View()), hits)
        decreases |queue|
      {
        ghost var l := View();
        var it := queue[0];
        queue := queue[1..];
        ghost var l1 := View();
        assert l1 == l.(queue := l.queue[1..]);
        AdmitItem(it, hits(it.rid));
        AdmitScope(sched.cfg, l1, it, hits(it.rid));
        assert View() == AdmitOne(sched.cfg, l1, it, hits(it.rid)).(queue := l.queue[1..]);
      }
    }

    method AdmitItem(it: Pending, hit: nat)
      modifies this, sched
      ensures View() == AdmitOne(sched.cfg, old(View()), it, hit)
    {
      if it.rid in cancelled {
        cancelled := cancelled - {it.rid};
        return;
      }
      var ok, id := sched.AddRequest(it.rid, |it.prompt|, hit);
      if ok {
        gen := gen[id := Gen(it.rid, it.prompt, it.params, [])];
      } else {
        Send(it.rid, Final(Failed, []));
      }
    }

    /** Stop rules over the tokens of one batch member, then its frame. */
    method Deliver(id: nat, toks: seq<Token>)
      modifies this, sched
      ensures View() == DeliverOne(old(View()), id, toks)
    {
      hide Emit, DoFinish, Judge;
      if id !in gen || id !in sched.table || sched.table[id].finished {
        return;
      }
      var g := gen[id];
      if g.rid in cancelled {
        sched.MarkFinished(id);
        Send(g.rid, Final(Cancelled, []));
        return;
      }
      var out := g.output + toks;
      sched.Advance(id, |g.prompt| + |out|);
      ghost var l1 := View();
      var v: Verdict := Go;
      var i := 0;
      while i < |toks| && v.Go?
        invariant 0 <= i <= |toks| && View() == l1
        invariant v.Go? ==> JudgeAll(g.params, out, toks[i..]) == JudgeAll(g.params, out, toks)
        invariant v.Stop? ==> v == JudgeAll(g.params, out, toks)
      {
        assert toks[i..][0] == toks[i] && toks[i..][1..] == toks[i + 1..];
        v := ApplyStops(g.params, out, toks[i]);
        if v.Go? && !g.params.ignoreEos && g.params.eos == Some(toks[i]) {
          v := Stop(Stopped, out);
        }
        i := i + 1;
      }
      match v {
        case Go =>
          gen := gen[id := g.(output := out)];
          Send(g.rid, Delta(toks));
        case Stop(r, o) =>
          sched.MarkFinished(id);
          gen := gen[id := g.(output := o)];
          Send(g.rid, Final(r, o));
      }
    }

    /** One scheduler step; `o` is what the runner makes of the batch.  A failing burst raises. */
    method PumpOnce(hits: nat -> nat, o: Outcome) returns (worked: bool, raised: bool)
      requires Valid()
      modifies this, sched
      ensures Valid() && View() == DoPump(sched.cfg, old(View()), burst, hits, o)
      ensures raised <==> Raises(sched.cfg, old(View()), burst, hits, o)
      ensures !worked ==> Scheduling.FormBatch(sched.cfg, AdmitAll(sched.cfg, old(View()), hits).s).ids == []
    {
      hide LoopInv, AdmitAll, DeliverAll, FailAll, KeepOne, DeliverOne, Scheduling.FormBatch, DoStep, Flags;
      PumpKeeps(sched.cfg, View(), burst, hits, o);
      AdmitPending(hits);
      ghost var l := View();
      ghost var b := Scheduling.FormBatch(sched.cfg, sched.View());
      var ids, pre := sched.Step();
      ghost var l1 := View();
      FlagsOfStep(sched.cfg, l.s);
      FlagsSize(l.s.table, b);
      worked, raised := ids != [], false;
      if ids == [] {
        return;
      }
      if o.Crash? {
        FailBatch(ids);
        return;
      }
      if burst > 1 && |ids| == 1 && !pre[0] && ids[0] in gen {
        var g := gen[ids[0]];
        var left: nat := if g.params.maxTokens > |g.output| then g.params.maxTokens - |g.output| - 1 else 0;
        var extra := if left < burst - 1 then left else burst - 1;
        assert extra == Extra(l, b, burst);
        if extra > 0 {
          if o.Raised? {
            Keep(ids[0], [o.first(ids[0])] + if extra - 1 <= |o.kept| then o.kept[..extra - 1] else o.kept);
            raised := true;
          } else {
            Deliver(ids[0], [o.first(ids[0])] + if extra <= |o.more| then o.more[..extra] else o.more);
          }
          return;
        }
      }
      DeliverBatch(ids, o.first);
    }

    method FailBatch(ids: seq<nat>)
      modifies this, sched
      ensures View() == FailAll(old(View()), ids)
    {
      hide FailOne;
      var i := 0;
      while i < |ids|
        invariant 0 <= i <= |ids| && FailAll(View(), ids[i..]) == FailAll(old(View()), ids)
      {
        Fail(ids[i]);
        i := i + 1;
      }
    }

    method DeliverBatch(ids: seq<nat>, first: nat -> Token)
      modifies this, sched
      ensures View() == DeliverAll(old(View()), ids, first)
    {
      hide DeliverOne;
      var i := 0;
      while i < |ids|
        invariant 0 <= i <= |ids| && DeliverAll(View(), ids[i..], first) == DeliverAll(old(View()), ids, first)
      {
        Deliver(ids[i], [first(ids[i])]);
        i := i + 1;
      }
    }

    /** Tokens of a burst that raised: appended, not reported. */
    method Keep(id: nat, toks: seq<Token>)
      modifies this, sched
      ensures View() == KeepOne(old(View()), id, toks)
    {
      if id !in gen || id !in sched.table || sched.table[id].finished {
        return;
      }
      var g := gen[id];
      var out := g.output + toks;
      sched.Advance(id, |g.prompt| + |out|);
      gen := gen[id := g.(output := out)];
    }

    method Fail(id: nat)
      modifies this, sched
      ensures View() == FailOne(old(View()), id)
    {
      if id in gen && id in sched.table {
        var g := gen[id];
        sched.MarkFinished(id);
        Send(g.rid, Final(Failed, g.output));
      }
    }

    /**
     Drains everything submitted, or stops at a pump that raises; `inputs` stands for what the
     runner and the cache answer.
     */
    method PumpUntilIdle(inputs: nat -> Input) returns (pumps: nat, raised: bool)
      requires Valid() && sched.cfg.maxBatch >= 1 && sched.cfg.maxTokens >= 1
      modifies this, sched
      ensures Valid() && pumps <= Work(old(View())) && frames.Keys == old(frames.Keys)
      ensures Drained(View(), raised) == Drain(sched.cfg, old(View()), burst, inputs, 0)
      ensures !raised ==> !Busy(View()) && forall rid :: rid in frames ==> Closed(frames[rid])
      ensures raised && Wired(old(View())) ==> exists id :: Unanswered(View(), id)
    {
      hide LoopInv, DoPump, Work, Closed, Raises, Wired, Unanswered;
      pumps, raised := 0, false;
      if Wired(View()) {
        DrainAnswersExactly(sched.cfg, View(), burst, inputs, 0);
      }
      while !raised && (sched.waiting != [] || sched.running != [] || queue != [])
        invariant Valid() && pumps + Work(View()) <= Work(old(View())) && frames.Keys == old(frames.Keys)
        invariant Drain(sched.cfg, old(View()), burst, inputs, 0)
               == if raised then Drained(View(), true) else Drain(sched.cfg, View(), burst, inputs, pumps)
        decreases Work(View())
      {
        var i := inputs(pumps);
        PumpLowersWork(sched.cfg, View(), burst, i.hits, i.outcome);
        PumpKeepsFrames(sched.cfg, View(), Input(burst, i.hits, i.outcome));
        var worked: bool;
        worked, raised := PumpOnce(i.hits, i.outcome);
        pumps := pumps + 1;
      }
      if !raised {
        forall rid | rid in frames
          ensures Closed(frames[rid])
        {
          IdleIsClosed(sched.cfg, View(), rid);
        }
      }
    }
  }

  lemma AdmitScope(cfg: Config, l: State, it: Pending, hit: nat)
    ensures AdmitOne(cfg, l, it, hit).queue == l.queue
  {
  }

  /** The step itself does not change what counts as a prefill. */
  lemma FlagsOfStep(cfg: Config, s: Sched)
    ensures DoStep(cfg, s).table == s.table
  {
  }

  lemma FlagsSize(t: map<nat, Req>, b: Batch)
    ensures |Flags(t, b)| == |b.ids|
  {
  }
}
