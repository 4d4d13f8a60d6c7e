/**
 Continuous batching: the waiting queue, the running list and token-budget batch formation as
 values, and what every run of add, step, cancel and finish keeps.
 */
module Scheduling {
  import opened Prelude

  datatype Config = Config(maxBatch: int, maxTokens: int, maxWaiting: int, maxPrompt: int)

  datatype Req = Req(rid: nat, prompt: nat, cached: nat, finished: bool, cancelled: bool)

  datatype Sched = Sched(
    table: map<nat, Req>,       // every request ever admitted, by sequence id
    waiting: seq<nat>,
    running: seq<nat>,
    nextId: nat,
    byRid: map<nat, nat>,       // live request ids
    started: seq<nat>)          // sequence ids in the order they left the queue into a batch

  datatype Batch = Batch(ids: seq<nat>, decodes: nat, waiting: seq<nat>, budget: int)

  /** Requests that still take part in batches. */
  predicate Live(t: map<nat, Req>, id: nat) {
    id in t && !t[id].finished && !t[id].cancelled
  }

  function Remaining(r: Req): nat {
    if r.prompt > r.cached then r.prompt - r.cached else 0
  }

  /** Token cost of starting a request: its remaining prompt, at least one. */
  function Cost(r: Req): (c: nat)
    ensures c >= 1
  {
    if Remaining(r) >= 1 then Remaining(r) else 1
  }

  // ---------------------------------------------------------------- batch formation

  /** Decodes first: one token of budget for each live running request. */
  function PickRunning(cfg: Config, t: map<nat, Req>, running: seq<nat>, b: Batch): Batch
    decreases |running|
  {
    if running == [] || |b.ids| >= cfg.maxBatch || b.budget <= 0 then b
    else if !Live(t, running[0]) then PickRunning(cfg, t, running[1..], b)
    else PickRunning(cfg, t, running[1..],
                     b.(ids := b.ids + [running[0]], decodes := b.decodes + 1, budget := b.budget - 1))
  }

  /** Then the queue, in order, while the budget lasts; the head is never skipped. */
  function PickWaiting(cfg: Config, t: map<nat, Req>, b: Batch): Batch
    decreases |b.waiting|
  {
    if b.waiting == [] || |b.ids| >= cfg.maxBatch || b.budget <= 0 then b
    else
      var id := b.waiting[0];
      if !Live(t, id) then PickWaiting(cfg, t, b.(waiting := b.waiting[1..]))
      else
        var cost := Cost(t[id]);
        if cost > b.budget && b.ids != [] then b
        else PickWaiting(cfg, t,
               Batch(b.ids + [id], b.decodes, b.waiting[1..],
                     b.budget - if cost < b.budget then cost else b.budget))
  }

  function FormBatch(cfg: Config, s: Sched): Batch {
    PickWaiting(cfg, s.table, PickRunning(cfg, s.table, s.running, Batch([], 0, s.waiting, cfg.maxTokens)))
  }

  /** Which members prefill: started in this batch with prompt tokens left. */
  function Flags(t: map<nat, Req>, b: Batch): (r: seq<bool>)
    ensures |r| == |b.ids|
  {
    seq(|b.ids|, i requires 0 <= i < |b.ids| => i >= b.decodes && b.ids[i] in t && Remaining(t[b.ids[i]]) > 0)
  }

  function Filter(t: map<nat, Req>, l: seq<nat>): (r: seq<nat>)
    ensures forall id :: id in r <==> id in l && id in t && !t[id].finished
    ensures |r| <= |l|
    ensures NoDup(l) ==> NoDup(r)
  {
    if l == [] then []
    else
      assert NoDup(l) ==> NoDup(l[1..]) && l[0] !in l[1..];
      if l[0] in t && !t[l[0]].finished then [l[0]] + Filter(t, l[1..]) else Filter(t, l[1..])
  }

  lemma {:induction false} WithoutIncreasing(l: seq<nat>, id: nat)
    requires Increasing(l)
    ensures Increasing(Without(l, id))
    decreases |l|
  {
    if l != [] {
      WithoutIncreasing(l[1..], id);
      var r := Without(l[1..], id);
      forall i | 0 <= i < |r|
        ensures l[0] < r[i]
      {
        assert r[i] in r;
        var j :| 0 <= j < |l[1..]| && l[1..][j] == r[i];
      }
    }
  }

  predicate Increasing(l: seq<nat>) {
    forall i, j :: 0 <= i < j < |l| ==> l[i] < l[j]
  }

  /** Batch members that were not running yet, in batch order. */
  function Newcomers(s: Sched, ids: seq<nat>): (r: seq<nat>)
    ensures forall id :: id in r <==> id in ids && id !in s.running && id in s.table && !s.table[id].finished
  {
    if ids == [] then []
    else if ids[0] !in s.running && ids[0] in s.table && !s.table[ids[0]].finished
    then [ids[0]] + Newcomers(s, ids[1..])
    else Newcomers(s, ids[1..])
  }

  // ---------------------------------------------------------------- operations

  /** One scheduler step: the batch's newcomers join the running list, in order. */
  function DoStep(cfg: Config, s: Sched): Sched {
    var b := FormBatch(cfg, s);
    var fresh' := Newcomers(s, b.ids);
    s.(waiting := b.waiting, running := Filter(s.table, s.running + fresh'), started := s.started + fresh')
  }

  predicate Accepts(cfg: Config, s: Sched, prompt: nat) {
    |s.waiting| < cfg.maxWaiting && prompt <= cfg.maxPrompt
  }

  function DoAdd(cfg: Config, s: Sched, rid: nat, prompt: nat, hit: nat): Sched {
    if !Accepts(cfg, s, prompt) then s
    else s.(table := s.table[s.nextId := Req(rid, prompt, hit, false, false)],
            waiting := s.waiting + [s.nextId], nextId := s.nextId + 1, byRid := s.byRid[rid := s.nextId])
  }

  /** mark_finished: leaves both lists and frees the request id. */
  function DoFinish(s: Sched, id: nat): Sched {
    if id !in s.table then s
    else s.(table := s.table[id := s.table[id].(finished := true)],
            running := Without(s.running, id), waiting := Without(s.waiting, id),
            byRid := s.byRid - {s.table[id].rid})
  }

  function DoCancel(s: Sched, rid: nat): Sched {
    if rid !in s.byRid || s.byRid[rid] !in s.table then s
    else
      var id := s.byRid[rid];
      DoFinish(s.(table := s.table[id := s.table[id].(cancelled := true)]), id)
  }

  /** A forward or a delivery changes how much of the prompt is cached. */
  function DoAdvance(s: Sched, id: nat, cached: nat): Sched {
    if id in s.table then s.(table := s.table[id := s.table[id].(cached := cached)]) else s
  }

  // ---------------------------------------------------------------- invariant

  /** Each admitted unfinished request is in exactly one list, once; the queue is in arrival order. */
  ghost predicate Lists(s: Sched) {
    && NoDup(s.running) && Increasing(s.waiting)
    && (forall id :: id in s.table ==> id < s.nextId)
    && (forall id :: id in s.waiting || id in s.running ==>
          id in s.table && !s.table[id].finished && !s.table[id].cancelled)
    && (forall id :: id in s.table && !s.table[id].finished ==> (id in s.waiting <==> id !in s.running))
    && (forall id :: id in s.table && s.table[id].cancelled ==> s.table[id].finished)
  }

  /** Requests start in arrival order: the start log is increasing and below the queue. */
  ghost predicate InOrder(s: Sched) {
    && Increasing(s.started)
    && (forall a, b :: a in s.started && b in s.waiting ==> a < b)
    && (forall a :: a in s.started ==> a < s.nextId)
    && (forall a :: a in s.running ==> a in s.started)
  }

  function Limit(cfg: Config): int {
    if cfg.maxBatch < cfg.maxTokens then cfg.maxBatch else cfg.maxTokens
  }

  ghost predicate Fits(cfg: Config, s: Sched) {
    s.running == [] || |s.running| <= Limit(cfg)
  }

  ghost predicate Inv(cfg: Config, s: Sched) {
    Lists(s) && InOrder(s) && Fits(cfg, s)
  }

  // ---------------------------------------------------------------- batches

  /** Token costs of starting the listed requests. */
  function SumCost(t: map<nat, Req>, ids: seq<nat>): nat {
    if ids == [] then 0
    else
      var n := |ids| - 1;
      SumCost(t, ids[..n]) + if ids[n] in t then Cost(t[ids[n]]) else 0
  }

  ghost predicate AllLive(t: map<nat, Req>, l: seq<nat>) {
    forall i :: 0 <= i < |l| ==> Live(t, l[i])
  }

  /** When every running request is live and fits, the decode part is exactly the running list. */
  lemma {:induction false} RunningPicked(cfg: Config, t: map<nat, Req>, running: seq<nat>, b: Batch)
    requires AllLive(t, running) && |b.ids| + |running| <= cfg.maxBatch && |running| <= b.budget
    ensures PickRunning(cfg, t, running, b)
         == b.(ids := b.ids + running, decodes := b.decodes + |running|, budget := b.budget - |running|)
    decreases |running|
  {
    if running == [] {
      assert b.ids + running == b.ids;
    } else {
      var b1 := b.(ids := b.ids + [running[0]], decodes := b.decodes + 1, budget := b.budget - 1);
      RunningPicked(cfg, t, running[1..], b1);
      assert b1.ids + running[1..] == b.ids + running;
    }
  }

  /** Batch `r` is batch `b` with the first `k` queued requests, and has to stop there. */
  ghost predicate Picked(cfg: Config, t: map<nat, Req>, b: Batch, r: Batch, k: nat) {
    && k <= |b.waiting| && r.waiting == b.waiting[k..] && r.ids == b.ids + b.waiting[..k]
    && r.decodes == b.decodes && 0 <= r.budget && k <= b.budget
    && (|b.ids| <= cfg.maxBatch ==> |r.ids| <= cfg.maxBatch)
    && (SumCost(t, b.waiting[..k]) + r.budget == b.budget || (b.ids == [] && k == 1 && r.budget == 0))
    && SumCost(t, b.waiting[..k]) + r.budget >= b.budget
    && (b.ids == [] && b.waiting != [] && cfg.maxBatch >= 1 && b.budget >= 1 ==> k >= 1)
    && (k == |b.waiting| || |r.ids| >= cfg.maxBatch || r.budget == 0
        || (r.ids != [] && SumCost(t, b.waiting[..k + 1]) > b.budget))
  }

  /**
   The queue part: the batch gains the first `k` waiting requests in order, the rest stays
   queued in order, each newcomer pays at least one token, and what is paid stays within the
   budget unless the batch is a single oversized prompt.  It ends only with the queue, the room,
   the budget, or a prompt that is too long for what is left of it.
   */
  lemma {:induction false} WaitingPicked(cfg: Config, t: map<nat, Req>, b: Batch) returns (k: nat)
    requires AllLive(t, b.waiting) && 0 <= b.budget
    ensures Picked(cfg, t, b, PickWaiting(cfg, t, b), k)
    decreases |b.waiting|
  {
    hide Picked, SumCost;
    k := 0;
    if b.waiting == [] || |b.ids| >= cfg.maxBatch || b.budget == 0 {
      PickedNone(cfg, t, b);
    } else {
      var id := b.waiting[0];
      var cost := Cost(t[id]);
      if cost <= b.budget || b.ids == [] {
        var paid := if cost < b.budget then cost else b.budget;
        var b1 := Batch(b.ids + [id], b.decodes, b.waiting[1..], b.budget - paid);
        var j := WaitingPicked(cfg, t, b1);
        k := j + 1;
        PickedStep(cfg, t, b, b1, PickWaiting(cfg, t, b1), j);
      } else {
        PickedNone(cfg, t, b);
      }
    }
  }

  lemma PickedNone(cfg: Config, t: map<nat, Req>, b: Batch)
    requires 0 <= b.budget && AllLive(t, b.waiting)
    requires b.waiting == [] || |b.ids| >= cfg.maxBatch || b.budget == 0
      || (b.ids != [] && Cost(t[b.waiting[0]]) > b.budget)
    ensures Picked(cfg, t, b, b, 0)
  {
    assert b.waiting[..0] == [] && b.ids + [] == b.ids;
    if b.waiting != [] {
      LoneCost(t, b.waiting);
    }
  }

  lemma PickedStep(cfg: Config, t: map<nat, Req>, b: Batch, b1: Batch, r: Batch, j: nat)
    requires b.waiting != [] && Live(t, b.waiting[0]) && |b.ids| < cfg.maxBatch && b.budget > 0
    requires Cost(t[b.waiting[0]]) <= b.budget || b.ids == []
    requires var cost := Cost(t[b.waiting[0]]);
      b1 == Batch(b.ids + [b.waiting[0]], b.decodes, b.waiting[1..],
                  b.budget - if cost < b.budget then cost else b.budget)
    requires Picked(cfg, t, b1, r, j)
    ensures Picked(cfg, t, b, r, j + 1)
  {
    hide SumCost;
    PickedMore(t, b, b1, b.waiting[0], j);
    if j < |b1.waiting| {
      PickedMore(t, b, b1, b.waiting[0], j + 1);
    }
  }

  lemma PickedMore(t: map<nat, Req>, b: Batch, b1: Batch, id: nat, j: nat)
    requires b.waiting != [] && id == b.waiting[0] && id in t && b1.waiting == b.waiting[1..] && b1.ids == b.ids + [id]
    requires j <= |b1.waiting|
    ensures b1.waiting[j..] == b.waiting[j + 1..] && b1.ids + b1.waiting[..j] == b.ids + b.waiting[..j + 1]
    ensures SumCost(t, b.waiting[..j + 1]) == Cost(t[id]) + SumCost(t, b1.waiting[..j])
  {
    assert b.waiting[..j + 1] == [id] + b1.waiting[..j];
    SumCostCons(t, id, b1.waiting[..j]);
  }

  lemma {:induction false} SumCostCons(t: map<nat, Req>, id: nat, l: seq<nat>)
    requires id in t
    ensures SumCost(t, [id] + l) == Cost(t[id]) + SumCost(t, l)
    decreases |l|
  {
    var all := [id] + l;
    if l == [] {
      assert all[..0] == [];
    } else {
      var n := |l| - 1;
      SumCostCons(t, id, l[..n]);
      assert all[..|all| - 1] == [id] + l[..n];
    }
  }

  /** Prompt tokens of the listed requests that are not cached, at least one for each. */
  function Uncached(t: map<nat, Req>, ids: seq<nat>): nat {
    if ids == [] then 0
    else
      var n := |ids| - 1;
      Uncached(t, ids[..n])
      + if ids[n] in t && t[ids[n]].prompt > t[ids[n]].cached + 1 then t[ids[n]].prompt - t[ids[n]].cached else 1
  }

  lemma {:induction false} CostIsUncached(t: map<nat, Req>, ids: seq<nat>)
    requires AllLive(t, ids)
    ensures SumCost(t, ids) == Uncached(t, ids)
    decreases |ids|
  {
    if ids != [] {
      var n := |ids| - 1;
      CostIsUncached(t, ids[..n]);
      assert Live(t, ids[n]);
    }
  }

  /**
   Shape of every batch: all running requests, then a prefix of the queue.  Nothing running is
   starved, the prompt tokens stay within the budget except for one lone oversized prompt, and
   the batch is empty only when there is no work or no capacity at all.  It is also filled: the
   next queued request is left out only for want of room, of budget, or because its prompt would
   exceed the budget of a batch that has members.
   */
  lemma BatchShape(cfg: Config, s: Sched) returns (k: nat)
    requires Inv(cfg, s)
    ensures var b := FormBatch(cfg, s);
      && k <= |s.waiting|
      && b.ids == s.running + s.waiting[..k] && b.waiting == s.waiting[k..] && b.decodes == |s.running|
      && (b.ids == [] || |b.ids| <= Limit(cfg))
      && (b.ids == [] || |s.running| + Uncached(s.table, s.waiting[..k]) <= cfg.maxTokens
          || (|b.ids| == 1 && s.running == [] && Uncached(s.table, b.ids) > cfg.maxTokens))
      && (k == |s.waiting| || |b.ids| >= cfg.maxBatch
          || |s.running| + Uncached(s.table, s.waiting[..k]) >= cfg.maxTokens
          || (b.ids != [] && |s.running| + Uncached(s.table, s.waiting[..k + 1]) > cfg.maxTokens))
      && (b.ids == [] <==> s.running == [] && (s.waiting == [] || cfg.maxBatch < 1 || cfg.maxTokens < 1))
  {
    hide InOrder, Lists, PickRunning, PickWaiting, SumCost, Uncached;
    var b0 := Batch([], 0, s.waiting, cfg.maxTokens);
    ListsLive(s);
    NoTokens(s.table);
    if s.running == [] && (cfg.maxTokens <= 0 || cfg.maxBatch <= 0) {
      k := 0;
      NoCapacity(cfg, s.table, b0);
      assert s.waiting[..0] == [];
    } else {
      RunningPicked(cfg, s.table, s.running, b0);
      var b1 := b0.(ids := s.running, decodes := |s.running|, budget := cfg.maxTokens - |s.running|);
      assert [] + s.running == s.running;
      k := WaitingPicked(cfg, s.table, b1);
      CostIsUncached(s.table, s.waiting[..k]);
      assert [] + s.waiting[..k] == s.waiting[..k];
      if k < |s.waiting| {
        CostIsUncached(s.table, s.waiting[..k + 1]);
      }
    }
  }

  /** A batch is the running list and a prefix of the queue. */
  lemma BatchIds(cfg: Config, s: Sched) returns (k: nat)
    requires Inv(cfg, s)
    ensures k <= |s.waiting| && FormBatch(cfg, s).ids == s.running + s.waiting[..k]
  {
    hide Inv, FormBatch, Uncached;
    k := BatchShape(cfg, s);
  }

  lemma NoTokens(t: map<nat, Req>)
    ensures Uncached(t, []) == 0
  {
  }

  lemma NoCapacity(cfg: Config, t: map<nat, Req>, b: Batch)
    requires cfg.maxBatch <= |b.ids| || b.budget <= 0
    ensures PickRunning(cfg, t, [], b) == b && PickWaiting(cfg, t, b) == b
  {
  }

  lemma LoneCost(t: map<nat, Req>, waiting: seq<nat>)
    requires waiting != [] && waiting[0] in t
    ensures SumCost(t, waiting[..1]) == Cost(t[waiting[0]])
  {
    assert waiting[..1] == [waiting[0]] + [];
    SumCostCons(t, waiting[0], []);
  }

  lemma ListsLive(s: Sched)
    requires Lists(s)
    ensures AllLive(s.table, s.running) && AllLive(s.table, s.waiting)
  {
    forall i | 0 <= i < |s.running|
      ensures Live(s.table, s.running[i])
    {
      assert s.running[i] in s.running;
    }
    forall i | 0 <= i < |s.waiting|
      ensures Live(s.table, s.waiting[i])
    {
      assert s.waiting[i] in s.waiting;
    }
  }

  // ---------------------------------------------------------------- preservation

  lemma {:induction false} NewcomersOf(s: Sched, l: seq<nat>, fresh': seq<nat>)
    requires forall id :: id in l ==> id in s.running
    requires forall id :: id in fresh' ==> id !in s.running && id in s.table && !s.table[id].finished
    ensures Newcomers(s, l + fresh') == fresh'
    decreases |l| + |fresh'|
  {
    var all := l + fresh';
    if l != [] {
      assert all[1..] == l[1..] + fresh' && all[0] == l[0] && l[0] in l;
      NewcomersOf(s, l[1..], fresh');
    } else if fresh' != [] {
      assert all == fresh' && fresh'[0] in fresh';
      NewcomersOf(s, [], fresh'[1..]);
      assert [] + fresh'[1..] == fresh'[1..];
    }
  }

  lemma {:induction false} FilterAll(t: map<nat, Req>, l: seq<nat>)
    requires forall id :: id in l ==> id in t && !t[id].finished
    ensures Filter(t, l) == l
    decreases |l|
  {
    if l != [] {
      assert l[0] in l;
      FilterAll(t, l[1..]);
    }
  }

  /** A step moves a prefix of the queue to the end of the running list and changes nothing else. */
  lemma StepShape(cfg: Config, s: Sched) returns (k: nat)
    requires Inv(cfg, s)
    ensures k <= |s.waiting|
    ensures DoStep(cfg, s) == s.(waiting := s.waiting[k..], running := s.running + s.waiting[..k],
                                 started := s.started + s.waiting[..k])
    ensures s.running + s.waiting[..k] == [] || |s.running| + k <= Limit(cfg)
  {
    k := BatchShape(cfg, s);
    var adm := s.waiting[..k];
    forall id | id in adm
      ensures id !in s.running && id in s.table && !s.table[id].finished
    {
      assert id in s.waiting;
    }
    NewcomersOf(s, s.running, adm);
    FilterAll(s.table, s.running + adm);
  }

  /** Cutting an increasing queue in two. */
  lemma CutQueue(l: seq<nat>, k: nat)
    requires Increasing(l) && k <= |l|
    ensures Increasing(l[..k]) && Increasing(l[k..])
    ensures forall id :: id in l <==> id in l[..k] || id in l[k..]
    ensures forall a, b :: a in l[..k] && b in l[k..] ==> a < b
  {
    assert l == l[..k] + l[k..];
    forall a, b | a in l[..k] && b in l[k..]
      ensures a < b
    {
      var i :| 0 <= i < k && l[i] == a;
      var j :| 0 <= j < |l| - k && l[k..][j] == b;
      assert l[k + j] == b;
    }
  }

  lemma NoDupJoin(a: seq<nat>, b: seq<nat>)
    requires NoDup(a) && Increasing(b) && forall x :: x in b ==> x !in a
    ensures NoDup(a + b)
  {
    var l := a + b;
    forall i, j | 0 <= i < j < |l|
      ensures l[i] != l[j]
    {
      if i < |a| <= j {
        assert l[i] in a && l[j] in b;
      }
    }
  }

  lemma IncreasingJoin(a: seq<nat>, b: seq<nat>)
    requires Increasing(a) && Increasing(b) && forall x, y :: x in a && y in b ==> x < y
    ensures Increasing(a + b)
  {
    var l := a + b;
    forall i, j | 0 <= i < j < |l|
      ensures l[i] < l[j]
    {
      if i < |a| <= j {
        assert l[i] in a && l[j] in b;
      }
    }
  }

  lemma StepKeeps(cfg: Config, s: Sched)
    requires Inv(cfg, s)
    ensures Inv(cfg, DoStep(cfg, s))
  {
    hide Increasing, NoDup, DoStep;
    var k := StepShape(cfg, s);
    var adm := s.waiting[..k];
    CutQueue(s.waiting, k);
    NoDupJoin(s.running, adm);
    IncreasingJoin(s.started, adm);
  }

  lemma AddKeeps(cfg: Config, s: Sched, rid: nat, prompt: nat, hit: nat)
    requires Inv(cfg, s)
    ensures Inv(cfg, DoAdd(cfg, s, rid, prompt, hit))
  {
    if Accepts(cfg, s, prompt) {
      var s' := DoAdd(cfg, s, rid, prompt, hit);
      var n := s.nextId;
      assert n !in s.table;
      forall i, j | 0 <= i < j < |s'.waiting|
        ensures s'.waiting[i] < s'.waiting[j]
      {
        assert s'.waiting[i] in s.waiting;
      }
    }
  }

  lemma FinishKeeps(cfg: Config, s: Sched, id: nat)
    requires Inv(cfg, s)
    ensures Inv(cfg, DoFinish(s, id))
  {
    hide Increasing, NoDup;
    WithoutIncreasing(s.waiting, id);
  }

  lemma CancelKeeps(cfg: Config, s: Sched, rid: nat)
    requires Inv(cfg, s)
    ensures Inv(cfg, DoCancel(s, rid))
  {
    if rid in s.byRid && s.byRid[rid] in s.table {
      var id := s.byRid[rid];
      FinishKeeps(cfg, s, id);
      var s1, s2 := DoFinish(s, id), DoCancel(s, rid);
      assert s2.running == s1.running && s2.waiting == s1.waiting && s2.started == s1.started;
    }
  }

  lemma AdvanceKeeps(cfg: Config, s: Sched, id: nat, cached: nat)
    requires Inv(cfg, s)
    ensures Inv(cfg, DoAdvance(s, id, cached))
  {
  }

  // ---------------------------------------------------------------- runs

  datatype Op = Add(rid: nat, prompt: nat, hit: nat) | Step | Cancel(rid: nat) | Finish(id: nat) | Advance(id: nat,
                                                                                                           cached: nat)

  function Apply(cfg: Config, s: Sched, op: Op): Sched {
    match op
    case Add(rid, prompt, hit) => DoAdd(cfg, s, rid, prompt, hit)
    case Step => DoStep(cfg, s)
    case Cancel(rid) => DoCancel(s, rid)
    case Finish(id) => DoFinish(s, id)
    case Advance(id, cached) => DoAdvance(s, id, cached)
  }

  function Run(cfg: Config, s: Sched, ops: seq<Op>): Sched
    decreases |ops|
  {
    if ops == [] then s else Apply(cfg, Run(cfg, s, ops[..|ops| - 1]), ops[|ops| - 1])
  }

  const Idle := Sched(map[], [], [], 1, map[], [])

  /** Over every run of add, step, cancel, finish and progress the scheduler invariant holds. */
  lemma {:induction false} RunKeeps(cfg: Config, ops: seq<Op>)
    ensures Inv(cfg, Run(cfg, Idle, ops))
    decreases |ops|
  {
    if ops != [] {
      hide Inv, DoStep, DoAdd, DoCancel, DoFinish, DoAdvance;
      var front := ops[..|ops| - 1];
      RunKeeps(cfg, front);
      var s := Run(cfg, Idle, front);
      match ops[|ops| - 1] {
        case Add(rid, prompt, hit) => AddKeeps(cfg, s, rid, prompt, hit);
        case Step => StepKeeps(cfg, s);
        case Cancel(rid) => CancelKeeps(cfg, s, rid);
        case Finish(id) => FinishKeeps(cfg, s, id);
        case Advance(id, cached) => AdvanceKeeps(cfg, s, id, cached);
      }
    }
  }

  /** No decode starvation: in every reachable state each running request is in the next batch. */
  lemma NoStarvation(cfg: Config, ops: seq<Op>, id: nat)
    requires id in Run(cfg, Idle, ops).running
    ensures id in FormBatch(cfg, Run(cfg, Idle, ops)).ids
  {
    hide Run, Inv, FormBatch;
    RunKeeps(cfg, ops);
    var k := BatchShape(cfg, Run(cfg, Idle, ops));
  }

  /** A busy scheduler forms a non-empty batch exactly when it has any capacity, in every reachable state. */
  lemma BusyMakesBatch(cfg: Config, ops: seq<Op>)
    ensures var s := Run(cfg, Idle, ops);
      s.waiting != [] || s.running != [] ==>
        (FormBatch(cfg, s).ids != [] <==> s.running != [] || (cfg.maxBatch >= 1 && cfg.maxTokens >= 1))
  {
    hide Run, Inv, FormBatch;
    RunKeeps(cfg, ops);
    var k := BatchShape(cfg, Run(cfg, Idle, ops));
  }
}
