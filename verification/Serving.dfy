/**
 Scheduler and engine together.  Batches come from the scheduler, the runner works on members
 of the current batch only, and it bursts only when the batch is one request.  That is enough:
 every burst starts where nobody else reads, so the outputs of every run with exact or
 page-aligned hits are the reference generations of their prompts.
 */
module Serving {
  import opened Prelude
  import opened Paging
  import opened PagePool
  import opened PrefixTree
  import opened Generation
  import opened Engine
  import opened EngineBalance
  import opened ColdBursts
  import opened EngineRuns
  import opened SharedPages
  import S = Scheduling
  import Draining
  import BatchRun

  /** `finals` records what each finished request was answered. */
  datatype Server = Server(s: S.Sched, e: State, batch: seq<nat>, finals: map<nat, seq<Token>>)

  datatype Event =
    | Add(rid: nat, prompt: seq<Token>, seed: nat)
    | Pick
    | Work(step: Step)
    | End(id: nat, keep: nat)

  function HitLength(h: Hit): nat {
    match h
    case Miss => 0
    case Hit(len, _, _) => len
  }

  /** The runner prepares, forwards, delivers, and bursts when the batch is one request. */
  predicate Allowed(batch: seq<nat>, step: Step) {
    && (step.Prepare? || step.Forward? || step.Deliver? || step.Burst?)
    && step.id in batch
    && (step.Burst? ==> |batch| == 1)
  }

  ghost function Do(cfg: S.Config, m: Model, v: Server, ev: Event): Server {
    match ev
    case Add(rid, prompt, seed) =>
      if v.e.c.bs == 0 || prompt == [] || !S.Accepts(cfg, v.s, |prompt|) then v
      else v.(s := S.DoAdd(cfg, v.s, rid, |prompt|, HitLength(Lookup(v.e.c, prompt))),
              e := Apply(m, v.e, Admit(v.s.nextId, prompt, seed)))
    case Pick => v.(s := S.DoStep(cfg, v.s), batch := S.FormBatch(cfg, v.s).ids)
    case Work(step) =>
      if !Allowed(v.batch, step) || step.id !in v.e.seqs then v
      else
        var e := Apply(m, v.e, step);
        v.(e := e, s := S.DoAdvance(v.s, step.id, if step.id in e.seqs then e.seqs[step.id].cached else 0))
    case End(id, keep) =>
      if id !in v.e.seqs || v.e.seqs[id].finished then v
      else
        var e := Apply(m, v.e, Finish(id, keep));
        v.(e := e, s := S.DoFinish(v.s, id), finals := v.finals[id := if id in e.seqs then e.seqs[id].output else []])
  }

  /** Only admissions are restricted, and only by where their hit ends. */
  ghost predicate Aligned(v: Server, ev: Event) {
    ev.Add? && v.e.c.bs > 0 ==> AlignedHit(v.e.c, ev.prompt)
  }

  ghost function Serve(cfg: S.Config, m: Model, v: Server, evs: seq<Event>): Server
    decreases |evs|
  {
    if evs == [] then v else Do(cfg, m, Serve(cfg, m, v, evs[..|evs| - 1]), evs[|evs| - 1])
  }

  ghost predicate AllAligned(cfg: S.Config, m: Model, v: Server, evs: seq<Event>) {
    forall i :: 0 <= i < |evs| ==> Aligned(Serve(cfg, m, v, evs[..i]), evs[i])
  }

  // ---------------------------------------------------------------- invariant

  /** A queued request has not run, and the scheduler knows how much of its prompt is cached. */
  ghost predicate Waits(r: S.Req, q: Seq) {
    Unrun(q) && r.cached == q.cached && r.prompt == |q.prompt|
  }

  /** Scheduler and engine know the same requests; queued ones have not run; the rest is in the batch. */
  ghost predicate Linked(v: Server) {
    && v.e.seqs.Keys == v.s.table.Keys
    && (forall id :: id in v.e.seqs ==> v.e.seqs[id].finished == v.s.table[id].finished)
    && (forall id :: id in v.s.waiting && id in v.e.seqs ==> Waits(v.s.table[id], v.e.seqs[id]))
    && (forall id :: id in v.s.running ==> id in v.batch)
    && (forall id :: id in v.batch ==> id in v.e.seqs && id !in v.s.waiting)
    && (forall id :: id in v.finals ==> id in v.e.seqs && v.e.seqs[id].finished && v.finals[id] == v.e.seqs[id].output)
  }

  ghost predicate Served(cfg: S.Config, m: Model, v: Server) {
    S.Inv(cfg, v.s) && Sound(m, v.e) && Strata(v.e) && Linked(v)
  }

  /** A burst of a lone batch is safe: everyone else that is live still waits. */
  lemma LoneBurst(cfg: S.Config, m: Model, v: Server, id: nat)
    requires Served(cfg, m, v) && v.batch == [id] && Enabled(v.e, Burst(id))
    ensures SafeStep(v.e, Burst(id))
  {
    hide Sound, Strata, Cleared;
    if !v.e.seqs[id].warm {
      forall j | j in v.e.seqs && j != id && !v.e.seqs[j].finished
        ensures Unrun(v.e.seqs[j])
      {
        assert j in v.s.table && !v.s.table[j].finished;
        assert j !in v.s.running;
      }
      FirstBurstIsClear(m, v.e, id);
    }
  }

  lemma WorkSafe(cfg: S.Config, m: Model, v: Server, step: Step)
    requires Served(cfg, m, v) && Allowed(v.batch, step) && Enabled(v.e, step)
    ensures SafeStep(v.e, step)
  {
    hide Served;
    if step.Burst? {
      assert v.batch == [step.id];
      LoneBurst(cfg, m, v, step.id);
    }
  }

  /** A runner step changes its own request only, and finishes none. */
  lemma WorkFrame(m: Model, e: State, step: Step)
    requires step.id in e.seqs && (step.Prepare? || step.Forward? || step.Deliver? || step.Burst?)
    ensures var e' := Apply(m, e, step);
      && e'.seqs.Keys == e.seqs.Keys && e'.seqs[step.id].finished == e.seqs[step.id].finished
      && (e.seqs[step.id].finished ==> e' == e)
      && forall j :: j in e.seqs && j != step.id ==> e'.seqs[j] == e.seqs[j]
  {
    hide Ensure, Allocator.Cow, Insert, Write, Flat, Extend, Covers;
  }

  /** The engine side of a runner step. */
  lemma WorkEngine(cfg: S.Config, m: Model, v: Server, step: Step)
    requires Served(cfg, m, v) && Allowed(v.batch, step) && step.id in v.e.seqs
    ensures Served(cfg, m, v.(e := Apply(m, v.e, step))) && step.id in Apply(m, v.e, step).seqs
  {
    hide Sound, Strata, Apply, S.Inv, Waits;
    WorkFrame(m, v.e, step);
    if Enabled(v.e, step) {
      WorkSafe(cfg, m, v, step);
      ApplyOk(m, v.e, step);
      ApplyStrata(m, v.e, step);
    } else {
      NotEnabled(m, v.e, step);
    }
  }

  lemma WorkKeeps(cfg: S.Config, m: Model, v: Server, step: Step)
    requires Served(cfg, m, v)
    ensures Served(cfg, m, Do(cfg, m, v, Work(step)))
  {
    hide Sound, Strata, Apply, S.Inv, Waits;
    if Allowed(v.batch, step) && step.id in v.e.seqs {
      WorkEngine(cfg, m, v, step);
      S.AdvanceKeeps(cfg, v.s, step.id, Apply(m, v.e, step).seqs[step.id].cached);
    }
  }

  lemma NotEnabled(m: Model, e: State, step: Step)
    requires !Enabled(e, step)
    ensures Apply(m, e, step) == e
  {
  }

  lemma AddFrame(m: Model, e: State, id: nat, prompt: seq<Token>, seed: nat)
    requires id !in e.seqs && prompt != [] && e.c.bs > 0
    ensures var e' := Apply(m, e, Admit(id, prompt, seed));
      && e'.seqs.Keys == e.seqs.Keys + {id} && !e'.seqs[id].finished && Unrun(e'.seqs[id])
      && e'.seqs[id].prompt == prompt && e'.seqs[id].cached == HitLength(Lookup(e.c, prompt))
      && forall j :: j in e.seqs ==> e'.seqs[j] == e.seqs[j]
  {
    hide Lookup;
  }

  lemma AddSched(cfg: S.Config, s: S.Sched, rid: nat, n: nat, hit: nat)
    requires S.Inv(cfg, s) && S.Accepts(cfg, s, n)
    ensures var s' := S.DoAdd(cfg, s, rid, n, hit);
      && s.nextId !in s.table && s.nextId !in s.running
      && s'.table.Keys == s.table.Keys + {s.nextId} && !s'.table[s.nextId].finished
      && s'.table[s.nextId].cached == hit && s'.table[s.nextId].prompt == n
      && (forall j :: j in s.table ==> s'.table[j] == s.table[j])
      && s'.running == s.running && (forall j :: j in s'.waiting <==> j in s.waiting || j == s.nextId)
  {
  }

  lemma AddKeeps(cfg: S.Config, m: Model, v: Server, rid: nat, prompt: seq<Token>, seed: nat)
    requires Served(cfg, m, v) && Aligned(v, Add(rid, prompt, seed))
    ensures Served(cfg, m, Do(cfg, m, v, Add(rid, prompt, seed)))
  {
    hide Sound, Strata, Apply, S.Inv, S.DoAdd, AlignedHit, Lookup;
    if !(v.e.c.bs == 0 || prompt == [] || !S.Accepts(cfg, v.s, |prompt|)) {
      var hit := HitLength(Lookup(v.e.c, prompt));
      AddSched(cfg, v.s, rid, |prompt|, hit);
      AddFrame(m, v.e, v.s.nextId, prompt, seed);
      ApplyOk(m, v.e, Admit(v.s.nextId, prompt, seed));
      ApplyStrata(m, v.e, Admit(v.s.nextId, prompt, seed));
      S.AddKeeps(cfg, v.s, rid, |prompt|, hit);
    }
  }

  lemma PickShape(cfg: S.Config, s: S.Sched)
    requires S.Inv(cfg, s)
    ensures var s' := S.DoStep(cfg, s);
      && s'.table == s.table && s'.running == S.FormBatch(cfg, s).ids
      && (forall id :: id in s'.waiting ==> id in s.waiting)
      && (forall id :: id in s'.running ==> id in s.table && id !in s'.waiting)
  {
    hide S.Inv, S.FormBatch, S.DoStep;
    Draining.BatchRuns(cfg, s);
    S.StepKeeps(cfg, s);
    var k := S.StepShape(cfg, s);
    RunningNotWaiting(cfg, S.DoStep(cfg, s));
  }

  lemma RunningNotWaiting(cfg: S.Config, s: S.Sched)
    requires S.Inv(cfg, s)
    ensures forall id :: id in s.running ==> id in s.table && id !in s.waiting
  {
  }

  lemma PickKeeps(cfg: S.Config, m: Model, v: Server)
    requires Served(cfg, m, v)
    ensures Served(cfg, m, Do(cfg, m, v, Pick))
  {
    hide Sound, Strata, S.Inv, S.DoStep, S.FormBatch, Waits;
    S.StepKeeps(cfg, v.s);
    PickShape(cfg, v.s);
  }

  lemma EndFrame(m: Model, e: State, id: nat, keep: nat)
    requires id in e.seqs && !e.seqs[id].finished && e.c.bs > 0
    ensures var e' := Apply(m, e, Finish(id, keep));
      && e'.seqs.Keys == e.seqs.Keys && e'.seqs[id].finished && e'.seqs[id].output <= e.seqs[id].output
      && forall j :: j in e.seqs && j != id ==> e'.seqs[j] == e.seqs[j]
  {
    hide Release;
  }

  lemma EndSched(s: S.Sched, id: nat)
    requires id in s.table
    ensures var s' := S.DoFinish(s, id);
      && s'.table.Keys == s.table.Keys && s'.table[id].finished
      && (forall j :: j in s.table && j != id ==> s'.table[j] == s.table[j])
      && (forall j :: j in s'.waiting ==> j in s.waiting && j != id) && (forall j :: j in s'.running ==> j in s.running)
  {
  }

  lemma EndLinked(v: Server, v': Server, id: nat)
    requires Linked(v) && id in v.e.seqs && id in v'.e.seqs && !v.e.seqs[id].finished && v'.e.seqs[id].finished
    requires v'.e.seqs.Keys == v.e.seqs.Keys && v'.s.table.Keys == v.s.table.Keys && v'.s.table[id].finished
    requires forall j :: j in v.e.seqs && j != id ==> v'.e.seqs[j] == v.e.seqs[j] && v'.s.table[j] == v.s.table[j]
    requires forall j :: j in v'.s.waiting ==> j in v.s.waiting && j != id
    requires forall j :: j in v'.s.running ==> j in v.s.running
    requires v'.batch == v.batch && v'.finals == v.finals[id := v'.e.seqs[id].output]
    ensures Linked(v')
  {
    hide Waits;
  }

  lemma EndKeeps(cfg: S.Config, m: Model, v: Server, id: nat, keep: nat)
    requires Served(cfg, m, v)
    ensures Served(cfg, m, Do(cfg, m, v, End(id, keep)))
  {
    hide Sound, Strata, Apply, S.Inv, S.DoFinish, Linked, Balanced, Good, ColdOk;
    if id in v.e.seqs && !v.e.seqs[id].finished {
      SoundBalanced(m, v.e);
      LinkedTable(v, id);
      EndSched(v.s, id);
      EndFrame(m, v.e, id, keep);
      ApplyOk(m, v.e, Finish(id, keep));
      ApplyStrata(m, v.e, Finish(id, keep));
      S.FinishKeeps(cfg, v.s, id);
      EndLinked(v, Do(cfg, m, v, End(id, keep)), id);
    }
  }

  lemma LinkedTable(v: Server, id: nat)
    requires Linked(v) && id in v.e.seqs
    ensures id in v.s.table && v.e.seqs.Keys == v.s.table.Keys
  {
  }

  // ---------------------------------------------------------------- batches

  /** Every running request has its tokens: nothing is half done. */
  ghost predicate Settled(v: Server) {
    forall id :: id in v.s.running && id in v.e.seqs ==> v.e.seqs[id].output != [] && v.e.seqs[id].pending.None?
  }

  /** A live request in order: it has a prompt, and once it has output its prompt is cached. */
  lemma LiveShape(m: Model, e: State, id: nat)
    requires Sound(m, e) && id in e.seqs && !e.seqs[id].finished && e.seqs[id].pending.None?
    ensures e.seqs[id].prompt != [] && (e.seqs[id].output != [] ==> !NeedsPrefill(e.seqs[id]))
  {
    hide PagePool.Inv, KV, Reference, NodeOk, Rows, ColdOk;
    assert SeqOk(m, e.c, e.seqs[id]);
  }

  /** The scheduler's prefill flags say for every member what the runner finds on it. */
  lemma BatchIsBatchable(cfg: S.Config, m: Model, v: Server)
    requires Served(cfg, m, v) && Settled(v)
    ensures var b := S.FormBatch(cfg, v.s); BatchRun.Batchable(v.e, b.ids, S.Flags(v.s.table, b))
  {
    hide Sound, Strata, S.FormBatch, S.DoStep;
    var b := S.FormBatch(cfg, v.s);
    var k := S.BatchShape(cfg, v.s);
    Draining.BatchRuns(cfg, v.s);
    S.StepKeeps(cfg, v.s);
    forall i | 0 <= i < |b.ids|
      ensures b.ids[i] in v.e.seqs && v.e.seqs[b.ids[i]].pending.None? && v.e.seqs[b.ids[i]].prompt != []
      ensures S.Flags(v.s.table, b)[i] <==> NeedsPrefill(v.e.seqs[b.ids[i]])
    {
      var id := b.ids[i];
      if i < |v.s.running| {
        assert id in v.s.running;
      } else {
        assert id == v.s.waiting[i - |v.s.running|] && id in v.s.waiting;
      }
      LiveShape(m, v.e, id);
    }
  }

  // ---------------------------------------------------------------- runs

  /** A new server: an idle scheduler over a new engine. */
  ghost predicate New(v: Server) {
    v.s == S.Idle && Fresh(v.e) && v.batch == [] && v.finals == map[]
  }

  lemma NewIsServed(cfg: S.Config, m: Model, v: Server)
    requires New(v)
    ensures Served(cfg, m, v)
  {
    hide Sound, Strata, S.Inv;
    FreshIsSound(m, v.e);
    FreshStrata(v.e);
    S.RunKeeps(cfg, []);
  }

  /**
   Every run in which hits are exact or page-aligned keeps the engine sound, whatever the
   scheduler picks, whenever the runner bursts, and however requests end.
   */
  lemma {:induction false} ServeKeeps(cfg: S.Config, m: Model, v: Server, evs: seq<Event>)
    requires New(v) && AllAligned(cfg, m, v, evs)
    ensures Served(cfg, m, Serve(cfg, m, v, evs))
    decreases |evs|
  {
    hide Served, New, Do, Aligned;
    if evs == [] {
      NewIsServed(cfg, m, v);
    } else {
      var n := |evs| - 1;
      var front := evs[..n];
      forall i | 0 <= i < |front|
        ensures Aligned(Serve(cfg, m, v, front[..i]), front[i])
      {
        assert front[..i] == evs[..i];
      }
      ServeKeeps(cfg, m, v, front);
      var u := Serve(cfg, m, v, front);
      assert Aligned(u, evs[n]);
      match evs[n] {
        case Add(rid, prompt, seed) => AddKeeps(cfg, m, u, rid, prompt, seed);
        case Pick => PickKeeps(cfg, m, u);
        case Work(step) => WorkKeeps(cfg, m, u, step);
        case End(id, keep) => EndKeeps(cfg, m, u, id, keep);
      }
    }
  }

  /**
   Cache transparency of the server: at any time each request has produced, and each finished
   request was answered, what decoding its own prompt alone produces.
   */
  lemma AnswersAreReference(cfg: S.Config, m: Model, v: Server, evs: seq<Event>, id: nat)
    requires New(v) && AllAligned(cfg, m, v, evs) && id in Serve(cfg, m, v, evs).e.seqs
    ensures var u := Serve(cfg, m, v, evs); var q := u.e.seqs[id];
      && q.output == Reference(m, q.seed, q.prompt, |q.output|)
      && (id in u.finals ==> u.finals[id] == q.output)
  {
    hide Serve, New, AllAligned, Sound, Strata, S.Inv, Reference, Waits;
    ServeKeeps(cfg, m, v, evs);
    SoundOutput(m, Serve(cfg, m, v, evs).e, id);
  }

  /** A hit at any time of such a run returns the recomputed rows and the prefix's own logits. */
  lemma HitsAreRecomputed(cfg: S.Config, m: Model, v: Server, evs: seq<Event>, prompt: seq<Token>)
    requires New(v) && AllAligned(cfg, m, v, evs)
    ensures var c := Serve(cfg, m, v, evs).e.c;
      c.bs > 0 && (Lookup(c, prompt).Hit? ==>
      var h := Lookup(c, prompt);
      && 0 < h.len <= |prompt|
      && Covers(c.kv, h.blocks, c.bs, h.len)
      && Flat(c.kv, h.blocks, c.bs, h.len) == KV(m, prompt[..h.len])
      && h.logits == Some(m.out(KV(m, prompt[..h.len]))))
  {
    hide Serve, New, AllAligned, Sound, Strata, S.Inv, Linked, Lookup, Flat, KV, Covers;
    ServeKeeps(cfg, m, v, evs);
    SoundHit(m, Serve(cfg, m, v, evs).e, prompt);
  }
}
