/**
 Whole runs of the engine whose prefix hits are exact or page-aligned and whose bursts start
 where nobody else reads.  The end result is cache transparency: each request's output is the
 reference generation of its own prompt.
 */
module EngineRuns {
  import opened Prelude
  import opened Paging
  import opened Ledger
  import opened PagePool
  import opened Allocator
  import opened PrefixTree
  import opened Generation
  import opened Engine
  import opened EngineSafety
  import opened EngineBalance
  import opened ColdBursts

  lemma SoundBalanced(m: Model, e: State)
    requires Sound(m, e)
    ensures Balanced(e) && Good(m, e) && ColdOk(e) && e.c.bs > 0
  {
  }

  /** A request that forwards on an unchecked page is inside it, and alone there. */
  lemma ForwardClear(e: State, id: nat)
    requires ColdOk(e) && id in e.seqs && !e.seqs[id].finished && e.seqs[id].cold
    ensures SlotOf(e.seqs[id].cached, e.c.bs) != 0 && Cleared(e, id)
  {
  }

  /** Every safe step keeps the engine sound. */
  lemma ApplyOk(m: Model, e: State, step: Step)
    requires Sound(m, e) && SafeStep(e, step)
    ensures Sound(m, Apply(m, e, step))
  {
    hide Good, Balanced, ColdOk, Cleared, DoAdmit, DoPrepare, DoBurst, DoForward, DoDeliver, DoFinish, DoLose;
    SoundBalanced(m, e);
    if Enabled(e, step) {
      match step {
        case Admit(id, prompt, seed) =>
          AdmitOk(m, e, id, prompt, seed);
          AdmitCold(e, id, prompt, seed);
        case Prepare(id) =>
          PrepareOk(m, e, id);
          PrepareCold(e, id);
        case Burst(id) =>
          BurstOk(m, e, id);
          BurstCold(e, id);
        case Forward(id) =>
          if e.seqs[id].prompt != [] {
            if e.seqs[id].cold {
              ForwardClear(e, id);
            }
            ForwardOk(m, e, id);
            ForwardCold(m, e, id);
          }
        case Deliver(id) =>
          DeliverOk(m, e, id);
          DeliverCold(m, e, id);
        case Finish(id, keep) =>
          FinishOk(m, e, id, keep);
          FinishCold(e, id, keep);
        case Lose(id, k) =>
          LoseNothing(e, id);
      }
    }
  }

  lemma LoseNothing(e: State, id: nat)
    requires id in e.seqs
    ensures DoLose(e, id, 0) == e
  {
    assert e.seqs[id].output[..|e.seqs[id].output|] == e.seqs[id].output;
    assert e.seqs[id := e.seqs[id]] == e.seqs;
  }

  lemma FreshIsSound(m: Model, e: State)
    requires Fresh(e)
    ensures Sound(m, e)
  {
    hide Inv;
    FreshBalanced(e);
  }

  /** Safety of whole runs: every state of a safe run is sound. */
  lemma {:induction false} RunIsSound(m: Model, e: State, steps: seq<Step>)
    requires Fresh(e) && SafeRun(m, e, steps)
    ensures Sound(m, Run(m, e, steps))
    decreases |steps|
  {
    hide Sound, Apply, SafeStep, Fresh;
    if steps == [] {
      FreshIsSound(m, e);
    } else {
      var n := |steps| - 1;
      var front := steps[..n];
      forall i | 0 <= i < |front|
        ensures SafeStep(Run(m, e, front[..i]), front[i])
      {
        assert front[..i] == steps[..i];
      }
      RunIsSound(m, e, front);
      assert SafeStep(Run(m, e, steps[..n]), steps[n]);
      ApplyOk(m, Run(m, e, front), steps[n]);
    }
  }

  /** In a sound state every output is the reference generation of its own prompt. */
  lemma SoundOutput(m: Model, e: State, id: nat)
    requires Sound(m, e) && id in e.seqs
    ensures var s := e.seqs[id]; s.output == Reference(m, s.seed, s.prompt, |s.output|)
  {
    hide Inv, Reference, NodeOk, Rows, Progress, ColdOk;
    assert SeqOk(m, e.c, e.seqs[id]);
  }

  /**
   Cache transparency: whatever the interleaving, the hits, the copies, the evictions and the
   other requests, each request's output is what decoding its own prompt alone produces.
   */
  lemma OutputIsReference(m: Model, e: State, steps: seq<Step>, id: nat)
    requires Fresh(e) && SafeRun(m, e, steps) && id in Run(m, e, steps).seqs
    ensures var s := Run(m, e, steps).seqs[id];
      s.output == Reference(m, s.seed, s.prompt, |s.output|)
  {
    hide Run, Fresh, SafeRun, Sound, Reference;
    RunIsSound(m, e, steps);
    SoundOutput(m, Run(m, e, steps), id);
  }

  /** In a sound state a hit returns recomputed rows and its own logits. */
  lemma SoundHit(m: Model, e: State, prompt: seq<Token>)
    requires Sound(m, e)
    ensures e.c.bs > 0 && (Lookup(e.c, prompt).Hit? ==>
      var h := Lookup(e.c, prompt);
      && 0 < h.len <= |prompt|
      && Covers(e.c.kv, h.blocks, e.c.bs, h.len)
      && Flat(e.c.kv, h.blocks, e.c.bs, h.len) == KV(m, prompt[..h.len])
      && h.logits == Some(m.out(KV(m, prompt[..h.len]))))
  {
    hide Good, ColdOk, Lookup;
    GoodSize(m, e);
    if Lookup(e.c, prompt).Hit? {
      HitRows(m, e, prompt);
    }
  }

  /**
   Any prefix hit in any reachable state, aligned or not, returns pages whose rows are exactly
   the rows of the matched tokens recomputed from scratch, with that prefix's own logits.
   */
  lemma HitIsRecomputed(m: Model, e: State, steps: seq<Step>, prompt: seq<Token>)
    requires Fresh(e) && SafeRun(m, e, steps)
    ensures var c := Run(m, e, steps).c;
      c.bs > 0 && (Lookup(c, prompt).Hit? ==>
      var h := Lookup(c, prompt);
      && 0 < h.len <= |prompt|
      && Covers(c.kv, h.blocks, c.bs, h.len)
      && Flat(c.kv, h.blocks, c.bs, h.len) == KV(m, prompt[..h.len])
      && h.logits == Some(m.out(KV(m, prompt[..h.len]))))
  {
    hide Run, Fresh, SafeRun, Sound, Lookup, Flat, KV, Covers;
    RunIsSound(m, e, steps);
    SoundHit(m, Run(m, e, steps), prompt);
  }
}
