/**
 One whole pump over the engine: admission with real hits, the batch of the scheduler, the runner,
 delivery or failure of each member, and the burst of a lone decode.  What the loop does is a pump
 of the loop machine, for the outcome that the engine dictates.
 */
module EnginePump {
  import opened Prelude
  import opened Paging
  import opened PagePool
  import opened PrefixTree
  import opened Generation
  import opened Engine
  import opened EngineBalance
  import opened EngineRuns
  import opened SharedPages
  import opened Serving
  import opened BurstRun
  import opened Limits
  import opened LoopEngine
  import S = Scheduling
  import L = Loop
  import LS = LoopSafety
  import Draining
  import BatchRun

  // ---------------------------------------------------------------- admission

  /** The loop knows every token the engine delivered. */
  ghost predicate Even(w: Whole) {
    forall id :: id in w.l.gen && id in w.e.seqs ==> w.l.gen[id].output == w.e.seqs[id].output
  }

  /** Between pumps: sound and agreed, nothing half done, nothing untold. */
  ghost predicate Steady(cfg: S.Config, m: Model, w: Whole) {
    Fine(cfg, m, w) && L.LoopInv(cfg, w.l) && Settled(AsServer(w)) && Even(w)
  }

  /** Every queued prompt would hit exactly or on a page boundary. */
  ghost predicate AlignedQueue(c: Cache, queue: seq<L.Pending>) {
    c.bs > 0 && forall i :: 0 <= i < |queue| ==> AlignedHit(c, queue[i].prompt)
  }

  /** The cached length the engine finds for the first queued request of that id. */
  ghost function HitOf(c: Cache, queue: seq<L.Pending>, rid: nat): nat
    decreases |queue|
  {
    if queue == [] || c.bs == 0 then 0
    else if queue[0].rid == rid then HitLength(Lookup(c, queue[0].prompt))
    else HitOf(c, queue[1..], rid)
  }

  ghost function Hits(c: Cache, queue: seq<L.Pending>): nat -> nat {
    rid => HitOf(c, queue, rid)
  }

  lemma AdmitNextQueue(cfg: S.Config, m: Model, w: Whole, seed: nat)
    requires w.l.queue != [] && w.e.c.bs > 0
    ensures var it, l1 := w.l.queue[0], w.l.(queue := w.l.queue[1..]);
      var w' := Act1(cfg, m, w, AdmitNext(seed));
      && w'.l == L.AdmitOne(cfg, l1, it, HitLength(Lookup(w.e.c, it.prompt))) && w'.l.queue == w.l.queue[1..]
      && w'.batch == w.batch
  {
    hide Lookup, Apply;
  }

  /** _admit_pending over the engine. */
  ghost function AdmitEvery(cfg: S.Config, m: Model, w: Whole, seeds: nat -> nat): Whole
    decreases |w.l.queue|
  {
    if w.l.queue == [] || w.e.c.bs == 0 then w
    else
      AdmitNextQueue(cfg, m, w, seeds(w.l.queue[0].rid));
      AdmitEvery(cfg, m, Act1(cfg, m, w, AdmitNext(seeds(w.l.queue[0].rid))), seeds)
  }

  /** An admission leaves the tree as it is, so the hits of the others stay. */
  lemma AdmitNextTree(cfg: S.Config, m: Model, w: Whole, seed: nat)
    requires w.e.c.bs > 0
    ensures var w' := Act1(cfg, m, w, AdmitNext(seed)); w'.e.c.tree == w.e.c.tree && w'.e.c.bs == w.e.c.bs
  {
    hide Lookup, L.AdmitOne;
  }

  lemma SameTree(c: Cache, c': Cache, queue: seq<L.Pending>)
    requires c'.tree == c.tree && c'.bs == c.bs
    ensures AlignedQueue(c, queue) ==> AlignedQueue(c', queue)
    ensures forall p: Path :: c.bs > 0 ==> Lookup(c', p) == Lookup(c, p)
  {
    if AlignedQueue(c, queue) {
      forall i | 0 <= i < |queue|
        ensures AlignedHit(c', queue[i].prompt)
      {
        assert Lookup(c', queue[i].prompt) == Lookup(c, queue[i].prompt);
      }
    }
  }

  lemma {:induction false} SameHits(c: Cache, c': Cache, queue: seq<L.Pending>, rid: nat)
    requires c'.tree == c.tree && c'.bs == c.bs
    ensures HitOf(c', queue, rid) == HitOf(c, queue, rid)
    decreases |queue|
  {
    hide Lookup;
    if queue != [] {
      SameTree(c, c', []);
      SameHits(c, c', queue[1..], rid);
    }
  }

  /** Only the hits of queued requests matter. */
  lemma {:induction false} AdmitAllSame(cfg: S.Config, l: L.State, hits: nat -> nat, hits': nat -> nat)
    requires forall i :: 0 <= i < |l.queue| ==> hits(l.queue[i].rid) == hits'(l.queue[i].rid)
    ensures L.AdmitAll(cfg, l, hits) == L.AdmitAll(cfg, l, hits')
    decreases |l.queue|
  {
    hide L.AdmitOne;
    if l.queue != [] {
      var it := l.queue[0];
      var l1 := L.AdmitOne(cfg, l.(queue := l.queue[1..]), it, hits(it.rid)).(queue := l.queue[1..]);
      forall i | 0 <= i < |l1.queue|
        ensures hits(l1.queue[i].rid) == hits'(l1.queue[i].rid)
      {
        assert l1.queue[i] == l.queue[i + 1];
      }
      AdmitAllSame(cfg, l1, hits, hits');
    }
  }

  lemma {:induction false} TailHits(c: Cache, queue: seq<L.Pending>, i: nat)
    requires queue != [] && i < |queue| - 1 && queue[i + 1].rid != queue[0].rid
    ensures HitOf(c, queue, queue[1..][i].rid) == HitOf(c, queue[1..], queue[1..][i].rid)
  {
  }

  lemma AdmitNextSteady(cfg: S.Config, m: Model, w: Whole, seed: nat)
    requires Steady(cfg, m, w) && w.l.queue != [] && AlignedQueue(w.e.c, w.l.queue)
    ensures var w' := Act1(cfg, m, w, AdmitNext(seed));
      Steady(cfg, m, w') && AlignedQueue(w'.e.c, w'.l.queue)
  {
    hide Fine, L.LoopInv, Settled, Even, Act1, L.AdmitOne, Lookup, AlignedHit, Harmless;
    var w' := Act1(cfg, m, w, AdmitNext(seed));
    AdmitNextQueue(cfg, m, w, seed);
    AdmitNextTree(cfg, m, w, seed);
    SameTree(w.e.c, w'.e.c, w.l.queue);
    LS.AdmitOneKeeps(cfg, w.l, HitLength(Lookup(w.e.c, w.l.queue[0].prompt)));
    assert Harmless(w, AdmitNext(seed)) by { AlignedHead(w, seed); }
    AdmitActKeeps(cfg, m, w, seed);
    AdmitNextReady(cfg, m, w, seed);
  }

  lemma AlignedHead(w: Whole, seed: nat)
    requires w.l.queue != [] && AlignedQueue(w.e.c, w.l.queue)
    ensures Harmless(w, AdmitNext(seed))
  {
    hide AlignedHit;
  }

  lemma AdmitNextReady(cfg: S.Config, m: Model, w: Whole, seed: nat)
    requires Fine(cfg, m, w) && Settled(AsServer(w)) && Even(w) && w.l.queue != [] && w.e.c.bs > 0
    ensures var w' := Act1(cfg, m, w, AdmitNext(seed)); Settled(AsServer(w')) && Even(w')
  {
    hide Served, S.Inv, Answers, L.Emit, S.DoAdd, Lookup, Apply, S.Accepts, Agreed, Unrun, Settled, Even;
    var it, l1 := w.l.queue[0], w.l.(queue := w.l.queue[1..]);
    assert it.prompt != [];
    hide Prompts;
    var w' := Act1(cfg, m, w, AdmitNext(seed));
    if it.rid in w.l.cancelled {
      SameReady(w, w');
    } else if !S.Accepts(cfg, w.l.s, |it.prompt|) {
      EmitRest(l1, it.rid, L.Final(Failed, []));
      SameReady(w, w');
    } else {
      ServedInv(cfg, m, AsServer(w));
      AddSched(cfg, w.l.s, it.rid, |it.prompt|, HitLength(Lookup(w.e.c, it.prompt)));
      AddFrame(m, w.e, w.l.s.nextId, it.prompt, seed);
      AddPrompt(m, w.e, w.l.s.nextId, it.prompt, seed);
      OneMore(w, w', w.l.s.nextId);
    }
  }

  lemma SameReady(w: Whole, w': Whole)
    requires w'.e == w.e && w'.l.s == w.l.s && w'.l.gen == w.l.gen && Settled(AsServer(w)) && Even(w)
    ensures Settled(AsServer(w')) && Even(w')
  {
  }

  /** One more request that has not run. */
  lemma OneMore(w: Whole, w': Whole, id: nat)
    requires Settled(AsServer(w)) && Even(w) && id !in w.l.s.running && id !in w.e.seqs
    requires w'.l.s.running == w.l.s.running && id in w'.l.gen && w'.l.gen == w.l.gen[id := w'.l.gen[id]]
    requires w'.e.seqs.Keys == w.e.seqs.Keys + {id} && forall j :: j in w.e.seqs ==> w'.e.seqs[j] == w.e.seqs[j]
    requires w'.l.gen[id].output == [] && w'.e.seqs[id].output == []
    ensures Settled(AsServer(w')) && Even(w')
  {
  }

  /** Admission over the engine is admission of the loop, with the hits the tree has. */
  lemma {:induction false} AdmitEveryKeeps(cfg: S.Config, m: Model, w: Whole, seeds: nat -> nat)
    requires Steady(cfg, m, w) && AlignedQueue(w.e.c, w.l.queue)
    ensures var w' := AdmitEvery(cfg, m, w, seeds);
      && Steady(cfg, m, w') && w'.l.queue == [] && w'.batch == w.batch
      && w'.l == L.AdmitAll(cfg, w.l, Hits(w.e.c, w.l.queue))
    decreases |w.l.queue|
  {
    hide Steady, Act1, L.AdmitOne, Lookup, AlignedHit;
    if w.l.queue != [] {
      var seed := seeds(w.l.queue[0].rid);
      var w1 := Act1(cfg, m, w, AdmitNext(seed));
      AdmitNextSteady(cfg, m, w, seed);
      AdmitNextQueue(cfg, m, w, seed);
      AdmitNextTree(cfg, m, w, seed);
      AdmitEveryKeeps(cfg, m, w1, seeds);
      QueueIds(cfg, m, w);
      forall i | 0 <= i < |w1.l.queue|
        ensures Hits(w1.e.c, w1.l.queue)(w1.l.queue[i].rid) == Hits(w.e.c, w.l.queue)(w1.l.queue[i].rid)
      {
        TailHits(w.e.c, w.l.queue, i);
        SameHits(w.e.c, w1.e.c, w1.l.queue, w1.l.queue[i].rid);
      }
      AdmitAllSame(cfg, w1.l, Hits(w1.e.c, w1.l.queue), Hits(w.e.c, w.l.queue));
      assert w1.l.(queue := w.l.queue[1..]) == w1.l;
    }
  }

  lemma QueueIds(cfg: S.Config, m: Model, w: Whole)
    requires Steady(cfg, m, w)
    ensures forall i, j :: 0 <= i < j < |w.l.queue| ==> w.l.queue[i].rid != w.l.queue[j].rid
  {
    hide Fine, S.Inv, L.Indexed, L.Generating, L.FramesOk, L.OpenAttended;
  }

  /**
   A steady loop with nothing left to do has answered every request exactly once, last, and
   every answer for length or stop is the reference generation of a prompt of that request.
   */
  lemma IdleAnswers(cfg: S.Config, m: Model, w: Whole, rid: nat)
    requires Steady(cfg, m, w) && !L.Busy(w.l) && rid in w.l.frames
    ensures L.Closed(w.l.frames[rid]) && w.l.frames[rid] != []
    ensures var f := w.l.frames[rid][|w.l.frames[rid]| - 1]; Answer(f) ==> Answered(m, w, rid, f.output)
  {
    hide Fine, L.LoopInv, Settled, Even, L.Busy, Answered, Faithful;
    Draining.IdleIsClosed(cfg, w.l, rid);
    FineTells(cfg, m, w, rid, |w.l.frames[rid]| - 1);
  }

  // ---------------------------------------------------------------- clients

  /** A submission adds to the queue only. */
  lemma SubmitSteady(cfg: S.Config, m: Model, w: Whole, rid: nat, prompt: seq<Token>, p: Params)
    requires Steady(cfg, m, w) && LS.FreshId(w.l, rid)
    ensures Steady(cfg, m, Act1(cfg, m, w, Submit(rid, prompt, p)))
  {
    hide Fine, L.LoopInv, LS.FreshId;
    SubmitActKeeps(cfg, m, w, rid, prompt, p);
    LS.SubmitKeeps(cfg, w.l, rid, prompt, p);
  }

  /** The request that a cancel or a timeout ends, if it is admitted. */
  lemma StopShape(cfg: S.Config, m: Model, w: Whole, rid: nat, l': L.State)
    requires Steady(cfg, m, w)
    ensures w.e.c.bs > 0
    ensures rid in w.l.s.byRid ==>
      var id := w.l.s.byRid[rid];
      && id in w.l.s.table && id in w.e.seqs && !w.e.seqs[id].finished && id in w.l.gen
      && Told(w.l, id) == |w.l.gen[id].output|
      && DoStop(m, w, rid, l') == w.(l := l', e := DoFinish(w.e, id, |w.l.gen[id].output|))
    ensures rid !in w.l.s.byRid ==> DoStop(m, w, rid, l') == w.(l := l')
  {
    hide S.Inv, L.Generating, L.Queued, L.FramesOk, L.OpenAttended, Served, Answers, Settled, Even, DoFinish;
    ServedInv(cfg, m, AsServer(w));
    if rid in w.l.s.byRid {
      EndIs(m, w.e, w.l.s.byRid[rid], Told(w.l, w.l.s.byRid[rid]));
    }
  }

  /** Ending one request leaves everything else settled and told. */
  lemma StopSteady(cfg: S.Config, m: Model, w: Whole, rid: nat, l': L.State)
    requires Steady(cfg, m, w)
    requires l' == w.l.(s := S.DoCancel(w.l.s, rid), cancelled := l'.cancelled, frames := l'.frames, open := l'.open)
    requires Fine(cfg, m, DoStop(m, w, rid, l')) && L.LoopInv(cfg, l')
    ensures Steady(cfg, m, DoStop(m, w, rid, l'))
  {
    hide Fine, L.LoopInv, DoStop, DoFinish, S.DoCancel;
    var w' := DoStop(m, w, rid, l');
    StopShape(cfg, m, w, rid, l');
    if rid in w.l.s.byRid {
      var id := w.l.s.byRid[rid];
      CancelSched(w.l.s, rid);
      FinishOthers(w.e, id, |w.l.gen[id].output|);
      EvenAgain(cfg, m, w, w', id);
      NotRunning(cfg, l'.s, id);
      LoopSched(cfg, l');
    } else {
      CancelNobody(w.l.s, rid);
    }
  }

  lemma LoopSched(cfg: S.Config, l: L.State)
    requires L.LoopInv(cfg, l)
    ensures S.Inv(cfg, l.s)
  {
    hide S.Inv;
  }

  lemma CancelNobody(s: S.Sched, rid: nat)
    requires rid !in s.byRid
    ensures S.DoCancel(s, rid) == s
  {
  }

  lemma NotRunning(cfg: S.Config, s: S.Sched, id: nat)
    requires id in s.table && s.table[id].finished
    ensures S.Inv(cfg, s) ==> id !in s.running
  {
    if S.Inv(cfg, s) && id in s.running {
      RunningIsLive(cfg, s, id);
    }
  }

  // ---------------------------------------------------------------- the batch

  /** Between admission and the runner: the batch is formed and the runner can work on it. */
  lemma BatchFormed(cfg: S.Config, m: Model, w: Whole)
    requires Steady(cfg, m, w)
    ensures var b, w' := S.FormBatch(cfg, w.l.s), Act1(cfg, m, w, NextBatch);
      && Fine(cfg, m, w') && Even(w') && w' == w.(l := w.l.(s := S.DoStep(cfg, w.l.s)), batch := b.ids)
      && BatchRun.Batchable(w.e, b.ids, S.Flags(w.l.s.table, b)) && Sound(m, w.e)
      && (forall i :: 0 <= i < |b.ids| ==> b.ids[i] in w.e.seqs && !w.e.seqs[b.ids[i]].finished && b.ids[i] in w.l.gen)
  {
    hide S.FormBatch, S.DoStep, Sound, Strata, S.Inv, Agreed, Answers, L.LoopInv, S.Flags, BatchRun.Batchable, Linked;
    PickActKeeps(cfg, m, w);
    BatchIsBatchable(cfg, m, AsServer(w));
    LS.BatchIsLive(cfg, w.l);
    ServedInv(cfg, m, AsServer(w));
    GenKeys(w);
  }

  lemma GenKeys(w: Whole)
    requires Agreed(w.l.gen, w.e.seqs)
    ensures w.l.gen.Keys == w.e.seqs.Keys
  {
  }

  /** A run of the runner over members of the batch. */
  lemma {:induction false} RunFine(cfg: S.Config, m: Model, w: Whole, steps: seq<Step>)
    requires Fine(cfg, m, w) && BatchRun.Within(steps, w.batch)
    ensures Fine(cfg, m, w.(e := Run(m, w.e, steps)))
    decreases |steps|
  {
    hide Fine, Apply;
    if steps == [] {
      assert w.(e := w.e) == w;
    } else {
      var n := |steps| - 1;
      RunFine(cfg, m, w, steps[..n]);
      var w1 := w.(e := Run(m, w.e, steps[..n]));
      assert steps[n] in steps;
      StepFine(cfg, m, w1, steps[n]);
    }
  }

  /** One step of the runner on a member of the batch. */
  lemma StepFine(cfg: S.Config, m: Model, w: Whole, step: Step)
    requires Fine(cfg, m, w) && Allowed(w.batch, step)
    ensures Fine(cfg, m, w.(e := Apply(m, w.e, step)))
  {
    hide Fine, Apply;
    WorkActKeeps(cfg, m, w, step);
    BatchKnown(cfg, m, w, step.id);
  }

  lemma BatchKnown(cfg: S.Config, m: Model, w: Whole, id: nat)
    requires Fine(cfg, m, w) && id in w.batch
    ensures id in w.e.seqs && id in w.l.gen && id in w.l.s.table && w.l.s.table[id].finished == w.e.seqs[id].finished
  {
    hide Sound, Strata, S.Inv, Answers;
  }

  // ---------------------------------------------------------------- one member

  /** The request is over, or has tokens and nothing undelivered. */
  ghost predicate Square(w: Whole, id: nat) {
    id in w.e.seqs && (w.e.seqs[id].finished || (w.e.seqs[id].output != [] && w.e.seqs[id].pending.None?))
  }

  ghost predicate EvenBut(w: Whole, id: nat) {
    forall j :: j in w.l.gen && j in w.e.seqs && j != id ==> w.l.gen[j].output == w.e.seqs[j].output
  }

  /** Once every member of the batch is settled, so is everything that runs. */
  lemma SettledByBatch(cfg: S.Config, m: Model, w: Whole)
    requires Fine(cfg, m, w) && forall i :: 0 <= i < |w.batch| ==> Square(w, w.batch[i])
    ensures Settled(AsServer(w))
  {
    hide Sound, Strata, Answers, Agreed, Waits;
    forall id | id in w.l.s.running && id in w.e.seqs
      ensures w.e.seqs[id].output != [] && w.e.seqs[id].pending.None?
    {
      assert id in w.batch;
      var i :| 0 <= i < |w.batch| && w.batch[i] == id;
      assert Square(w, w.batch[i]);
      RunningIsLive(cfg, w.l.s, id);
    }
  }

  lemma RunningIsLive(cfg: S.Config, s: S.Sched, id: nat)
    requires S.Inv(cfg, s) && id in s.running
    ensures id in s.table && !s.table[id].finished
  {
  }

  /** Nothing but request `id` changed, for loop and engine. */
  ghost predicate OnlyOne(w: Whole, w': Whole, id: nat) {
    && w'.batch == w.batch && w'.e.seqs.Keys == w.e.seqs.Keys
    && (forall j :: j in w.e.seqs && j != id ==> w'.e.seqs[j] == w.e.seqs[j])
    && w'.l.gen.Keys == w.l.gen.Keys && (forall j :: j in w.l.gen && j != id ==> w'.l.gen[j] == w.l.gen[j])
  }

  lemma EvenAgain(cfg: S.Config, m: Model, w: Whole, w': Whole, id: nat)
    requires EvenBut(w, id) && OnlyOne(w, w', id) && Fine(cfg, m, w') && id in w'.e.seqs && id in w'.l.gen
    requires w'.e.seqs[id].finished || w'.l.gen[id].output == w'.e.seqs[id].output
    ensures Even(w')
  {
    hide Served, Answers;
  }

  /** The engine after the loop settled request `id`. */
  ghost function Closing(l: L.State, e: State, id: nat): State
    requires id in e.seqs
  {
    if id in l.s.table && l.s.table[id].finished then DoFinish(e, id, Told(l, id)) else e
  }

  /** Reporting all that is new of a member. */
  lemma TellMember(cfg: S.Config, m: Model, w: Whole, id: nat)
    requires Fine(cfg, m, w) && EvenBut(w, id) && id in w.e.seqs && !w.e.seqs[id].finished
    requires w.e.seqs[id].pending.None? && News(w, id) != []
    ensures var w' := Act1(cfg, m, w, Report(id));
      && Fine(cfg, m, w') && Even(w') && Square(w', id) && OnlyOne(w, w', id) && w'.batch == w.batch
      && w'.l == L.DeliverOne(w.l, id, News(w, id)) && w'.e == Closing(w'.l, w.e, id)
  {
    hide Fine, L.DeliverOne, DoFinish, News, Act1, LS.Others, EvenBut, OnlyOne, Balanced, Sound;
    var w' := Act1(cfg, m, w, Report(id));
    ReportActKeeps(cfg, m, w, id);
    FineParts(cfg, m, w, id);
    NewsAre(w, id);
    FineBlock(cfg, m, w);
    TellShape(cfg, m, w, id);
    LS.DeliverOneOthers(w.l, id, News(w, id));
    FinishOthers(w.e, id, Told(w'.l, id));
    OneChanged(w, w', id, Told(w'.l, id));
    Going(w.l, id, News(w, id));
    EvenAgain(cfg, m, w, w', id);
  }

  lemma TellShape(cfg: S.Config, m: Model, w: Whole, id: nat)
    requires id in w.e.seqs && !w.e.seqs[id].finished && News(w, id) != [] && w.e.c.bs > 0
    ensures var w' := Act1(cfg, m, w, Report(id));
      w'.batch == w.batch && w'.l == L.DeliverOne(w.l, id, News(w, id)) && w'.e == Closing(w'.l, w.e, id)
  {
    hide L.DeliverOne, DoFinish, News;
    EndIs(m, w.e, id, Told(L.DeliverOne(w.l, id, News(w, id)), id));
  }

  lemma OneChanged(w: Whole, w': Whole, id: nat, n: nat)
    requires w'.batch == w.batch && LS.Others(w.l, w'.l, id) && id in w.e.seqs
    requires w'.e == w.e || w'.e == DoFinish(w.e, id, n)
    ensures OnlyOne(w, w', id)
  {
    hide DoFinish;
    FinishOthers(w.e, id, n);
  }

  lemma FineBlock(cfg: S.Config, m: Model, w: Whole)
    requires Fine(cfg, m, w)
    ensures w.e.c.bs > 0 && Balanced(w.e) && Sound(m, w.e)
  {
    hide Agreed, Answers, Strata, Linked, S.Inv;
    SoundBalanced(m, w.e);
  }

  lemma EndIs(m: Model, e: State, id: nat, n: nat)
    requires id in e.seqs && !e.seqs[id].finished && e.c.bs > 0
    ensures Ended(m, e, id, n) == DoFinish(e, id, n)
  {
    hide DoFinish;
  }

  lemma FinishOthers(e: State, id: nat, n: nat)
    requires id in e.seqs
    ensures var e' := DoFinish(e, id, n);
      && e'.seqs.Keys == e.seqs.Keys && e'.seqs[id].finished
      && forall j :: j in e.seqs && j != id ==> e'.seqs[j] == e.seqs[j]
  {
    hide Release;
  }

  /** A member that goes on has been told everything. */
  lemma Going(l: L.State, id: nat, toks: seq<Token>)
    requires id in l.gen && id in l.s.table && !l.s.table[id].finished
    ensures var l' := L.DeliverOne(l, id, toks);
      && id in l'.s.table && id in l'.gen && (l'.s.table[id].finished || l'.gen[id].output == l.gen[id].output + toks)
  {
    hide L.Emit, JudgeAll;
    var g := l.gen[id];
    var out := g.output + toks;
    var s1 := S.DoAdvance(l.s, id, |g.prompt| + |out|);
    match JudgeAll(g.params, out, toks) {
      case Go => EmitRest(l.(s := s1, gen := l.gen[id := g.(output := out)]), g.rid, L.Delta(toks));
      case Stop(r, o) => EmitRest(l.(s := S.DoFinish(s1, id), gen := l.gen[id := g.(output := o)]), g.rid,
                                  L.Final(r, o));
    }
    EmitRest(l.(s := S.DoFinish(l.s, id)), g.rid, L.Final(Cancelled, []));
  }

  /** The sampled token of a member is appended, judged and reported. */
  ghost function Give(cfg: S.Config, m: Model, w: Whole, id: nat): Whole {
    Act1(cfg, m, Act1(cfg, m, w, RunStep(Deliver(id))), Report(id))
  }

  lemma DeliverFacts(m: Model, e: State, id: nat)
    requires id in e.seqs && !e.seqs[id].finished && e.seqs[id].pending.Some? && e.c.bs > 0
    ensures var e' := Apply(m, e, Deliver(id));
      && e' == DoDeliver(e, id) && e'.seqs.Keys == e.seqs.Keys && !e'.seqs[id].finished && e'.seqs[id].pending.None?
      && e'.seqs[id].output == e.seqs[id].output + [e.seqs[id].pending.value]
      && forall j :: j in e.seqs && j != id ==> e'.seqs[j] == e.seqs[j]
  {
    hide Insert;
  }

  lemma GiveMember(cfg: S.Config, m: Model, w: Whole, id: nat)
    requires Fine(cfg, m, w) && Even(w) && id in w.batch && id in w.e.seqs && !w.e.seqs[id].finished
    requires w.e.seqs[id].pending.Some?
    ensures var w' := Give(cfg, m, w, id);
      && Fine(cfg, m, w') && Even(w') && Square(w', id) && OnlyOne(w, w', id) && w'.batch == w.batch
      && w'.l == L.DeliverOne(w.l, id, [w.e.seqs[id].pending.value]) && w'.e == Closing(w'.l, DoDeliver(w.e, id), id)
  {
    hide Fine, L.DeliverOne, DoFinish, DoDeliver, Apply, Closing, Balanced, Sound;
    var w1 := w.(e := Apply(m, w.e, Deliver(id)));
    FineBlock(cfg, m, w);
    DeliverFacts(m, w.e, id);
    StepFine(cfg, m, w, Deliver(id));
    BatchKnown(cfg, m, w, id);
    GiveShape(cfg, m, w, id, w1);
    hide Act1, News;
    TellMember(cfg, m, w1, id);
  }

  lemma GiveShape(cfg: S.Config, m: Model, w: Whole, id: nat, w1: Whole)
    requires id in w.batch && id in w.e.seqs && w.e.seqs[id].pending.Some? && w1 == w.(e := Apply(m, w.e, Deliver(id)))
    requires id in w1.e.seqs && w1.e.seqs[id].output == w.e.seqs[id].output + [w.e.seqs[id].pending.value]
    requires Even(w) && id in w.l.gen
    ensures Act1(cfg, m, w, RunStep(Deliver(id))) == w1
    ensures News(w1, id) == [w.e.seqs[id].pending.value]
  {
    hide Apply;
  }

  /** A member of a failed batch. */
  lemma FailMember(cfg: S.Config, m: Model, w: Whole, id: nat)
    requires Fine(cfg, m, w) && Even(w) && id in w.e.seqs && !w.e.seqs[id].finished
    ensures var w' := Act1(cfg, m, w, Fail(id));
      && Fine(cfg, m, w') && Even(w') && Square(w', id) && OnlyOne(w, w', id) && w'.batch == w.batch
      && w'.l == L.FailOne(w.l, id) && w'.e == DoFinish(w.e, id, Told(w.l, id))
  {
    hide Fine, L.FailOne, DoFinish, Act1, LS.Others, Even, EvenBut, OnlyOne, Balanced, Sound;
    var w' := Act1(cfg, m, w, Fail(id));
    FailActKeeps(cfg, m, w, id);
    FineParts(cfg, m, w, id);
    FineBlock(cfg, m, w);
    FailShape(cfg, m, w, id);
    LS.FailOneOthers(w.l, id);
    FinishOthers(w.e, id, Told(w.l, id));
    OneChanged(w, w', id, Told(w.l, id));
    AgreedAt(w.l.gen, w.e.seqs, id);
    assert EvenBut(w, id) by { EvenIsBut(w, id); }
    assert w'.l.gen.Keys == w.l.gen.Keys by { SameGens(w, w', id); }
    EvenAgain(cfg, m, w, w', id);
  }

  lemma FailShape(cfg: S.Config, m: Model, w: Whole, id: nat)
    requires id in w.e.seqs && !w.e.seqs[id].finished && w.e.c.bs > 0
    ensures var w' := Act1(cfg, m, w, Fail(id));
      w'.batch == w.batch && w'.l == L.FailOne(w.l, id) && w'.e == DoFinish(w.e, id, Told(w.l, id))
  {
    hide L.FailOne, DoFinish;
    EndIs(m, w.e, id, Told(w.l, id));
  }

  lemma EvenIsBut(w: Whole, id: nat)
    requires Even(w)
    ensures EvenBut(w, id)
  {
  }

  lemma SameGens(w: Whole, w': Whole, id: nat)
    requires OnlyOne(w, w', id)
    ensures w'.l.gen.Keys == w.l.gen.Keys
  {
  }

  // ---------------------------------------------------------------- the burst

  /** The lone member of a batch, with its first token delivered, can burst. */
  lemma LoneBursting(cfg: S.Config, m: Model, w: Whole, id: nat)
    requires Fine(cfg, m, w) && id in w.e.seqs && !w.e.seqs[id].finished
    requires w.e.seqs[id].output != [] && w.e.seqs[id].pending.None?
    ensures Balanced(w.e) && Bursting(w.e, id)
  {
    hide Fine, Good, ColdOk, Balanced;
    FineBlock(cfg, m, w);
    SoundBursts(m, w.e, id);
  }

  lemma SoundBursts(m: Model, e: State, id: nat)
    requires Sound(m, e) && id in e.seqs && !e.seqs[id].finished && e.seqs[id].output != [] && e.seqs[id].pending.None?
    ensures Bursting(e, id)
  {
    hide PagePool.Inv, NodeOk, Reference, ColdOk, KV, WarmPage, DecodePage, Flat;
    assert SeqOk(m, e.c, e.seqs[id]);
  }

  /** A burst of the lone member is a run of allowed steps. */
  lemma {:induction false} BurstFine(cfg: S.Config, m: Model, w: Whole, id: nat, every: bool, n: nat,
                                     brk: Option<Token>)
    requires Fine(cfg, m, w) && w.batch == [id]
    ensures Fine(cfg, m, w.(e := BurstLoop(m, w.e, id, every, n, brk).e))
    decreases n
  {
    hide Fine, Apply, Breaks;
    if n == 0 {
      assert w.(e := w.e) == w;
    } else {
      var e1 := Apply(m, w.e, CheckStep(id, every));
      StepFine(cfg, m, w, CheckStep(id, every));
      var e2 := Apply(m, e1, Forward(id));
      StepFine(cfg, m, w.(e := e1), Forward(id));
      var e3 := Apply(m, e2, Deliver(id));
      StepFine(cfg, m, w.(e := e2), Deliver(id));
      BurstFine(cfg, m, w.(e := e3), id, every, n - 1, brk);
    }
  }

  /** A burst that raised and lost nothing. */
  lemma RaiseMember(cfg: S.Config, m: Model, w: Whole, id: nat)
    requires Fine(cfg, m, w) && EvenBut(w, id) && id in w.e.seqs && !w.e.seqs[id].finished
    requires w.e.seqs[id].pending.None? && News(w, id) != []
    ensures var w' := Act1(cfg, m, w, Raise(id, 0));
      && Fine(cfg, m, w') && Even(w') && Square(w', id) && OnlyOne(w, w', id) && w'.batch == w.batch
      && w'.l == L.KeepOne(w.l, id, News(w, id)) && w'.e == w.e
  {
    hide Fine, News, DoLose, S.DoAdvance;
    RaiseActKeeps(cfg, m, w, id);
    NotLost(m, w.e, id);
    FineParts(cfg, m, w, id);
    NewsAre(w, id);
    assert w.(e := w.e) == w;
    EvenAgain(cfg, m, w, Act1(cfg, m, w, Raise(id, 0)), id);
  }

  // ---------------------------------------------------------------- member by member

  /** Members below `i` are settled, the others are live. */
  ghost predicate Halfway(w: Whole, ids: seq<nat>, i: nat) {
    && (forall j :: 0 <= j < i && j < |ids| ==> Square(w, ids[j]))
    && (forall j :: i <= j < |ids| ==> ids[j] in w.e.seqs && !w.e.seqs[ids[j]].finished)
  }

  /** Members from `i` on hold the sampled token `first` gives them. */
  ghost predicate Sampled(w: Whole, ids: seq<nat>, i: nat, first: nat -> Token) {
    forall j :: i <= j < |ids| ==> ids[j] in w.e.seqs && w.e.seqs[ids[j]].pending == Some(first(ids[j]))
  }

  lemma Onward(w: Whole, w': Whole, ids: seq<nat>, i: nat, first: nat -> Token)
    requires i < |ids| && NoDup(ids) && Halfway(w, ids, i) && OnlyOne(w, w', ids[i]) && Square(w', ids[i])
    ensures Halfway(w', ids, i + 1)
    ensures Sampled(w, ids, i, first) ==> Sampled(w', ids, i + 1, first)
  {
    forall j | 0 <= j < |ids| && j != i
      ensures ids[j] != ids[i]
    {
    }
  }

  /** The news of a lone member after its burst: the first token and those of the burst. */
  lemma BurstNews(w: Whole, w': Whole, id: nat, tok: Token, toks: seq<Token>)
    requires Even(w) && id in w.e.seqs && id in w.l.gen && id in w'.e.seqs && w'.l == w.l
    requires w'.e.seqs[id].output == w.e.seqs[id].output + [tok] + toks
    requires forall j :: j in w'.e.seqs && j != id ==> j in w.e.seqs && w'.e.seqs[j] == w.e.seqs[j]
    ensures News(w', id) == [tok] + toks && EvenBut(w', id)
  {
    assert w.e.seqs[id].output + [tok] + toks == w.e.seqs[id].output + ([tok] + toks);
  }

  // ---------------------------------------------------------------- the queue

  lemma {:induction false} DeliverAllQueue(l: L.State, ids: seq<nat>, first: nat -> Token)
    ensures L.DeliverAll(l, ids, first).queue == l.queue
    decreases |ids|
  {
    hide L.DeliverOne;
    if ids != [] {
      LS.DeliverOneOthers(l, ids[0], [first(ids[0])]);
      DeliverAllQueue(L.DeliverOne(l, ids[0], [first(ids[0])]), ids[1..], first);
    }
  }

  lemma {:induction false} FailAllQueue(l: L.State, ids: seq<nat>)
    ensures L.FailAll(l, ids).queue == l.queue
    decreases |ids|
  {
    hide L.FailOne;
    if ids != [] {
      LS.FailOneOthers(l, ids[0]);
      FailAllQueue(L.FailOne(l, ids[0]), ids[1..]);
    }
  }

  /** A batch leaves the submission queue alone. */
  lemma PumpBatchQueue(cfg: S.Config, l: L.State, burst: nat, o: L.Outcome)
    ensures L.PumpBatch(cfg, l, burst, o).queue == l.queue
  {
    hide L.DeliverOne, L.DeliverAll, L.FailAll, S.FormBatch, S.DoStep, L.Extra;
    var b, l1 := S.FormBatch(cfg, l.s), l.(s := S.DoStep(cfg, l.s));
    FailAllQueue(l1, b.ids);
    match o {
      case Crash =>
      case Tokens(first, more) =>
        DeliverAllQueue(l1, b.ids, first);
        if b.ids != [] {
          var n := L.Extra(l, b, burst);
          LS.DeliverOneOthers(l1, b.ids[0], [first(b.ids[0])] + if n <= |more| then more[..n] else more);
        }
      case Raised(first, kept) => DeliverAllQueue(l1, b.ids, first);
    }
  }
}
