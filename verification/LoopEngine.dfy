/**
 The engine loop over the engine itself: what clients are told is what the model says.  The loop
 admits from its queue, picks batches, lets the runner work, reports the tokens the engine
 delivered, and ends requests; bursts may raise; clients submit, cancel and time out at any point
 in between.
 */
module LoopEngine {
  import opened Prelude
  import opened Paging
  import opened PagePool
  import opened PrefixTree
  import opened Generation
  import opened Engine
  import opened EngineBalance
  import opened ColdBursts
  import opened EngineRuns
  import opened SharedPages
  import opened Serving
  import opened Limits
  import S = Scheduling
  import L = Loop
  import LoopSafety
  import Draining

  datatype Whole = Whole(l: L.State, e: State, batch: seq<nat>)

  datatype Act =
    | Submit(rid: nat, prompt: seq<Token>, params: Params)
    | Cancel(rid: nat)
    | Timeout(rid: nat)
    | BeginDrain
    | AdmitNext(seed: nat)
    | NextBatch
    | RunStep(step: Step)
    | Report(id: nat)
    | Fail(id: nat)
    | Raise(id: nat, lost: nat)

  ghost function AsServer(w: Whole): Server {
    Server(w.l.s, w.e, w.batch, map[])
  }

  /** The engine ends request `id`, keeping `n` tokens. */
  ghost function Ended(m: Model, e: State, id: nat, n: nat): State {
    Apply(m, e, Finish(id, n))
  }

  ghost function Told(l: L.State, id: nat): nat {
    if id in l.gen then |l.gen[id].output| else 0
  }

  /** Tokens delivered by the engine and not reported yet. */
  ghost function News(w: Whole, id: nat): seq<Token> {
    if id in w.e.seqs && id in w.l.gen && |w.l.gen[id].output| <= |w.e.seqs[id].output|
    then w.e.seqs[id].output[|w.l.gen[id].output|..] else []
  }

  ghost function DoStop(m: Model, w: Whole, rid: nat, l': L.State): Whole {
    if rid in w.l.s.byRid && w.l.s.byRid[rid] in w.l.s.table
    then w.(l := l', e := Ended(m, w.e, w.l.s.byRid[rid], Told(w.l, w.l.s.byRid[rid])))
    else w.(l := l')
  }

  ghost function Act1(cfg: S.Config, m: Model, w: Whole, a: Act): Whole {
    match a
    case Submit(rid, prompt, p) => w.(l := L.DoSubmit(w.l, rid, prompt, p))
    case Cancel(rid) => DoStop(m, w, rid, L.DoCancelReq(w.l, rid))
    case Timeout(rid) => DoStop(m, w, rid, L.DoTimeout(w.l, rid))
    case BeginDrain => w.(l := L.DoDrain(w.l))
    case AdmitNext(seed) =>
      if w.l.queue == [] || w.e.c.bs == 0 then w
      else
        var it, l1 := w.l.queue[0], w.l.(queue := w.l.queue[1..]);
        var l' := L.AdmitOne(cfg, l1, it, HitLength(Lookup(w.e.c, it.prompt)));
        if it.rid in w.l.cancelled || !S.Accepts(cfg, w.l.s, |it.prompt|) then w.(l := l')
        else w.(l := l', e := Apply(m, w.e, Admit(w.l.s.nextId, it.prompt, seed)))
    case NextBatch => w.(l := w.l.(s := S.DoStep(cfg, w.l.s)), batch := S.FormBatch(cfg, w.l.s).ids)
    case RunStep(step) =>
      if !Allowed(w.batch, step) || step.id !in w.e.seqs then w else w.(e := Apply(m, w.e, step))
    case Report(id) =>
      if id !in w.e.seqs || w.e.seqs[id].finished || News(w, id) == [] then w
      else
        var l' := L.DeliverOne(w.l, id, News(w, id));
        if id in l'.s.table && l'.s.table[id].finished then w.(l := l', e := Ended(m, w.e, id, Told(l', id)))
        else w.(l := l')
    case Fail(id) =>
      if id !in w.e.seqs || w.e.seqs[id].finished then w
      else w.(l := L.FailOne(w.l, id), e := Ended(m, w.e, id, Told(w.l, id)))
    case Raise(id, lost) =>
      if !Enabled(w.e, Lose(id, lost)) || lost >= |News(w, id)| then w
      else
        var w1 := w.(e := Apply(m, w.e, Lose(id, lost)));
        w1.(l := L.KeepOne(w.l, id, News(w1, id)))
  }

  /** Hits are exact or aligned, and a burst that raises has lost no tokens. */
  ghost predicate Harmless(w: Whole, a: Act) {
    match a
    case AdmitNext(_) => w.l.queue != [] && w.e.c.bs > 0 ==> AlignedHit(w.e.c, w.l.queue[0].prompt)
    case Raise(_, lost) => lost == 0
    case _ => true
  }

  ghost function Acts(cfg: S.Config, m: Model, w: Whole, acts: seq<Act>): Whole
    decreases |acts|
  {
    if acts == [] then w else Act1(cfg, m, Acts(cfg, m, w, acts[..|acts| - 1]), acts[|acts| - 1])
  }

  ghost predicate HarmlessActs(cfg: S.Config, m: Model, w: Whole, acts: seq<Act>) {
    forall i :: 0 <= i < |acts| ==> Harmless(Acts(cfg, m, w, acts[..i]), acts[i])
  }

  // ---------------------------------------------------------------- invariant

  /** What the loop has told is a prefix of what the engine delivered, and all of it at the end. */
  ghost predicate Agreed(gen: map<nat, L.Gen>, seqs: map<nat, Seq>) {
    && gen.Keys == seqs.Keys
    && forall id :: id in gen ==>
         && gen[id].prompt == seqs[id].prompt && gen[id].output <= seqs[id].output
         && (seqs[id].finished ==> gen[id].output == seqs[id].output)
  }

  predicate Answer(f: L.Frame) {
    f.Final? && (f.reason == Length || f.reason == Stopped)
  }

  /** Every answer put on a delta queue is the whole output of a finished request of that id. */
  ghost predicate Backed(gen: map<nat, L.Gen>, seqs: map<nat, Seq>, rid: nat, f: L.Frame) {
    Answer(f) ==>
      exists id :: id in gen && id in seqs && gen[id].rid == rid && seqs[id].finished && f.output == gen[id].output
  }

  ghost predicate Answers(frames: map<nat, seq<L.Frame>>, gen: map<nat, L.Gen>, seqs: map<nat, Seq>) {
    forall rid, i :: rid in frames && 0 <= i < |frames[rid]| ==> Backed(gen, seqs, rid, frames[rid][i])
  }

  ghost predicate Prompts(queue: seq<L.Pending>) {
    forall i :: 0 <= i < |queue| ==> queue[i].prompt != []
  }

  ghost predicate Fine(cfg: S.Config, m: Model, w: Whole) {
    && Served(cfg, m, AsServer(w)) && Agreed(w.l.gen, w.e.seqs)
    && Answers(w.l.frames, w.l.gen, w.e.seqs) && Prompts(w.l.queue)
  }

  /** Finished requests keep their records. */
  ghost predicate Extends(gen: map<nat, L.Gen>, seqs: map<nat, Seq>, gen': map<nat, L.Gen>, seqs': map<nat, Seq>) {
    forall id :: id in gen && id in seqs && seqs[id].finished ==>
      && id in gen' && id in seqs' && seqs'[id].finished
      && gen'[id].rid == gen[id].rid && gen'[id].output == gen[id].output
  }

  lemma AnswersKept(frames: map<nat, seq<L.Frame>>, gen: map<nat, L.Gen>, seqs: map<nat, Seq>, gen': map<nat, L.Gen>,
                    seqs': map<nat, Seq>)
    requires Answers(frames, gen, seqs) && Extends(gen, seqs, gen', seqs')
    ensures Answers(frames, gen', seqs')
  {
    forall rid, i | rid in frames && 0 <= i < |frames[rid]|
      ensures Backed(gen', seqs', rid, frames[rid][i])
    {
      assert Backed(gen, seqs, rid, frames[rid][i]);
    }
  }

  /** One more frame, backed. */
  lemma EmitAnswers(l: L.State, gen: map<nat, L.Gen>, seqs: map<nat, Seq>, rid: nat, f: L.Frame)
    requires Answers(l.frames, gen, seqs) && Backed(gen, seqs, rid, f)
    ensures Answers(L.Emit(l, rid, f).frames, gen, seqs)
  {
    hide Backed;
  }

  lemma EmitRest(l: L.State, rid: nat, f: L.Frame)
    ensures var l' := L.Emit(l, rid, f); l' == l.(frames := l'.frames, open := l'.open)
  {
  }

  // ---------------------------------------------------------------- ending a request

  /** Records after a request ended with what it was told. */
  lemma EndAgreed(m: Model, gen: map<nat, L.Gen>, e: State, id: nat, out: seq<Token>)
    requires Agreed(gen, e.seqs) && id in e.seqs && !e.seqs[id].finished && e.c.bs > 0
    requires out <= e.seqs[id].output
    ensures var e', gen' := Ended(m, e, id, |out|), gen[id := gen[id].(output := out)];
      && Agreed(gen', e'.seqs) && Extends(gen, e.seqs, gen', e'.seqs)
      && id in e'.seqs && e'.seqs[id].finished
  {
    hide Release;
  }

  lemma EndServed(cfg: S.Config, m: Model, w: Whole, id: nat, n: nat, s': S.Sched)
    requires Served(cfg, m, AsServer(w)) && id in w.e.seqs && !w.e.seqs[id].finished && S.Inv(cfg, s')
    requires s'.table.Keys == w.l.s.table.Keys && id in s'.table && s'.table[id].finished
    requires forall j :: j in w.l.s.table && j != id ==> s'.table[j] == w.l.s.table[j]
    requires forall j :: j in s'.waiting ==> j in w.l.s.waiting && j != id
    requires forall j :: j in s'.running ==> j in w.l.s.running
    ensures Served(cfg, m, Server(s', Ended(m, w.e, id, n), w.batch, map[]))
  {
    hide Sound, Strata, Apply, S.Inv, Balanced, Good, ColdOk, Waits;
    SoundBalanced(m, w.e);
    EndFrame(m, w.e, id, n);
    ApplyOk(m, w.e, Finish(id, n));
    ApplyStrata(m, w.e, Finish(id, n));
  }

  lemma StopKeeps(cfg: S.Config, m: Model, w: Whole, rid: nat, l': L.State)
    requires Fine(cfg, m, w)
    requires l' == w.l.(s := S.DoCancel(w.l.s, rid), cancelled := l'.cancelled, frames := l'.frames, open := l'.open)
    requires Answers(l'.frames, w.l.gen, w.e.seqs)
    ensures Fine(cfg, m, DoStop(m, w, rid, l'))
  {
    hide Answers, Agreed, Served, S.Inv, Extends, Ended;
    S.CancelKeeps(cfg, w.l.s, rid) by { ServedInv(cfg, m, AsServer(w)); }
    ServedInv(cfg, m, AsServer(w));
    if rid in w.l.s.byRid && w.l.s.byRid[rid] in w.l.s.table {
      var id := w.l.s.byRid[rid];
      CancelSched(w.l.s, rid);
      if w.e.seqs[id].finished {
        EndNothing(m, w.e, id, Told(w.l, id));
        CancelServed(cfg, m, AsServer(w), S.DoCancel(w.l.s, rid), id);
      } else {
        EndServed(cfg, m, w, id, Told(w.l, id), S.DoCancel(w.l.s, rid));
        AgreedAt(w.l.gen, w.e.seqs, id);
        EndAgreed(m, w.l.gen, w.e, id, w.l.gen[id].output);
        assert w.l.gen[id := w.l.gen[id].(output := w.l.gen[id].output)] == w.l.gen;
        AnswersKept(l'.frames, w.l.gen, w.e.seqs, w.l.gen, Ended(m, w.e, id, Told(w.l, id)).seqs);
      }
    }
  }

  lemma AgreedAt(gen: map<nat, L.Gen>, seqs: map<nat, Seq>, id: nat)
    requires Agreed(gen, seqs) && id in seqs
    ensures id in gen && gen[id].output <= seqs[id].output && gen[id].prompt == seqs[id].prompt
  {
  }

  lemma ServedInv(cfg: S.Config, m: Model, v: Server)
    requires Served(cfg, m, v)
    ensures S.Inv(cfg, v.s) && v.e.c.bs > 0 && v.e.seqs.Keys == v.s.table.Keys
    ensures forall id :: id in v.e.seqs ==> v.e.seqs[id].finished == v.s.table[id].finished
  {
    hide S.Inv, Strata, Good;
  }

  lemma EndNothing(m: Model, e: State, id: nat, n: nat)
    requires id in e.seqs && e.seqs[id].finished
    ensures Ended(m, e, id, n) == e
  {
  }

  /** What cancelling changes in the scheduler. */
  lemma CancelSched(s: S.Sched, rid: nat)
    requires rid in s.byRid && s.byRid[rid] in s.table
    ensures var id, s' := s.byRid[rid], S.DoCancel(s, rid);
      && s'.table.Keys == s.table.Keys && s'.table[id].finished
      && (forall j :: j in s.table && j != id ==> s'.table[j] == s.table[j])
      && (forall j :: j in s'.waiting ==> j in s.waiting && j != id) && (forall j :: j in s'.running ==> j in s.running)
  {
  }

  lemma CancelServed(cfg: S.Config, m: Model, v: Server, s': S.Sched, id: nat)
    requires Served(cfg, m, v) && S.Inv(cfg, s') && id in v.e.seqs && v.e.seqs[id].finished
    requires s'.table.Keys == v.s.table.Keys && s'.table[id].finished
    requires forall j :: j in v.s.table && j != id ==> s'.table[j] == v.s.table[j]
    requires forall j :: j in s'.waiting ==> j in v.s.waiting && j != id
    requires forall j :: j in s'.running ==> j in v.s.running
    ensures Served(cfg, m, v.(s := s'))
  {
    hide Sound, Strata, S.Inv, Waits;
  }

  // ---------------------------------------------------------------- the acts

  lemma CancelActKeeps(cfg: S.Config, m: Model, w: Whole, rid: nat)
    requires Fine(cfg, m, w)
    ensures Fine(cfg, m, Act1(cfg, m, w, Cancel(rid))) && Fine(cfg, m, Act1(cfg, m, w, Timeout(rid)))
  {
    hide Fine, L.Emit, S.DoCancel, DoStop;
    var l1 := w.l.(cancelled := w.l.cancelled + {rid}, s := S.DoCancel(w.l.s, rid));
    var l2 := w.l.(s := S.DoCancel(w.l.s, rid));
    var f1, f2 := L.Final(Cancelled, []), L.Final(TimedOut, []);
    assert Answers(w.l.frames, w.l.gen, w.e.seqs) by { FineAnswers(cfg, m, w); }
    EmitAnswers(l1, w.l.gen, w.e.seqs, rid, f1);
    EmitAnswers(l2, w.l.gen, w.e.seqs, rid, f2);
    EmitRest(l1, rid, f1);
    EmitRest(l2, rid, f2);
    StopKeeps(cfg, m, w, rid, L.Emit(l1, rid, f1));
    StopKeeps(cfg, m, w, rid, L.Emit(l2, rid, f2));
  }

  lemma FineAnswers(cfg: S.Config, m: Model, w: Whole)
    requires Fine(cfg, m, w)
    ensures Answers(w.l.frames, w.l.gen, w.e.seqs)
  {
  }

  lemma SubmitActKeeps(cfg: S.Config, m: Model, w: Whole, rid: nat, prompt: seq<Token>, p: Params)
    requires Fine(cfg, m, w)
    ensures Fine(cfg, m, Act1(cfg, m, w, Submit(rid, prompt, p)))
  {
    hide Served, Agreed, Backed;
  }

  lemma AdmitActKeeps(cfg: S.Config, m: Model, w: Whole, seed: nat)
    requires Fine(cfg, m, w) && Harmless(w, AdmitNext(seed))
    ensures Fine(cfg, m, Act1(cfg, m, w, AdmitNext(seed)))
  {
    hide Served, S.Inv, Answers, L.Emit, S.DoAdd, AlignedHit, Lookup, Apply, S.Accepts;
    if w.l.queue != [] && w.e.c.bs > 0 {
      var it, l1 := w.l.queue[0], w.l.(queue := w.l.queue[1..]);
      var hit := HitLength(Lookup(w.e.c, it.prompt));
      if it.rid in w.l.cancelled {
      } else if !S.Accepts(cfg, w.l.s, |it.prompt|) {
        EmitAnswers(l1, w.l.gen, w.e.seqs, it.rid, L.Final(Failed, []));
        EmitRest(l1, it.rid, L.Final(Failed, []));
      } else {
        AdmitAccepted(cfg, m, w, it, seed);
      }
    }
  }

  /** The head of the queue becomes a request of scheduler, engine and loop. */
  lemma AdmitAccepted(cfg: S.Config, m: Model, w: Whole, it: L.Pending, seed: nat)
    requires Fine(cfg, m, w) && w.e.c.bs > 0 && it.prompt != [] && S.Accepts(cfg, w.l.s, |it.prompt|)
    requires AlignedHit(w.e.c, it.prompt)
    ensures var id, hit := w.l.s.nextId, HitLength(Lookup(w.e.c, it.prompt));
      var e', gen' := Apply(m, w.e, Admit(id, it.prompt, seed)), w.l.gen[id := L.Gen(it.rid, it.prompt, it.params, [])];
      && Served(cfg, m, Server(S.DoAdd(cfg, w.l.s, it.rid, |it.prompt|, hit), e', w.batch, map[]))
      && Agreed(gen', e'.seqs) && Answers(w.l.frames, gen', e'.seqs)
  {
    hide Served, S.Inv, Answers, S.DoAdd, AlignedHit, Lookup, Apply, S.Accepts, Agreed, Extends, Prompts;
    var id, hit := w.l.s.nextId, HitLength(Lookup(w.e.c, it.prompt));
    var e', gen' := Apply(m, w.e, Admit(id, it.prompt, seed)), w.l.gen[id := L.Gen(it.rid, it.prompt, it.params, [])];
    ServedInv(cfg, m, AsServer(w));
    AddSched(cfg, w.l.s, it.rid, |it.prompt|, hit);
    AddFrame(m, w.e, id, it.prompt, seed);
    AddPrompt(m, w.e, id, it.prompt, seed);
    AddKeeps(cfg, m, AsServer(w), it.rid, it.prompt, seed);
    AddIsDo(cfg, m, AsServer(w), it.rid, it.prompt, seed);
    AddAgreed(w.l.gen, w.e.seqs, id, gen', e'.seqs);
    AnswersKept(w.l.frames, w.l.gen, w.e.seqs, gen', e'.seqs);
  }

  lemma AddAgreed(gen: map<nat, L.Gen>, seqs: map<nat, Seq>, id: nat, gen': map<nat, L.Gen>, seqs': map<nat, Seq>)
    requires Agreed(gen, seqs) && id !in seqs && id in gen' && gen' == gen[id := gen'[id]] && gen'[id].output == []
    requires seqs'.Keys == seqs.Keys + {id} && seqs'[id].prompt == gen'[id].prompt && seqs'[id].output == []
    requires forall j :: j in seqs ==> seqs'[j] == seqs[j]
    ensures Agreed(gen', seqs') && Extends(gen, seqs, gen', seqs')
  {
  }

  lemma AddPrompt(m: Model, e: State, id: nat, prompt: seq<Token>, seed: nat)
    requires id !in e.seqs && prompt != [] && e.c.bs > 0
    ensures var e' := Apply(m, e, Admit(id, prompt, seed));
      id in e'.seqs && e'.seqs[id].prompt == prompt && e'.seqs[id].output == []
  {
    hide Lookup;
  }

  lemma AddIsDo(cfg: S.Config, m: Model, v: Server, rid: nat, prompt: seq<Token>, seed: nat)
    requires v.e.c.bs > 0 && prompt != [] && S.Accepts(cfg, v.s, |prompt|)
    ensures Do(cfg, m, v, Add(rid, prompt, seed))
         == v.(s := S.DoAdd(cfg, v.s, rid, |prompt|, HitLength(Lookup(v.e.c, prompt))),
               e := Apply(m, v.e, Admit(v.s.nextId, prompt, seed)))
  {
    hide Apply, Lookup;
  }

  lemma PickActKeeps(cfg: S.Config, m: Model, w: Whole)
    requires Fine(cfg, m, w)
    ensures Fine(cfg, m, Act1(cfg, m, w, NextBatch))
  {
    hide Served, Agreed, Answers, S.DoStep, S.FormBatch;
    PickKeeps(cfg, m, AsServer(w));
    assert Do(cfg, m, AsServer(w), Pick) == AsServer(Act1(cfg, m, w, NextBatch));
  }

  /** A runner step never shortens an output. */
  lemma WorkGrows(m: Model, e: State, step: Step)
    requires step.id in e.seqs && (step.Prepare? || step.Forward? || step.Deliver? || step.Burst?)
    ensures var e' := Apply(m, e, step);
      && step.id in e'.seqs && e.seqs[step.id].output <= e'.seqs[step.id].output
      && e'.seqs[step.id].prompt == e.seqs[step.id].prompt
  {
    hide Ensure, Allocator.Cow, Insert, Write, Flat, Extend, Covers;
  }

  lemma WorkActKeeps(cfg: S.Config, m: Model, w: Whole, step: Step)
    requires Fine(cfg, m, w)
    ensures Fine(cfg, m, Act1(cfg, m, w, RunStep(step)))
  {
    hide Served, Answers, Apply;
    if Allowed(w.batch, step) && step.id in w.e.seqs {
      WorkEngine(cfg, m, AsServer(w), step);
      WorkFrame(m, w.e, step);
      WorkGrows(m, w.e, step);
      AnswersKept(w.l.frames, w.l.gen, w.e.seqs, w.l.gen, Apply(m, w.e, step).seqs);
    }
  }

  lemma FailActKeeps(cfg: S.Config, m: Model, w: Whole, id: nat)
    requires Fine(cfg, m, w)
    ensures Fine(cfg, m, Act1(cfg, m, w, Fail(id)))
  {
    hide Served, Answers, L.Emit, S.Inv, S.DoFinish, Ended, Agreed, Extends;
    if id in w.e.seqs && !w.e.seqs[id].finished {
      ServedInv(cfg, m, AsServer(w));
      AgreedAt(w.l.gen, w.e.seqs, id);
      var g := w.l.gen[id];
      var l1, f := w.l.(s := S.DoFinish(w.l.s, id)), L.Final(Failed, g.output);
      EmitAnswers(l1, w.l.gen, w.e.seqs, g.rid, f);
      EmitRest(l1, g.rid, f);
      EndSched(w.l.s, id);
      S.FinishKeeps(cfg, w.l.s, id);
      EndServed(cfg, m, w, id, |g.output|, S.DoFinish(w.l.s, id));
      EndAgreed(m, w.l.gen, w.e, id, g.output);
      assert w.l.gen[id := g.(output := g.output)] == w.l.gen;
      AnswersKept(L.Emit(l1, g.rid, f).frames, w.l.gen, w.e.seqs, w.l.gen, Ended(m, w.e, id, |g.output|).seqs);
    }
  }

  // ---------------------------------------------------------------- reports

  lemma AdvanceSched(cfg: S.Config, s: S.Sched, id: nat, n: nat)
    requires S.Inv(cfg, s) && id in s.table
    ensures var s' := S.DoAdvance(s, id, n);
      && S.Inv(cfg, s') && s'.table.Keys == s.table.Keys && s'.waiting == s.waiting && s'.running == s.running
      && (forall j :: j in s.table && j != id ==> s'.table[j] == s.table[j])
      && s'.table[id].finished == s.table[id].finished
  {
    S.AdvanceKeeps(cfg, s, id, n);
  }

  /** A report that goes on. */
  lemma ReportGoes(cfg: S.Config, m: Model, w: Whole, id: nat, out: seq<Token>, s': S.Sched, f: L.Frame)
    requires Fine(cfg, m, w) && id in w.e.seqs && !w.e.seqs[id].finished && id in w.l.gen && out == w.e.seqs[id].output
    requires f.Delta? && out != [] && s' == S.DoAdvance(w.l.s, id, |w.l.gen[id].prompt| + |out|)
    ensures var g := w.l.gen[id];
      Fine(cfg, m, w.(l := L.Emit(w.l.(s := s', gen := w.l.gen[id := g.(output := out)]), g.rid, f)))
  {
    hide Served, Answers, L.Emit, S.Inv, S.DoAdvance;
    var g := w.l.gen[id];
    var gen' := w.l.gen[id := g.(output := out)];
    var l1 := w.l.(s := s', gen := gen');
    ServedInv(cfg, m, AsServer(w));
    AdvanceSched(cfg, w.l.s, id, |g.prompt| + |out|);
    AdvanceServed(cfg, m, AsServer(w), s', id);
    AnswersKept(w.l.frames, w.l.gen, w.e.seqs, gen', w.e.seqs);
    EmitAnswers(l1, gen', w.e.seqs, g.rid, f);
    EmitRest(l1, g.rid, f);
  }

  lemma AdvanceServed(cfg: S.Config, m: Model, v: Server, s': S.Sched, id: nat)
    requires Served(cfg, m, v) && S.Inv(cfg, s') && s'.table.Keys == v.s.table.Keys
    requires s'.waiting == v.s.waiting && s'.running == v.s.running && id in v.e.seqs && v.e.seqs[id].output != []
    requires forall j :: j in v.s.table && j != id ==> s'.table[j] == v.s.table[j]
    requires s'.table[id].finished == v.s.table[id].finished
    ensures Served(cfg, m, v.(s := s'))
  {
    hide Sound, Strata, S.Inv;
  }

  /** A report that ends the request with output `out`. */
  lemma ReportEnds(cfg: S.Config, m: Model, w: Whole, id: nat, out: seq<Token>, s: S.Sched, f: L.Frame)
    requires Fine(cfg, m, w) && id in w.e.seqs && !w.e.seqs[id].finished && id in w.l.gen && out <= w.e.seqs[id].output
    requires s == w.l.s || exists n: nat :: s == S.DoAdvance(w.l.s, id, n)
    requires f.Final? && (Answer(f) ==> f.output == out)
    ensures var g := w.l.gen[id];
      Fine(cfg, m, w.(l := L.Emit(w.l.(s := S.DoFinish(s, id), gen := w.l.gen[id := g.(output := out)]), g.rid, f),
                      e := Ended(m, w.e, id, |out|)))
  {
    hide Served, Answers, L.Emit, S.Inv, S.DoAdvance, S.DoFinish, Ended, Agreed, Extends;
    var g := w.l.gen[id];
    var gen', e' := w.l.gen[id := g.(output := out)], Ended(m, w.e, id, |out|);
    var l1 := w.l.(s := S.DoFinish(s, id), gen := gen');
    ServedInv(cfg, m, AsServer(w));
    if s != w.l.s {
      var n: nat :| s == S.DoAdvance(w.l.s, id, n);
      AdvanceSched(cfg, w.l.s, id, n);
    }
    EndSched(s, id);
    S.FinishKeeps(cfg, s, id);
    EndServed(cfg, m, w, id, |out|, S.DoFinish(s, id));
    EndAgreed(m, w.l.gen, w.e, id, out);
    AnswersKept(w.l.frames, w.l.gen, w.e.seqs, gen', e'.seqs);
    EmitAnswers(l1, gen', e'.seqs, g.rid, f);
    EmitRest(l1, g.rid, f);
  }

  lemma KeepServed(cfg: S.Config, m: Model, w: Whole, id: nat, s': S.Sched, gen': map<nat, L.Gen>)
    requires Fine(cfg, m, w) && id in w.e.seqs && !w.e.seqs[id].finished && w.e.seqs[id].output != []
    requires id in w.l.gen && gen' == w.l.gen[id := w.l.gen[id].(output := w.e.seqs[id].output)]
    requires s' == S.DoAdvance(w.l.s, id, |w.l.gen[id].prompt| + |w.e.seqs[id].output|)
    ensures Fine(cfg, m, w.(l := w.l.(s := s', gen := gen')))
  {
    hide Served, Answers, S.Inv, S.DoAdvance;
    ServedInv(cfg, m, AsServer(w));
    AdvanceSched(cfg, w.l.s, id, |w.l.gen[id].prompt| + |w.e.seqs[id].output|);
    AdvanceServed(cfg, m, AsServer(w), s', id);
    AnswersKept(w.l.frames, w.l.gen, w.e.seqs, gen', w.e.seqs);
  }

  /** A burst that raises and loses nothing: the loop knows the tokens, and no frame is sent. */
  lemma RaiseActKeeps(cfg: S.Config, m: Model, w: Whole, id: nat)
    requires Fine(cfg, m, w)
    ensures Fine(cfg, m, Act1(cfg, m, w, Raise(id, 0)))
  {
    hide Fine, Served, Answers, DoLose, News, S.DoAdvance, Agreed;
    if Enabled(w.e, Lose(id, 0)) && News(w, id) != [] {
      FineParts(cfg, m, w, id);
      NewsAre(w, id);
      NotLost(m, w.e, id);
      var g, out := w.l.gen[id], w.e.seqs[id].output;
      KeepServed(cfg, m, w, id, S.DoAdvance(w.l.s, id, |g.prompt| + |out|), w.l.gen[id := g.(output := out)]);
    }
  }

  lemma NotLost(m: Model, e: State, id: nat)
    requires id in e.seqs
    ensures Apply(m, e, Lose(id, 0)) == e
  {
    hide DoLose;
    LoseNothing(e, id);
  }

  lemma NewsAre(w: Whole, id: nat)
    requires Agreed(w.l.gen, w.e.seqs) && id in w.e.seqs
    ensures id in w.l.gen && w.l.gen[id].output + News(w, id) == w.e.seqs[id].output
  {
  }

  lemma ReportActKeeps(cfg: S.Config, m: Model, w: Whole, id: nat)
    requires Fine(cfg, m, w)
    ensures Fine(cfg, m, Act1(cfg, m, w, Report(id)))
  {
    hide Fine, Served, Answers, L.Emit, S.Inv, S.DoAdvance, S.DoFinish, Ended, Agreed, JudgeAll, News;
    if id in w.e.seqs && !w.e.seqs[id].finished && News(w, id) != [] {
      FineParts(cfg, m, w, id);
      NewsAre(w, id);
      var g, toks := w.l.gen[id], News(w, id);
      var out := w.e.seqs[id].output;
      var s1 := S.DoAdvance(w.l.s, id, |g.prompt| + |out|);
      if g.rid in w.l.cancelled {
        var f := L.Final(Cancelled, []);
        ReportEnds(cfg, m, w, id, g.output, w.l.s, f);
        assert w.l.gen[id := g.(output := g.output)] == w.l.gen;
        EndMarks(w.l.s, id);
        EmitRest(w.l.(s := S.DoFinish(w.l.s, id)), g.rid, f);
      } else {
        AdvanceMarks(w.l.s, id, |g.prompt| + |out|);
        match JudgeAll(g.params, out, toks) {
          case Go =>
            ReportGoes(cfg, m, w, id, out, s1, L.Delta(toks));
            EmitRest(w.l.(s := s1, gen := w.l.gen[id := g.(output := out)]), g.rid, L.Delta(toks));
          case Stop(r, o) =>
            ReportEnds(cfg, m, w, id, o, s1, L.Final(r, o));
            EndMarks(s1, id);
            EmitRest(w.l.(s := S.DoFinish(s1, id), gen := w.l.gen[id := g.(output := o)]), g.rid, L.Final(r, o));
        }
      }
    }
  }

  lemma FineParts(cfg: S.Config, m: Model, w: Whole, id: nat)
    requires Fine(cfg, m, w) && id in w.e.seqs
    ensures Agreed(w.l.gen, w.e.seqs) && id in w.l.s.table && w.l.s.table[id].finished == w.e.seqs[id].finished
  {
    hide Agreed, Answers;
    ServedInv(cfg, m, AsServer(w));
  }

  lemma EndMarks(s: S.Sched, id: nat)
    requires id in s.table
    ensures id in S.DoFinish(s, id).table && S.DoFinish(s, id).table[id].finished
  {
  }

  lemma AdvanceMarks(s: S.Sched, id: nat, n: nat)
    requires id in s.table
    ensures id in S.DoAdvance(s, id, n).table && S.DoAdvance(s, id, n).table[id].finished == s.table[id].finished
  {
  }

  // ---------------------------------------------------------------- runs

  ghost predicate Start(w: Whole) {
    w.l == Draining.Empty && Fresh(w.e) && w.batch == []
  }

  lemma StartIsFine(cfg: S.Config, m: Model, w: Whole)
    requires Start(w)
    ensures Fine(cfg, m, w)
  {
    hide Served;
    NewIsServed(cfg, m, AsServer(w));
  }

  lemma ActKeeps(cfg: S.Config, m: Model, w: Whole, a: Act)
    requires Fine(cfg, m, w) && Harmless(w, a)
    ensures Fine(cfg, m, Act1(cfg, m, w, a))
  {
    match a {
      case Submit(rid, prompt, p) => hide Fine, Act1; SubmitActKeeps(cfg, m, w, rid, prompt, p);
      case Cancel(rid) => hide Fine, Act1; CancelActKeeps(cfg, m, w, rid);
      case Timeout(rid) => hide Fine, Act1; CancelActKeeps(cfg, m, w, rid);
      case BeginDrain => hide Served, Agreed, Answers;
      case AdmitNext(seed) => hide Fine, Act1; AdmitActKeeps(cfg, m, w, seed);
      case NextBatch => hide Fine, Act1; PickActKeeps(cfg, m, w);
      case RunStep(step) => hide Fine, Act1; WorkActKeeps(cfg, m, w, step);
      case Report(id) => hide Fine, Act1; ReportActKeeps(cfg, m, w, id);
      case Fail(id) => hide Fine, Act1; FailActKeeps(cfg, m, w, id);
      case Raise(id, lost) => hide Fine, Act1; RaiseActKeeps(cfg, m, w, id);
    }
  }

  lemma {:induction false} ActsKeep(cfg: S.Config, m: Model, w: Whole, acts: seq<Act>)
    requires Start(w) && HarmlessActs(cfg, m, w, acts)
    ensures Fine(cfg, m, Acts(cfg, m, w, acts))
    decreases |acts|
  {
    hide Fine, Start, Act1, Harmless;
    if acts == [] {
      StartIsFine(cfg, m, w);
    } else {
      var n := |acts| - 1;
      var front := acts[..n];
      forall i | 0 <= i < |front|
        ensures Harmless(Acts(cfg, m, w, front[..i]), front[i])
      {
        assert front[..i] == acts[..i];
      }
      ActsKeep(cfg, m, w, front);
      assert Harmless(Acts(cfg, m, w, front), acts[n]);
      ActKeeps(cfg, m, Acts(cfg, m, w, front), acts[n]);
    }
  }

  /** `out` is the reference generation of the prompt of request `id`. */
  ghost predicate Faithful(m: Model, u: Whole, id: nat, out: seq<Token>) {
    id in u.l.gen && id in u.e.seqs && out == Reference(m, u.e.seqs[id].seed, u.l.gen[id].prompt, |out|)
  }

  /** `out` is the reference generation for some request made under the id `rid`. */
  ghost predicate Answered(m: Model, u: Whole, rid: nat, out: seq<Token>) {
    exists id :: Faithful(m, u, id, out) && u.l.gen[id].rid == rid
  }

  /**
   Whatever is submitted, cancelled, batched, evicted or burst: every answer a client receives
   (a final frame for length or stop) is the reference generation of a prompt submitted under
   that request id, and so is, at any time, all that a request has been told.  Hits are exact or
   aligned, and bursts may raise as long as their tokens are not lost with the ring.
   */
  lemma ClientsGetReference(cfg: S.Config, m: Model, w: Whole, acts: seq<Act>, rid: nat, i: nat)
    requires Start(w) && HarmlessActs(cfg, m, w, acts)
    ensures var u := Acts(cfg, m, w, acts);
      && (forall id :: id in u.l.gen ==> Faithful(m, u, id, u.l.gen[id].output))
      && (rid in u.l.frames && i < |u.l.frames[rid]| ==>
            var f := u.l.frames[rid][i]; Answer(f) ==> Answered(m, u, rid, f.output))
  {
    hide Acts, Start, HarmlessActs, Fine, Faithful;
    ActsKeep(cfg, m, w, acts);
    FineTells(cfg, m, Acts(cfg, m, w, acts), rid, i);
  }

  /** In a fine state all that was told is reference generation. */
  lemma FineTells(cfg: S.Config, m: Model, u: Whole, rid: nat, i: nat)
    requires Fine(cfg, m, u)
    ensures forall id :: id in u.l.gen ==> Faithful(m, u, id, u.l.gen[id].output)
    ensures rid in u.l.frames && i < |u.l.frames[rid]| && Answer(u.l.frames[rid][i]) ==>
              Answered(m, u, rid, u.l.frames[rid][i].output)
  {
    hide Served, Faithful;
    forall id | id in u.l.gen
      ensures Faithful(m, u, id, u.l.gen[id].output)
    {
      ToldIsReference(cfg, m, u, id);
    }
    if rid in u.l.frames && i < |u.l.frames[rid]| && Answer(u.l.frames[rid][i]) {
      assert Backed(u.l.gen, u.e.seqs, rid, u.l.frames[rid][i]);
    }
  }

  lemma ToldIsReference(cfg: S.Config, m: Model, u: Whole, id: nat)
    requires Served(cfg, m, AsServer(u)) && Agreed(u.l.gen, u.e.seqs) && id in u.l.gen
    ensures Faithful(m, u, id, u.l.gen[id].output)
  {
    hide Sound, Strata, S.Inv, Linked, Reference;
    var s := u.e.seqs[id];
    SoundOutput(m, u.e, id);
    ReferencePrefix(m, s.seed, s.prompt, |s.output|, |u.l.gen[id].output|);
  }
}
