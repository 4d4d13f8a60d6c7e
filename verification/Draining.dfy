/**
 Draining: pumping lowers the work left whenever there is any, raise or not, so a loop that is
 pumped on becomes idle, and an idle loop has put exactly one final frame, last, on the queue of
 every submitted request.
 */
module Draining {
  import opened Prelude
  import opened Scheduling
  import opened Limits
  import opened Loop
  import opened LoopSafety

  // ---------------------------------------------------------------- sums

  lemma {:induction false} SumSame(gen: map<nat, Gen>, gen': map<nat, Gen>, l: seq<nat>)
    requires forall i :: 0 <= i < |l| ==> Left(gen', l[i]) == Left(gen, l[i])
    ensures SumLeft(gen', l) == SumLeft(gen, l)
    decreases |l|
  {
    if l != [] {
      SumSame(gen, gen', l[1..]);
    }
  }

  lemma {:induction false} SumConcat(gen: map<nat, Gen>, a: seq<nat>, b: seq<nat>)
    ensures SumLeft(gen, a + b) == SumLeft(gen, a) + SumLeft(gen, b)
    decreases |a|
  {
    if a == [] {
      assert a + b == b;
    } else {
      SumConcat(gen, a[1..], b);
      assert (a + b)[1..] == a[1..] + b;
    }
  }

  /** Only `id` owes a different number of tokens. */
  ghost predicate OnlyAt(gen: map<nat, Gen>, gen': map<nat, Gen>, id: nat) {
    forall j :: j != id ==> Left(gen', j) == Left(gen, j)
  }

  lemma {:induction false} SumAt(gen: map<nat, Gen>, gen': map<nat, Gen>, l: seq<nat>, id: nat)
    requires NoDup(l) && OnlyAt(gen, gen', id) && id in l
    ensures SumLeft(gen', l) == SumLeft(gen, l) - Left(gen, id) + Left(gen', id)
    decreases |l|
  {
    if l[0] == id {
      SumSame(gen, gen', l[1..]);
    } else {
      SumAt(gen, gen', l[1..], id);
    }
  }

  lemma {:induction false} SumDrop(gen: map<nat, Gen>, l: seq<nat>, id: nat)
    requires NoDup(l) && id in l
    ensures SumLeft(gen, Without(l, id)) == SumLeft(gen, l) - Left(gen, id)
    decreases |l|
  {
    if l[0] == id {
      WithoutAbsent(l[1..], id);
    } else {
      SumDrop(gen, l[1..], id);
    }
  }

  lemma {:induction false} WithoutAbsent(l: seq<nat>, id: nat)
    requires id !in l
    ensures Without(l, id) == l
    decreases |l|
  {
    if l != [] {
      WithoutAbsent(l[1..], id);
    }
  }

  // ---------------------------------------------------------------- work per step

  /** A live running request is queued nowhere else. */
  lemma RunningOnly(cfg: Config, s: Sched, id: nat)
    requires Inv(cfg, s) && id in s.running
    ensures id !in s.waiting && NoDup(s.running)
  {
  }

  lemma FinishWork(cfg: Config, l: State, id: nat, gen': map<nat, Gen>)
    requires Inv(cfg, l.s) && id in l.s.running && id in l.s.table && OnlyAt(l.gen, gen', id) && Left(l.gen, id) >= 1
    ensures Work(l.(s := DoFinish(l.s, id), gen := gen')) < Work(l)
  {
    hide Inv, Left;
    RunningOnly(cfg, l.s, id);
    WithoutAbsent(l.s.waiting, id);
    SumDrop(l.gen, l.s.running, id);
    var rest := Without(l.s.running, id);
    SumSame(l.gen, gen', rest);
    SumSame(l.gen, gen', l.s.waiting);
  }

  lemma GoWork(cfg: Config, l: State, id: nat, cached: nat, gen': map<nat, Gen>)
    requires Inv(cfg, l.s) && id in l.s.running && OnlyAt(l.gen, gen', id) && Left(gen', id) < Left(l.gen, id)
    ensures Work(l.(s := DoAdvance(l.s, id, cached), gen := gen')) < Work(l)
  {
    hide Inv, Left;
    RunningOnly(cfg, l.s, id);
    SumAt(l.gen, gen', l.s.running, id);
    SumSame(l.gen, gen', l.s.waiting);
  }

  lemma EmitWork(l: State, rid: nat, f: Frame)
    ensures Work(Emit(l, rid, f)) == Work(l)
  {
  }

  /** Every batch member that is settled lowers the work by at least one token. */
  lemma DeliverWork(cfg: Config, l: State, id: nat, toks: seq<Token>)
    requires LoopInv(cfg, l) && id in l.s.running && id in l.gen && toks != []
    ensures Work(DeliverOne(l, id, toks)) < Work(l)
  {
    hide Inv, Emit, Work, DoFinish, DoAdvance, JudgeAll, Queued, FramesOk, OpenAttended;
    RunningLive(cfg, l.s, id);
    var g := l.gen[id];
    var out := g.output + toks;
    var cached := |g.prompt| + |out|;
    if g.rid in l.cancelled {
      FinishWork(cfg, l, id, l.gen);
      EmitWork(l.(s := DoFinish(l.s, id)), g.rid, Final(Cancelled, []));
    } else {
      match JudgeAll(g.params, out, toks) {
        case Go =>
          var gen' := l.gen[id := g.(output := out)];
          GoWork(cfg, l, id, cached, gen');
          EmitWork(l.(s := DoAdvance(l.s, id, cached), gen := gen'), g.rid, Delta(toks));
        case Stop(r, o) =>
          var gen' := l.gen[id := g.(output := o)];
          AdvanceKeeps(cfg, l.s, id, cached);
          var l1 := l.(s := DoAdvance(l.s, id, cached));
          AdvanceLists(l.s, id, cached);
          FinishWork(cfg, l1, id, gen');
          SameWork(l, l1);
          EmitWork(l1.(s := DoFinish(l1.s, id), gen := gen'), g.rid, Final(r, o));
      }
    }
  }

  /** A raising burst still lowers the work: its first token counts. */
  lemma KeepWork(cfg: Config, l: State, id: nat, toks: seq<Token>)
    requires LoopInv(cfg, l) && id in l.s.running && id in l.gen && toks != []
    ensures Work(KeepOne(l, id, toks)) < Work(l)
  {
    hide Inv, Work, DoAdvance, Queued, FramesOk, OpenAttended;
    RunningLive(cfg, l.s, id);
    var g := l.gen[id];
    var out := g.output + toks;
    GoWork(cfg, l, id, |g.prompt| + |out|, l.gen[id := g.(output := out)]);
  }

  lemma SameWork(l: State, l': State)
    requires l'.gen == l.gen && l'.queue == l.queue && l'.s.waiting == l.s.waiting && l'.s.running == l.s.running
    ensures Work(l') == Work(l)
  {
  }

  lemma AdvanceLists(s: Sched, id: nat, cached: nat)
    ensures var s' := DoAdvance(s, id, cached);
      s'.running == s.running && s'.waiting == s.waiting && s'.table.Keys == s.table.Keys
  {
  }

  lemma RunningLive(cfg: Config, s: Sched, id: nat)
    requires Inv(cfg, s) && id in s.running
    ensures id in s.table && !s.table[id].finished
  {
  }

  lemma FailWork(cfg: Config, l: State, id: nat)
    requires LoopInv(cfg, l) && id in l.s.running && id in l.gen
    ensures Work(FailOne(l, id)) < Work(l)
  {
    hide Inv, Emit, Work, DoFinish, Queued, FramesOk, OpenAttended;
    RunningLive(cfg, l.s, id);
    FinishWork(cfg, l, id, l.gen);
    EmitWork(l.(s := DoFinish(l.s, id)), l.gen[id].rid, Final(Failed, l.gen[id].output));
  }

  ghost predicate AllRunning(l: State, ids: seq<nat>) {
    LiveBatch(l, ids) && forall i :: 0 <= i < |ids| ==> ids[i] in l.s.running
  }

  /** Settling one member leaves the others running. */
  lemma StillRunning(cfg: Config, l: State, l': State, ids: seq<nat>)
    requires ids != [] && AllRunning(l, ids) && Others(l, l', ids[0]) && Inv(cfg, l'.s)
    requires forall j :: j != ids[0] ==> (j in l'.s.running <==> j in l.s.running)
    ensures AllRunning(l', ids[1..])
  {
    LiveRest(l, l', ids);
  }

  lemma DeliverRunning(l: State, id: nat, toks: seq<Token>)
    ensures forall j :: j != id ==> (j in DeliverOne(l, id, toks).s.running <==> j in l.s.running)
  {
    hide JudgeAll;
  }

  lemma FailRunning(l: State, id: nat)
    ensures forall j :: j != id ==> (j in FailOne(l, id).s.running <==> j in l.s.running)
  {
  }

  lemma {:induction false} DeliverAllWork(cfg: Config, l: State, ids: seq<nat>, first: nat -> Token)
    requires LoopInv(cfg, l) && AllRunning(l, ids)
    ensures Work(DeliverAll(l, ids, first)) + |ids| <= Work(l)
    decreases |ids|
  {
    hide LoopInv, Inv, Others, DeliverOne, Work;
    if ids != [] {
      var id, toks := ids[0], [first(ids[0])];
      RoomForOne(cfg, l, id);
      DeliverOneKeeps(cfg, l, id, toks);
      DeliverOneOthers(l, id, toks);
      DeliverRunning(l, id, toks);
      DeliverWork(cfg, l, id, toks);
      var l' := DeliverOne(l, id, toks);
      LoopSched(cfg, l');
      StillRunning(cfg, l, l', ids);
      DeliverAllWork(cfg, l', ids[1..], first);
    }
  }

  lemma LoopSched(cfg: Config, l: State)
    requires LoopInv(cfg, l)
    ensures Inv(cfg, l.s)
  {
  }

  lemma {:induction false} FailAllWork(cfg: Config, l: State, ids: seq<nat>)
    requires LoopInv(cfg, l) && AllRunning(l, ids)
    ensures Work(FailAll(l, ids)) + |ids| <= Work(l)
    decreases |ids|
  {
    hide LoopInv, Inv, Others, FailOne, Work;
    if ids != [] {
      RoomForOne(cfg, l, ids[0]);
      FailOneKeeps(cfg, l, ids[0]);
      FailOneOthers(l, ids[0]);
      FailRunning(l, ids[0]);
      FailWork(cfg, l, ids[0]);
      var l' := FailOne(l, ids[0]);
      LoopSched(cfg, l');
      StillRunning(cfg, l, l', ids);
      FailAllWork(cfg, l', ids[1..]);
    }
  }

  /** A scheduler step moves requests between the lists without changing the work. */
  lemma StepWork(cfg: Config, l: State)
    requires LoopInv(cfg, l)
    ensures Work(l.(s := DoStep(cfg, l.s))) == Work(l)
    ensures AllRunning(l.(s := DoStep(cfg, l.s)), FormBatch(cfg, l.s).ids)
  {
    hide LoopInv, Inv, DoStep, FormBatch, LiveBatch;
    LoopSched(cfg, l);
    BatchIsLive(cfg, l);
    var k := StepShape(cfg, l.s);
    MoveWork(l.gen, l.s, k);
    BatchRuns(cfg, l.s);
  }

  lemma MoveWork(gen: map<nat, Gen>, s: Sched, k: nat)
    requires k <= |s.waiting|
    ensures SumLeft(gen, s.waiting[k..]) + SumLeft(gen, s.running + s.waiting[..k])
         == SumLeft(gen, s.waiting) + SumLeft(gen, s.running)
  {
    hide SumLeft;
    assert s.waiting == s.waiting[..k] + s.waiting[k..];
    SumConcat(gen, s.waiting[..k], s.waiting[k..]);
    SumConcat(gen, s.running, s.waiting[..k]);
  }

  /** After the step the running list is exactly the batch. */
  lemma BatchRuns(cfg: Config, s: Sched)
    requires Inv(cfg, s)
    ensures DoStep(cfg, s).running == FormBatch(cfg, s).ids
  {
    hide Inv, FormBatch, DoStep;
    var k := StepShape(cfg, s);
    var k' := BatchShape(cfg, s);
    SameSplit(cfg, s, k, k');
  }

  lemma SameSplit(cfg: Config, s: Sched, k: nat, k': nat)
    requires k <= |s.waiting| && k' <= |s.waiting| && DoStep(cfg, s).waiting == s.waiting[k..]
    requires FormBatch(cfg, s).waiting == s.waiting[k'..]
    ensures k == k'
  {
    hide FormBatch;
    assert |s.waiting[k..]| == |s.waiting| - k && |s.waiting[k'..]| == |s.waiting| - k';
  }

  /** Pumping a non-empty batch lowers the work by at least the batch size. */
  lemma PumpBatchWork(cfg: Config, l: State, burst: nat, o: Outcome)
    requires LoopInv(cfg, l)
    ensures Work(PumpBatch(cfg, l, burst, o)) <= Work(l)
    ensures FormBatch(cfg, l.s).ids != [] ==> Work(PumpBatch(cfg, l, burst, o)) < Work(l)
  {
    hide LoopInv, FormBatch, DoStep, Extra, DeliverOne, Work, LiveBatch;
    var b := FormBatch(cfg, l.s);
    var l1 := l.(s := DoStep(cfg, l.s));
    StepLoopInv(cfg, l);
    StepWork(cfg, l);
    if b.ids != [] {
      match o {
        case Crash => FailAllWork(cfg, l1, b.ids);
        case Tokens(first, more) =>
          var n := Extra(l, b, burst);
          if n > 0 {
            BatchIsLive(cfg, l);
            BurstFits(cfg, l, burst, more, first(b.ids[0]));
            DeliverWork(cfg, l1, b.ids[0], [first(b.ids[0])] + if n <= |more| then more[..n] else more);
          } else {
            DeliverAllWork(cfg, l1, b.ids, first);
          }
        case Raised(first, kept) =>
          var n := Extra(l, b, burst);
          if n > 0 {
            var some := if n - 1 <= |kept| then kept[..n - 1] else kept;
            BatchIsLive(cfg, l);
            RaiseFits(cfg, l, burst, some, first(b.ids[0]));
            KeepWork(cfg, l1, b.ids[0], [first(b.ids[0])] + some);
          } else {
            DeliverAllWork(cfg, l1, b.ids, first);
          }
      }
    }
  }

  lemma AdmitOneWork(cfg: Config, l: State, hit: nat)
    requires LoopInv(cfg, l) && l.queue != []
    ensures Work(AdmitOne(cfg, l.(queue := l.queue[1..]), l.queue[0], hit)) < Work(l)
  {
    hide Inv, Indexed, Queued, FramesOk, OpenAttended, Generating, Emit, Accepts;
    var it, l1 := l.queue[0], l.(queue := l.queue[1..]);
    EmitWork(l1, it.rid, Final(Failed, []));
    if it.rid !in l.cancelled && Accepts(cfg, l.s, |it.prompt|) {
      var id, gen' := l.s.nextId, l.gen[l.s.nextId := Gen(it.rid, it.prompt, it.params, [])];
      NotListed(cfg, l.s);
      SumSame(l.gen, gen', l.s.waiting);
      SumSame(l.gen, gen', l.s.running);
      SumConcat(gen', l.s.waiting, [id]);
      assert [id][1..] == [];
    }
  }

  lemma NotListed(cfg: Config, s: Sched)
    requires Inv(cfg, s)
    ensures forall i :: 0 <= i < |s.waiting| ==> s.waiting[i] != s.nextId
    ensures forall i :: 0 <= i < |s.running| ==> s.running[i] != s.nextId
  {
    forall i | 0 <= i < |s.waiting|
      ensures s.waiting[i] != s.nextId
    {
      assert s.waiting[i] in s.waiting;
    }
    forall i | 0 <= i < |s.running|
      ensures s.running[i] != s.nextId
    {
      assert s.running[i] in s.running;
    }
  }

  lemma {:induction false} AdmitAllWork(cfg: Config, l: State, hits: nat -> nat)
    requires LoopInv(cfg, l)
    ensures Work(AdmitAll(cfg, l, hits)) + |l.queue| <= Work(l)
    decreases |l.queue|
  {
    hide LoopInv, AdmitOne, Work;
    if l.queue != [] {
      AdmitOneKeeps(cfg, l, hits(l.queue[0].rid));
      AdmitOneWork(cfg, l, hits(l.queue[0].rid));
      var l2 := AdmitOne(cfg, l.(queue := l.queue[1..]), l.queue[0], hits(l.queue[0].rid));
      assert l2.(queue := l.queue[1..]) == l2;
      AdmitAllWork(cfg, l2, hits);
    }
  }

  /** Pumping a busy loop with any capacity strictly lowers the work left. */
  lemma PumpLowersWork(cfg: Config, l: State, burst: nat, hits: nat -> nat, o: Outcome)
    requires LoopInv(cfg, l) && cfg.maxBatch >= 1 && cfg.maxTokens >= 1
    ensures Work(DoPump(cfg, l, burst, hits, o)) <= Work(l)
    ensures Busy(l) ==> Work(DoPump(cfg, l, burst, hits, o)) < Work(l)
  {
    hide LoopInv, AdmitAll, PumpBatch, Work, Inv, FormBatch;
    AdmitAllKeeps(cfg, l, hits);
    AdmitAllWork(cfg, l, hits);
    var l1 := AdmitAll(cfg, l, hits);
    PumpBatchWork(cfg, l1, burst, o);
    if Busy(l) && l.queue == [] {
      AdmitNothing(cfg, l, hits);
      LoopSched(cfg, l);
      var k := BatchShape(cfg, l.s);
    }
  }

  lemma AdmitNothing(cfg: Config, l: State, hits: nat -> nat)
    requires l.queue == []
    ensures AdmitAll(cfg, l, hits) == l
  {
  }

  // ---------------------------------------------------------------- draining

  datatype Input = Input(burst: nat, hits: nat -> nat, outcome: Outcome)

  /** Pumps once per input, whatever the runner returns, and again after a pump that raises. */
  ghost function Pumps(cfg: Config, l: State, inputs: seq<Input>): State
    decreases |inputs|
  {
    if inputs == [] then l
    else Pumps(cfg, DoPump(cfg, l, inputs[0].burst, inputs[0].hits, inputs[0].outcome), inputs[1..])
  }

  /** As many pumps as there is work leave the loop idle, even if some of them raise. */
  lemma {:induction false} DrainEnds(cfg: Config, l: State, inputs: seq<Input>)
    requires LoopInv(cfg, l) && cfg.maxBatch >= 1 && cfg.maxTokens >= 1 && |inputs| > Work(l)
    ensures !Busy(Pumps(cfg, l, inputs)) && LoopInv(cfg, Pumps(cfg, l, inputs))
    decreases |inputs|
  {
    hide LoopInv, Work, DoPump;
    var i := inputs[0];
    var l' := DoPump(cfg, l, i.burst, i.hits, i.outcome);
    PumpKeeps(cfg, l, i.burst, i.hits, i.outcome);
    PumpLowersWork(cfg, l, i.burst, i.hits, i.outcome);
    if !Busy(l) {
      IdleStays(cfg, l, inputs);
    } else {
      DrainEnds(cfg, l', inputs[1..]);
    }
  }

  lemma IdlePump(cfg: Config, l: State, i: Input)
    requires LoopInv(cfg, l) && !Busy(l)
    ensures !Busy(DoPump(cfg, l, i.burst, i.hits, i.outcome))
  {
    hide LoopInv, Inv, FormBatch, DoStep;
    AdmitNothing(cfg, l, i.hits);
    LoopSched(cfg, l);
    var k := BatchShape(cfg, l.s);
    var k' := StepShape(cfg, l.s);
  }

  lemma {:induction false} IdleStays(cfg: Config, l: State, inputs: seq<Input>)
    requires LoopInv(cfg, l) && !Busy(l)
    ensures !Busy(Pumps(cfg, l, inputs)) && LoopInv(cfg, Pumps(cfg, l, inputs))
    decreases |inputs|
  {
    hide LoopInv, Busy, DoPump;
    if inputs != [] {
      var i := inputs[0];
      IdlePump(cfg, l, i);
      PumpKeeps(cfg, l, i.burst, i.hits, i.outcome);
      IdleStays(cfg, DoPump(cfg, l, i.burst, i.hits, i.outcome), inputs[1..]);
    }
  }

  /** An idle loop has closed every delta queue with exactly one final frame, the last one. */
  lemma IdleIsClosed(cfg: Config, l: State, rid: nat)
    requires LoopInv(cfg, l) && !Busy(l) && rid in l.frames
    ensures Closed(l.frames[rid])
  {
    hide Generating, Queued, AllDeltas, Closed;
    if rid in l.open {
      assert Attended(l.queue, l.s.byRid, l.cancelled, rid);
      LiveIsListed(cfg, l.s, rid);
    }
  }

  lemma LiveIsListed(cfg: Config, s: Sched, rid: nat)
    requires Inv(cfg, s) && Indexed(s.table, s.byRid) && rid in s.byRid
    ensures s.waiting != [] || s.running != []
  {
    var id := s.byRid[rid];
    assert id in s.waiting || id in s.running;
  }

  /**
   Pumping on, also after every pump that raises, gives every request submitted so far exactly one
   final frame, last.  A drain that stops at a raise is the subject of RaisedDrains.
   */
  lemma DrainAnswersEveryone(cfg: Config, l: State, inputs: seq<Input>, rid: nat)
    requires LoopInv(cfg, l) && cfg.maxBatch >= 1 && cfg.maxTokens >= 1 && |inputs| > Work(l)
    requires rid in l.frames
    ensures rid in Pumps(cfg, l, inputs).frames && Closed(Pumps(cfg, l, inputs).frames[rid])
  {
    hide LoopInv, Work, Pumps;
    DrainEnds(cfg, l, inputs);
    PumpsKeepFrames(cfg, l, inputs);
    IdleIsClosed(cfg, Pumps(cfg, l, inputs), rid);
  }

  lemma {:induction false} PumpsKeepFrames(cfg: Config, l: State, inputs: seq<Input>)
    ensures Pumps(cfg, l, inputs).frames.Keys == l.frames.Keys
    decreases |inputs|
  {
    hide DoPump;
    if inputs != [] {
      var i := inputs[0];
      PumpKeepsFrames(cfg, l, i);
      PumpsKeepFrames(cfg, DoPump(cfg, l, i.burst, i.hits, i.outcome), inputs[1..]);
    }
  }

  lemma PumpKeepsFrames(cfg: Config, l: State, i: Input)
    ensures DoPump(cfg, l, i.burst, i.hits, i.outcome).frames.Keys == l.frames.Keys
  {
    hide FormBatch, DoStep, DeliverOne, FailOne, DeliverAll, FailAll, AdmitAll;
    var l1 := AdmitAll(cfg, l, i.hits);
    AdmitAllFrames(cfg, l, i.hits);
    var b := FormBatch(cfg, l1.s);
    var l2 := l1.(s := DoStep(cfg, l1.s));
    match i.outcome {
      case Crash => FailAllFrames(l2, b.ids);
      case Tokens(first, more) =>
        DeliverAllFrames(l2, b.ids, first);
        if b.ids != [] {
          var n := Extra(l1, b, i.burst);
          DeliverOneFrames(l2, b.ids[0], [first(b.ids[0])] + if n <= |more| then more[..n] else more);
        }
      case Raised(first, kept) => DeliverAllFrames(l2, b.ids, first);
    }
  }

  lemma DeliverOneFrames(l: State, id: nat, toks: seq<Token>)
    ensures DeliverOne(l, id, toks).frames.Keys == l.frames.Keys
  {
    hide JudgeAll;
  }

  lemma {:induction false} DeliverAllFrames(l: State, ids: seq<nat>, first: nat -> Token)
    ensures DeliverAll(l, ids, first).frames.Keys == l.frames.Keys
    decreases |ids|
  {
    hide DeliverOne;
    if ids != [] {
      DeliverOneFrames(l, ids[0], [first(ids[0])]);
      DeliverAllFrames(DeliverOne(l, ids[0], [first(ids[0])]), ids[1..], first);
    }
  }

  lemma {:induction false} FailAllFrames(l: State, ids: seq<nat>)
    ensures FailAll(l, ids).frames.Keys == l.frames.Keys
    decreases |ids|
  {
    if ids != [] {
      FailAllFrames(FailOne(l, ids[0]), ids[1..]);
    }
  }

  lemma {:induction false} AdmitAllFrames(cfg: Config, l: State, hits: nat -> nat)
    ensures AdmitAll(cfg, l, hits).frames.Keys == l.frames.Keys
    decreases |l.queue|
  {
    if l.queue != [] {
      var it := l.queue[0];
      AdmitAllFrames(cfg, AdmitOne(cfg, l.(queue := l.queue[1..]), it, hits(it.rid)).(queue := l.queue[1..]), hits);
    }
  }

  // ---------------------------------------------------------------- runs

  datatype Event =
    | Submit(rid: nat, prompt: seq<Token>, params: Params)
    | Cancel(rid: nat)
    | Timeout(rid: nat)
    | BeginDrain
    | Admit(hits: nat -> nat)
    | Pump(input: Input)

  ghost function Handle(cfg: Config, l: State, ev: Event): State {
    match ev
    case Submit(rid, prompt, p) => DoSubmit(l, rid, prompt, p)
    case Cancel(rid) => DoCancelReq(l, rid)
    case Timeout(rid) => DoTimeout(l, rid)
    case BeginDrain => DoDrain(l)
    case Admit(hits) => AdmitAll(cfg, l, hits)
    case Pump(i) => DoPump(cfg, l, i.burst, i.hits, i.outcome)
  }

  ghost function History(cfg: Config, l: State, evs: seq<Event>): State
    decreases |evs|
  {
    if evs == [] then l else Handle(cfg, History(cfg, l, evs[..|evs| - 1]), evs[|evs| - 1])
  }

  /** Every submission uses a request id that was neither used nor cancelled before. */
  ghost predicate FreshIds(cfg: Config, l: State, evs: seq<Event>) {
    forall i :: 0 <= i < |evs| && evs[i].Submit? ==> FreshId(History(cfg, l, evs[..i]), evs[i].rid)
  }

  const Empty := State(Idle, map[], [], {}, {}, map[], false)

  lemma EmptyOk(cfg: Config)
    ensures LoopInv(cfg, Empty)
  {
    RunKeeps(cfg, []);
  }

  /**
   The loop invariant holds after every history of submissions, cancels, timeouts, admissions and
   pumps, bursts that raise included.  An admission may come before any other event, so a timeout
   can fall between the admission of a pump and its batch.
   */
  lemma {:induction false} HistoryKeeps(cfg: Config, evs: seq<Event>)
    requires FreshIds(cfg, Empty, evs)
    ensures LoopInv(cfg, History(cfg, Empty, evs))
    decreases |evs|
  {
    hide LoopInv, DoSubmit, DoCancelReq, DoTimeout, DoPump, FreshId, AdmitAll;
    if evs == [] {
      EmptyOk(cfg);
    } else {
      var n := |evs| - 1;
      var front := evs[..n];
      forall i | 0 <= i < |front| && front[i].Submit?
        ensures FreshId(History(cfg, Empty, front[..i]), front[i].rid)
      {
        assert front[..i] == evs[..i];
      }
      HistoryKeeps(cfg, front);
      var l := History(cfg, Empty, front);
      match evs[n] {
        case Submit(rid, prompt, p) => SubmitKeeps(cfg, l, rid, prompt, p);
        case Cancel(rid) => CancelReqKeeps(cfg, l, rid);
        case Timeout(rid) => TimeoutKeeps(cfg, l, rid);
        case BeginDrain => DrainKeeps(cfg, l);
        case Admit(hits) => AdmitAllKeeps(cfg, l, hits);
        case Pump(i) => PumpKeeps(cfg, l, i.burst, i.hits, i.outcome);
      }
    }
  }

  /** Once draining has begun nothing is accepted any more, whatever events follow. */
  lemma {:induction false} DrainRefuses(cfg: Config, l: State, evs: seq<Event>)
    requires l.draining
    ensures History(cfg, l, evs).draining && History(cfg, l, evs).frames.Keys == l.frames.Keys
    decreases |evs|
  {
    hide DoPump, DoCancel, AdmitAll;
    if evs != [] {
      var n := |evs| - 1;
      DrainRefuses(cfg, l, evs[..n]);
      var u := History(cfg, l, evs[..n]);
      match evs[n] {
        case Admit(hits) =>
          AdmitAllFrames(cfg, u, hits);
          AdmitAllDraining(cfg, u, hits);
        case Pump(i) =>
          PumpKeepsFrames(cfg, u, i);
          PumpKeepsDraining(cfg, u, i);
        case _ =>
      }
    }
  }

  lemma PumpKeepsDraining(cfg: Config, l: State, i: Input)
    ensures DoPump(cfg, l, i.burst, i.hits, i.outcome).draining == l.draining
  {
    hide FormBatch, DoStep, DeliverOne, FailOne, DeliverAll, FailAll, AdmitAll;
    var l1 := AdmitAll(cfg, l, i.hits);
    AdmitAllDraining(cfg, l, i.hits);
    var b := FormBatch(cfg, l1.s);
    var l2 := l1.(s := DoStep(cfg, l1.s));
    match i.outcome {
      case Crash => FailAllDraining(l2, b.ids);
      case Tokens(first, more) =>
        DeliverAllDraining(l2, b.ids, first);
        if b.ids != [] {
          var n := Extra(l1, b, i.burst);
          DeliverOneDraining(l2, b.ids[0], [first(b.ids[0])] + if n <= |more| then more[..n] else more);
        }
      case Raised(first, kept) => DeliverAllDraining(l2, b.ids, first);
    }
  }

  lemma DeliverOneDraining(l: State, id: nat, toks: seq<Token>)
    ensures DeliverOne(l, id, toks).draining == l.draining
  {
    hide JudgeAll;
  }

  lemma {:induction false} DeliverAllDraining(l: State, ids: seq<nat>, first: nat -> Token)
    ensures DeliverAll(l, ids, first).draining == l.draining
    decreases |ids|
  {
    hide DeliverOne;
    if ids != [] {
      DeliverOneDraining(l, ids[0], [first(ids[0])]);
      DeliverAllDraining(DeliverOne(l, ids[0], [first(ids[0])]), ids[1..], first);
    }
  }

  lemma {:induction false} FailAllDraining(l: State, ids: seq<nat>)
    ensures FailAll(l, ids).draining == l.draining
    decreases |ids|
  {
    if ids != [] {
      FailAllDraining(FailOne(l, ids[0]), ids[1..]);
    }
  }

  lemma {:induction false} AdmitAllDraining(cfg: Config, l: State, hits: nat -> nat)
    ensures AdmitAll(cfg, l, hits).draining == l.draining
    decreases |l.queue|
  {
    if l.queue != [] {
      var it := l.queue[0];
      AdmitAllDraining(cfg, AdmitOne(cfg, l.(queue := l.queue[1..]), it, hits(it.rid)).(queue := l.queue[1..]), hits);
    }
  }

  /** The last submission is `rid`, nobody else uses that id, and it is not admitted yet. */
  ghost predicate LastInQueue(l: State, rid: nat) {
    && l.queue != [] && l.queue[|l.queue| - 1].rid == rid
    && (forall i :: 0 <= i < |l.queue| - 1 ==> l.queue[i].rid != rid)
    && rid in l.open && rid in l.frames && rid !in l.s.byRid
  }

  lemma AdmitOther(cfg: Config, l: State, hit: nat, rid: nat)
    requires LastInQueue(l, rid) && |l.queue| > 1
    ensures var l1 := AdmitOne(cfg, l.(queue := l.queue[1..]), l.queue[0], hit).(queue := l.queue[1..]);
      LastInQueue(l1, rid) && (rid in l1.cancelled <==> rid in l.cancelled)
  {
    assert l.queue[0].rid != rid;
  }

  lemma {:induction false} AdmitLost(cfg: Config, l: State, hits: nat -> nat, rid: nat)
    requires LastInQueue(l, rid)
    ensures var l' := AdmitAll(cfg, l, hits);
      l'.queue == [] && ((rid in l'.open && rid !in l'.s.byRid) <==> rid in l.cancelled)
    decreases |l.queue|
  {
    var l1 := AdmitOne(cfg, l.(queue := l.queue[1..]), l.queue[0], hits(l.queue[0].rid)).(queue := l.queue[1..]);
    if |l.queue| > 1 {
      hide AdmitOne, LastInQueue;
      AdmitOther(cfg, l, hits(l.queue[0].rid), rid);
      AdmitLost(cfg, l1, hits, rid);
    } else {
      assert AdmitAll(cfg, l1, hits) == l1;
    }
  }

  /**
   A request id that was cancelled before it is submitted is dropped at admission without a
   final frame, whatever else is queued: its client is left waiting exactly then.
   */
  lemma LostExactly(cfg: Config, l: State, rid: nat, prompt: seq<Token>, p: Params, hits: nat -> nat)
    requires LoopInv(cfg, l) && rid !in l.frames && Admissible(l, prompt, p)
    ensures var l' := AdmitAll(cfg, DoSubmit(l, rid, prompt, p), hits);
      l'.queue == [] && ((rid in l'.open && rid !in l'.s.byRid) <==> rid in l.cancelled)
  {
    hide Inv, Generating, Indexed, FramesOk, OpenAttended, AdmitAll;
    AdmitLost(cfg, DoSubmit(l, rid, prompt, p), hits, rid);
  }
}
