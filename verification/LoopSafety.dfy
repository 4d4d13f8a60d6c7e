/**
 Every step of the engine loop keeps its invariant, and pumping a busy loop strictly lowers the
 work left, so draining terminates and leaves exactly one final frame, last, on every queue.
 */
module LoopSafety {
  import opened Prelude
  import opened Scheduling
  import opened Limits
  import opened Loop

  // ---------------------------------------------------------------- frames

  lemma EmitScope(l: State, rid: nat, f: Frame)
    ensures var l' := Emit(l, rid, f);
      && l' == l.(frames := l'.frames, open := l'.open)
      && l'.frames.Keys == l.frames.Keys && l'.open <= l.open
      && (f.Final? && rid in l.frames ==> rid !in l'.open)
      && (forall r :: r in l.frames && r != rid ==> l'.frames[r] == l.frames[r] && (r in l'.open <==> r in l.open))
  {
  }

  lemma EmitFrames(l: State, rid: nat, f: Frame)
    requires FramesOk(l.open, l.frames)
    ensures FramesOk(Emit(l, rid, f).open, Emit(l, rid, f).frames)
  {
    if rid in l.open && rid in l.frames {
      var fs := l.frames[rid] + [f];
      assert f.Final? ==> Closed(fs);
      assert f.Delta? ==> AllDeltas(fs);
    }
  }

  lemma EmitKeeps(cfg: Config, l: State, rid: nat, f: Frame, but: set<nat>)
    requires Core(cfg, l) && OpenAttended(l, but)
    requires f.Final? ==> rid in l.frames
    ensures Core(cfg, Emit(l, rid, f))
    ensures OpenAttended(Emit(l, rid, f), if f.Final? then but - {rid} else but)
  {
    hide Inv, Indexed, Generating, Queued, FramesOk, Attended, Emit;
    EmitScope(l, rid, f);
    EmitFrames(l, rid, f);
  }

  // ---------------------------------------------------------------- finishing

  /** Taking a live request out of the scheduler leaves the index consistent. */
  lemma FinishIndexed(s: Sched, id: nat)
    requires Indexed(s.table, s.byRid) && id in s.table && !s.table[id].finished
    ensures Indexed(DoFinish(s, id).table, DoFinish(s, id).byRid)
    ensures DoFinish(s, id).byRid == s.byRid - {s.table[id].rid}
  {
  }

  lemma AttendedFewer(queue: seq<Pending>, byRid: map<nat, nat>, cancelled: set<nat>, rid: nat, gone: nat)
    requires Attended(queue, byRid, cancelled, rid) && rid != gone
    ensures Attended(queue, byRid - {gone}, cancelled, rid)
  {
  }

  lemma QueuedFewer(queue: seq<Pending>, byRid: map<nat, nat>, known: set<nat>, gone: nat)
    requires Queued(queue, byRid, known)
    ensures Queued(queue, byRid - {gone}, known)
  {
  }

  lemma FinishGenerating(s: Sched, gen: map<nat, Gen>, id: nat, out: seq<Token>)
    requires Generating(s.table, gen) && Indexed(s.table, s.byRid)
    requires id in s.table && !s.table[id].finished && id in gen && |out| <= gen[id].params.maxTokens
    ensures Generating(DoFinish(s, id).table, gen[id := gen[id].(output := out)])
    ensures gen[id].rid == s.table[id].rid && s.table[id].rid in s.byRid
  {
  }

  /** Finishing a live request, with its output settled to `out`. */
  lemma FinishCore(cfg: Config, l: State, id: nat, out: seq<Token>)
    requires LoopInv(cfg, l) && id in l.gen && id in l.s.table && !l.s.table[id].finished
    requires |out| <= l.gen[id].params.maxTokens
    ensures l.gen[id].rid in l.frames
    ensures var l1 := l.(s := DoFinish(l.s, id), gen := l.gen[id := l.gen[id].(output := out)]);
      Core(cfg, l1) && OpenAttended(l1, {l.gen[id].rid})
  {
    hide Inv, Attended, FramesOk, Queued, Indexed, Generating, DoFinish;
    var l1 := l.(s := DoFinish(l.s, id), gen := l.gen[id := l.gen[id].(output := out)]);
    var rid := l.s.table[id].rid;
    FinishGenerating(l.s, l.gen, id, out);
    FinishKeeps(cfg, l.s, id);
    FinishIndexed(l.s, id);
    QueuedFewer(l.queue, l.s.byRid, l.frames.Keys, rid);
    forall r | r in l1.open && r !in {rid}
      ensures Attended(l1.queue, l1.s.byRid, l1.cancelled, r)
    {
      AttendedFewer(l.queue, l.s.byRid, l.cancelled, r, rid);
    }
  }

  lemma FailOneKeeps(cfg: Config, l: State, id: nat)
    requires LoopInv(cfg, l) && id in l.s.table && !l.s.table[id].finished
    ensures LoopInv(cfg, FailOne(l, id))
  {
    hide Inv, Indexed, Queued, FramesOk, OpenAttended, Emit;
    assert id in l.gen;
    var g := l.gen[id];
    FinishCore(cfg, l, id, g.output);
    assert l.gen[id := g.(output := g.output)] == l.gen;
    EmitKeeps(cfg, l.(s := DoFinish(l.s, id)), g.rid, Final(Failed, g.output), {g.rid});
    assert {g.rid} - {g.rid} == {};
  }

  // ---------------------------------------------------------------- delivery

  lemma AdvanceCore(cfg: Config, l: State, id: nat, cached: nat, out: seq<Token>)
    requires LoopInv(cfg, l) && id in l.gen && id in l.s.table && !l.s.table[id].finished
    requires |out| < l.gen[id].params.maxTokens
    ensures LoopInv(cfg, l.(s := DoAdvance(l.s, id, cached), gen := l.gen[id := l.gen[id].(output := out)]))
  {
    hide Inv, Queued, FramesOk, Attended;
    AdvanceKeeps(cfg, l.s, id, cached);
  }

  lemma DeliverOneKeeps(cfg: Config, l: State, id: nat, toks: seq<Token>)
    requires LoopInv(cfg, l) && id in l.s.table && !l.s.table[id].finished
    requires toks != [] && id in l.gen && |l.gen[id].output| + |toks| <= l.gen[id].params.maxTokens
    ensures LoopInv(cfg, DeliverOne(l, id, toks))
  {
    hide Inv, Indexed, Queued, FramesOk, OpenAttended, Emit, DoFinish, DoAdvance, JudgeAll;
    var g := l.gen[id];
    var out := g.output + toks;
    var cached := |g.prompt| + |out|;
    if g.rid in l.cancelled {
      FinishCore(cfg, l, id, g.output);
      assert l.gen[id := g.(output := g.output)] == l.gen;
      EmitKeeps(cfg, l.(s := DoFinish(l.s, id)), g.rid, Final(Cancelled, []), {g.rid});
      assert {g.rid} - {g.rid} == {};
    } else {
      match JudgeAll(g.params, out, toks) {
        case Go =>
          AdvanceCore(cfg, l, id, cached, out);
          EmitKeeps(cfg, l.(s := DoAdvance(l.s, id, cached), gen := l.gen[id := g.(output := out)]), g.rid, Delta(toks),
                    {});
        case Stop(r, o) =>
          assert |o| <= |out|;
          AdvanceCore(cfg, l, id, cached, g.output);
          assert l.gen[id := g.(output := g.output)] == l.gen;
          var l1 := l.(s := DoAdvance(l.s, id, cached));
          assert id in l1.s.table && !l1.s.table[id].finished by { AdvanceLive(l.s, id, cached); }
          FinishCore(cfg, l1, id, o);
          EmitKeeps(cfg, l1.(s := DoFinish(l1.s, id), gen := l.gen[id := g.(output := o)]), g.rid, Final(r, o),
                    {g.rid});
          assert {g.rid} - {g.rid} == {};
      }
    }
  }

  lemma AdvanceLive(s: Sched, id: nat, cached: nat)
    requires id in s.table
    ensures id in DoAdvance(s, id, cached).table && DoAdvance(s, id, cached).table[id].finished == s.table[id].finished
  {
  }

  /** What a delivery to `id` leaves alone. */
  ghost predicate Others(l: State, l': State, id: nat) {
    && l'.s.table.Keys == l.s.table.Keys && l'.gen.Keys == l.gen.Keys && l'.queue == l.queue
    && (forall j :: j in l.s.table && j != id ==> l'.s.table[j] == l.s.table[j])
    && (forall j :: j in l.gen && j != id ==> l'.gen[j] == l.gen[j])
  }

  lemma DeliverOneOthers(l: State, id: nat, toks: seq<Token>)
    ensures Others(l, DeliverOne(l, id, toks), id)
  {
    hide Emit, JudgeAll;
    if id in l.gen && id in l.s.table {
      var g := l.gen[id];
      var out := g.output + toks;
      var s1 := DoAdvance(l.s, id, |g.prompt| + |out|);
      match JudgeAll(g.params, out, toks) {
        case Go =>
          EmitScope(l.(s := s1, gen := l.gen[id := g.(output := out)]), g.rid, Delta(toks));
        case Stop(r, o) =>
          EmitScope(l.(s := DoFinish(s1, id), gen := l.gen[id := g.(output := o)]), g.rid, Final(r, o));
      }
      EmitScope(l.(s := DoFinish(l.s, id)), g.rid, Final(Cancelled, []));
    }
  }

  lemma FailOneOthers(l: State, id: nat)
    ensures Others(l, FailOne(l, id), id)
  {
  }

  /** Members of a batch about to be settled: distinct and live. */
  ghost predicate LiveBatch(l: State, ids: seq<nat>) {
    NoDup(ids) && forall i :: 0 <= i < |ids| ==> ids[i] in l.s.table && !l.s.table[ids[i]].finished
  }

  lemma LiveRest(l: State, l': State, ids: seq<nat>)
    requires ids != [] && LiveBatch(l, ids) && Others(l, l', ids[0])
    ensures LiveBatch(l', ids[1..])
  {
  }

  lemma RoomForOne(cfg: Config, l: State, id: nat)
    requires LoopInv(cfg, l) && id in l.s.table && !l.s.table[id].finished
    ensures id in l.gen && |l.gen[id].output| < l.gen[id].params.maxTokens
  {
  }

  lemma {:induction false} DeliverAllKeeps(cfg: Config, l: State, ids: seq<nat>, first: nat -> Token)
    requires LoopInv(cfg, l) && LiveBatch(l, ids)
    ensures LoopInv(cfg, DeliverAll(l, ids, first))
    decreases |ids|
  {
    hide LoopInv, Others, DeliverOne;
    if ids != [] {
      RoomForOne(cfg, l, ids[0]);
      DeliverOneKeeps(cfg, l, ids[0], [first(ids[0])]);
      DeliverOneOthers(l, ids[0], [first(ids[0])]);
      var l' := DeliverOne(l, ids[0], [first(ids[0])]);
      LiveRest(l, l', ids);
      DeliverAllKeeps(cfg, l', ids[1..], first);
    }
  }

  lemma {:induction false} FailAllKeeps(cfg: Config, l: State, ids: seq<nat>)
    requires LoopInv(cfg, l) && LiveBatch(l, ids)
    ensures LoopInv(cfg, FailAll(l, ids))
    decreases |ids|
  {
    hide LoopInv, Others, FailOne;
    if ids != [] {
      FailOneKeeps(cfg, l, ids[0]);
      FailOneOthers(l, ids[0]);
      LiveRest(l, FailOne(l, ids[0]), ids);
      FailAllKeeps(cfg, FailOne(l, ids[0]), ids[1..]);
    }
  }

  // ---------------------------------------------------------------- pumping

  lemma StepLoopInv(cfg: Config, l: State)
    requires LoopInv(cfg, l)
    ensures LoopInv(cfg, l.(s := DoStep(cfg, l.s)))
  {
    hide Inv, Queued, FramesOk, Attended, Indexed, Generating, DoStep;
    StepKeeps(cfg, l.s);
    var k := StepShape(cfg, l.s);
  }

  /** The members of the next batch are distinct live requests. */
  lemma BatchIsLive(cfg: Config, l: State)
    requires LoopInv(cfg, l)
    ensures var b := FormBatch(cfg, l.s); LiveBatch(l.(s := DoStep(cfg, l.s)), b.ids) && LiveBatch(l, b.ids)
  {
    hide FormBatch, DoStep, Indexed, Generating, Queued, FramesOk, OpenAttended, InOrder;
    var k := BatchIds(cfg, l.s);
    var k' := StepShape(cfg, l.s);
    var ids := FormBatch(cfg, l.s).ids;
    forall i | 0 <= i < |ids|
      ensures ids[i] in l.s.table && !l.s.table[ids[i]].finished
    {
      assert ids[i] in l.s.running || ids[i] in l.s.waiting;
    }
    forall i, j | 0 <= i < j < |ids|
      ensures ids[i] != ids[j]
    {
      if i < |l.s.running| <= j {
        assert ids[i] in l.s.running && ids[j] in l.s.waiting;
      }
    }
  }

  /** Burst tokens fit in what the request may still produce. */
  lemma BurstFits(cfg: Config, l: State, burst: nat, more: seq<Token>, tok: Token)
    requires LoopInv(cfg, l)
    requires Extra(l, FormBatch(cfg, l.s), burst) > 0
    ensures var b := FormBatch(cfg, l.s);
      var n := Extra(l, b, burst);
      var toks := [tok] + if n <= |more| then more[..n] else more;
      |b.ids| == 1 && b.ids[0] in l.gen && |l.gen[b.ids[0]].output| + |toks| <= l.gen[b.ids[0]].params.maxTokens
  {
    hide LoopInv, FormBatch, Flags;
  }

  /** A burst that raises stays strictly below the limit. */
  lemma RaiseFits(cfg: Config, l: State, burst: nat, some: seq<Token>, tok: Token)
    requires LoopInv(cfg, l)
    requires var n := Extra(l, FormBatch(cfg, l.s), burst); n > 0 && |some| < n
    ensures var b := FormBatch(cfg, l.s);
      |b.ids| == 1 && b.ids[0] in l.gen && |l.gen[b.ids[0]].output| + |[tok] + some| < l.gen[b.ids[0]].params.maxTokens
  {
    hide LoopInv, FormBatch, Flags;
  }

  lemma KeepOneKeeps(cfg: Config, l: State, id: nat, toks: seq<Token>)
    requires LoopInv(cfg, l) && id in l.s.table && !l.s.table[id].finished && id in l.gen
    requires |l.gen[id].output| + |toks| < l.gen[id].params.maxTokens
    ensures LoopInv(cfg, KeepOne(l, id, toks))
  {
    hide LoopInv;
    var g := l.gen[id];
    AdvanceCore(cfg, l, id, |g.prompt| + |g.output + toks|, g.output + toks);
  }

  lemma PumpBatchKeeps(cfg: Config, l: State, burst: nat, o: Outcome)
    requires LoopInv(cfg, l)
    ensures LoopInv(cfg, PumpBatch(cfg, l, burst, o))
  {
    hide LoopInv, FormBatch, DoStep, Extra, DeliverOne;
    var b := FormBatch(cfg, l.s);
    var l1 := l.(s := DoStep(cfg, l.s));
    StepLoopInv(cfg, l);
    BatchIsLive(cfg, l);
    if b.ids != [] {
      match o {
        case Crash => FailAllKeeps(cfg, l1, b.ids);
        case Tokens(first, more) =>
          var n := Extra(l, b, burst);
          if n > 0 {
            BurstFits(cfg, l, burst, more, first(b.ids[0]));
            RoomForOne(cfg, l1, b.ids[0]);
            DeliverOneKeeps(cfg, l1, b.ids[0], [first(b.ids[0])] + if n <= |more| then more[..n] else more);
          } else {
            DeliverAllKeeps(cfg, l1, b.ids, first);
          }
        case Raised(first, kept) =>
          var n := Extra(l, b, burst);
          if n > 0 {
            var some := if n - 1 <= |kept| then kept[..n - 1] else kept;
            RaiseFits(cfg, l, burst, some, first(b.ids[0]));
            RoomForOne(cfg, l1, b.ids[0]);
            KeepOneKeeps(cfg, l1, b.ids[0], [first(b.ids[0])] + some);
          } else {
            DeliverAllKeeps(cfg, l1, b.ids, first);
          }
      }
    }
  }

  // ---------------------------------------------------------------- admission

  lemma QueuedTail(queue: seq<Pending>, byRid: map<nat, nat>, known: set<nat>)
    requires Queued(queue, byRid, known) && queue != []
    ensures Queued(queue[1..], byRid, known)
    ensures !InQueue(queue[1..], queue[0].rid)
  {
  }

  lemma TailAttended(l: State, but: set<nat>)
    requires OpenAttended(l, {}) && l.queue != []
    ensures OpenAttended(l.(queue := l.queue[1..]), {l.queue[0].rid})
  {
    var l1 := l.(queue := l.queue[1..]);
    forall r | r in l1.open && r != l.queue[0].rid
      ensures Attended(l1.queue, l1.s.byRid, l1.cancelled, r)
    {
      assert Attended(l.queue, l.s.byRid, l.cancelled, r);
      if InQueue(l.queue, r) {
        var i :| 0 <= i < |l.queue| && l.queue[i].rid == r;
        assert l1.queue[i - 1].rid == r;
      }
    }
  }

  lemma AddIndexed(cfg: Config, s: Sched, gen: map<nat, Gen>, it: Pending, hit: nat)
    requires Inv(cfg, s) && Accepts(cfg, s, |it.prompt|)
    requires Indexed(s.table, s.byRid) && Generating(s.table, gen) && it.rid !in s.byRid && it.params.maxTokens > 0
    ensures var s' := DoAdd(cfg, s, it.rid, |it.prompt|, hit);
      Indexed(s'.table, s'.byRid) && Generating(s'.table, gen[s.nextId := Gen(it.rid, it.prompt, it.params, [])])
  {
    assert s.nextId !in s.table;
  }

  lemma AddQueued(queue: seq<Pending>, byRid: map<nat, nat>, known: set<nat>, rid: nat, id: nat)
    requires Queued(queue, byRid, known) && !InQueue(queue, rid)
    ensures Queued(queue, byRid[rid := id], known)
  {
  }

  lemma AddAttended(l: State, s': Sched, gen': map<nat, Gen>, rid: nat, id: nat)
    requires OpenAttended(l, {rid}) && s'.byRid == l.s.byRid[rid := id] && rid !in l.cancelled
    ensures OpenAttended(l.(s := s', gen := gen'), {})
  {
    var l' := l.(s := s', gen := gen');
    forall r | r in l'.open
      ensures Attended(l'.queue, l'.s.byRid, l'.cancelled, r)
    {
      assert r != rid ==> Attended(l.queue, l.s.byRid, l.cancelled, r);
    }
  }

  lemma AdmitOneKeeps(cfg: Config, l: State, hit: nat)
    requires LoopInv(cfg, l) && l.queue != []
    ensures var l1 := l.(queue := l.queue[1..]);
      var l2 := AdmitOne(cfg, l1, l.queue[0], hit);
      LoopInv(cfg, l2) && l2.queue == l.queue[1..]
  {
    hide Inv, Indexed, Generating, FramesOk, OpenAttended, Emit, DoAdd, Accepts;
    var it, l1 := l.queue[0], l.(queue := l.queue[1..]);
    QueuedTail(l.queue, l.s.byRid, l.frames.Keys);
    TailAttended(l, {});
    assert it.rid in l.frames && it.rid !in l.s.byRid && it.params.maxTokens > 0;
    hide Queued;
    if it.rid in l.cancelled {
      DropCancelled(l, it.rid);
    } else if !Accepts(cfg, l1.s, |it.prompt|) {
      EmitKeeps(cfg, l1, it.rid, Final(Failed, []), {it.rid});
      EmitScope(l1, it.rid, Final(Failed, []));
      assert {it.rid} - {it.rid} == {};
    } else {
      AddKeeps(cfg, l.s, it.rid, |it.prompt|, hit);
      AddIndexed(cfg, l.s, l.gen, it, hit);
      AddQueued(l1.queue, l.s.byRid, l.frames.Keys, it.rid, l.s.nextId);
      AddByRid(cfg, l.s, it.rid, |it.prompt|, hit);
      AddAttended(l1, DoAdd(cfg, l.s, it.rid, |it.prompt|, hit),
                  l.gen[l.s.nextId := Gen(it.rid, it.prompt, it.params, [])], it.rid, l.s.nextId);
    }
  }

  lemma AddByRid(cfg: Config, s: Sched, rid: nat, prompt: nat, hit: nat)
    requires Accepts(cfg, s, prompt)
    ensures DoAdd(cfg, s, rid, prompt, hit).byRid == s.byRid[rid := s.nextId]
  {
  }

  /** A cancelled request is already closed, so dropping its submission leaves nobody waiting. */
  lemma DropCancelled(l: State, rid: nat)
    requires OpenAttended(l, {}) && rid in l.cancelled && l.queue != [] && l.queue[0].rid == rid
    ensures OpenAttended(l.(queue := l.queue[1..], cancelled := l.cancelled - {rid}), {})
  {
    var l1 := l.(queue := l.queue[1..], cancelled := l.cancelled - {rid});
    forall r | r in l1.open
      ensures Attended(l1.queue, l1.s.byRid, l1.cancelled, r)
    {
      assert Attended(l.queue, l.s.byRid, l.cancelled, r);
      if InQueue(l.queue, r) {
        var i :| 0 <= i < |l.queue| && l.queue[i].rid == r;
        assert l1.queue[i - 1].rid == r;
      }
    }
  }

  lemma {:induction false} AdmitAllKeeps(cfg: Config, l: State, hits: nat -> nat)
    requires LoopInv(cfg, l)
    ensures LoopInv(cfg, AdmitAll(cfg, l, hits)) && AdmitAll(cfg, l, hits).queue == []
    decreases |l.queue|
  {
    hide LoopInv, AdmitOne;
    if l.queue != [] {
      AdmitOneKeeps(cfg, l, hits(l.queue[0].rid));
      var l2 := AdmitOne(cfg, l.(queue := l.queue[1..]), l.queue[0], hits(l.queue[0].rid));
      assert l2.(queue := l.queue[1..]) == l2;
      AdmitAllKeeps(cfg, l2, hits);
    }
  }

  lemma PumpKeeps(cfg: Config, l: State, burst: nat, hits: nat -> nat, o: Outcome)
    requires LoopInv(cfg, l)
    ensures LoopInv(cfg, DoPump(cfg, l, burst, hits, o))
  {
    hide LoopInv, AdmitAll, PumpBatch;
    AdmitAllKeeps(cfg, l, hits);
    PumpBatchKeeps(cfg, AdmitAll(cfg, l, hits), burst, o);
  }

  // ---------------------------------------------------------------- submit, cancel, timeout

  /** A request id never used before and never cancelled before. */
  ghost predicate FreshId(l: State, rid: nat) {
    rid !in l.frames && rid !in l.cancelled
  }

  lemma SubmitKeeps(cfg: Config, l: State, rid: nat, prompt: seq<Token>, p: Params)
    requires LoopInv(cfg, l) && FreshId(l, rid)
    ensures LoopInv(cfg, DoSubmit(l, rid, prompt, p))
  {
    hide Inv, Indexed, Generating;
    if Admissible(l, prompt, p) {
      var l' := DoSubmit(l, rid, prompt, p);
      var n := |l.queue|;
      assert l'.queue[n].rid == rid;
      forall r | r in l'.open
        ensures Attended(l'.queue, l'.s.byRid, l'.cancelled, r)
      {
        if r != rid {
          assert Attended(l.queue, l.s.byRid, l.cancelled, r);
          if InQueue(l.queue, r) {
            var i :| 0 <= i < |l.queue| && l.queue[i].rid == r;
            assert l'.queue[i].rid == r;
          }
        }
      }
      assert FramesOk(l'.open, l'.frames);
    }
  }

  lemma DrainKeeps(cfg: Config, l: State)
    requires LoopInv(cfg, l)
    ensures LoopInv(cfg, DoDrain(l))
  {
  }

  lemma CancelIndexed(s: Sched, gen: map<nat, Gen>, rid: nat)
    requires Indexed(s.table, s.byRid) && Generating(s.table, gen)
    ensures Indexed(DoCancel(s, rid).table, DoCancel(s, rid).byRid) && Generating(DoCancel(s, rid).table, gen)
    ensures DoCancel(s, rid).byRid == s.byRid - {rid}
  {
    if rid !in s.byRid {
      assert s.byRid - {rid} == s.byRid;
    } else {
      var id := s.byRid[rid];
      var t1 := s.table[id := s.table[id].(cancelled := true)];
      assert DoCancel(s, rid).table == t1[id := t1[id].(finished := true)];
    }
  }

  /** Cancelling in the scheduler: either nothing is live under `rid`, or it is taken out. */
  lemma CancelCore(cfg: Config, l: State, rid: nat)
    requires LoopInv(cfg, l)
    ensures var l1 := l.(s := DoCancel(l.s, rid)); Core(cfg, l1) && OpenAttended(l1, {rid})
  {
    hide Inv, FramesOk, Queued, Attended, Indexed, Generating, DoCancel;
    CancelKeeps(cfg, l.s, rid);
    CancelIndexed(l.s, l.gen, rid);
    if rid in l.s.byRid {
      var s1 := DoCancel(l.s, rid);
      QueuedFewer(l.queue, l.s.byRid, l.frames.Keys, rid);
      forall r | r in l.open && r != rid
        ensures Attended(l.queue, s1.byRid, l.cancelled, r)
      {
        AttendedFewer(l.queue, l.s.byRid, l.cancelled, r, rid);
      }
    } else {
      assert l.s.byRid - {rid} == l.s.byRid;
    }
  }

  lemma CancelReqKeeps(cfg: Config, l: State, rid: nat)
    requires LoopInv(cfg, l)
    ensures LoopInv(cfg, DoCancelReq(l, rid))
  {
    hide Inv, Indexed, Generating, Queued, FramesOk, Emit, DoCancel;
    CancelCore(cfg, l, rid);
    var l1 := l.(s := DoCancel(l.s, rid), cancelled := l.cancelled + {rid});
    assert OpenAttended(l1, {rid});
    CloseUnknown(cfg, l1, rid, Final(Cancelled, []));
  }

  /** A final frame for a request that may have no queue at all. */
  lemma CloseUnknown(cfg: Config, l: State, rid: nat, f: Frame)
    requires Core(cfg, l) && OpenAttended(l, {rid}) && f.Final?
    ensures LoopInv(cfg, Emit(l, rid, f))
  {
    hide Inv, Indexed, Generating, Queued, Attended;
    if rid in l.frames {
      hide FramesOk, Emit;
      EmitKeeps(cfg, l, rid, f, {rid});
      assert {rid} - {rid} == {};
    }
  }

  lemma TimeoutKeeps(cfg: Config, l: State, rid: nat)
    requires LoopInv(cfg, l)
    ensures LoopInv(cfg, DoTimeout(l, rid))
  {
    hide Core, OpenAttended, Emit, DoCancel;
    CancelCore(cfg, l, rid);
    CloseUnknown(cfg, l.(s := DoCancel(l.s, rid)), rid, Final(TimedOut, []));
  }
}
