/**
 A burst that raises leaves its request without an answer: a drain stops there, and it answers
 everyone exactly when none of its pumps raises.
 */
module RaisedDrains {
  import opened Prelude
  import opened Scheduling
  import opened Limits
  import opened Loop
  import opened LoopSafety
  import opened Draining

  /** Every live request, and every queued one that is not cancelled, still has its delta queue. */
  ghost predicate Wired(l: State) {
    && (forall rid :: rid in l.s.byRid ==> rid in l.open)
    && (forall i :: 0 <= i < |l.queue| ==> l.queue[i].rid in l.cancelled || l.queue[i].rid in l.open)
  }

  // ---------------------------------------------------------------- queues stay open

  lemma EmitWired(l: State, rid: nat, f: Frame)
    requires Wired(l)
    requires f.Final? ==> rid !in l.s.byRid && (InQueue(l.queue, rid) ==> rid in l.cancelled)
    ensures Wired(Emit(l, rid, f))
  {
  }

  /** Ending a live request closes its own queue only. */
  lemma FinishWired(cfg: Config, l: State, id: nat, gen': map<nat, Gen>, f: Frame)
    requires LoopInv(cfg, l) && Wired(l) && id in l.s.table && !l.s.table[id].finished && id in l.gen
    ensures Wired(Emit(l.(s := DoFinish(l.s, id), gen := gen'), l.gen[id].rid, f))
  {
    hide Inv, Emit, FramesOk, OpenAttended;
    var l1 := l.(s := DoFinish(l.s, id), gen := gen');
    FinishIndexed(l.s, id);
    EmitWired(l1, l.gen[id].rid, f);
  }

  lemma AdvanceWired(l: State, id: nat, cached: nat, gen': map<nat, Gen>)
    requires Wired(l)
    ensures Wired(l.(s := DoAdvance(l.s, id, cached), gen := gen'))
  {
  }

  lemma FailOneWired(cfg: Config, l: State, id: nat)
    requires LoopInv(cfg, l) && Wired(l) && id in l.s.table && !l.s.table[id].finished
    ensures Wired(FailOne(l, id))
  {
    hide LoopInv, Emit, Wired, DoFinish;
    if id in l.gen {
      FinishWired(cfg, l, id, l.gen, Final(Failed, l.gen[id].output));
    }
  }

  lemma DeliverOneWired(cfg: Config, l: State, id: nat, toks: seq<Token>)
    requires LoopInv(cfg, l) && Wired(l) && id in l.s.table && !l.s.table[id].finished
    ensures Wired(DeliverOne(l, id, toks))
  {
    hide LoopInv, Emit, Wired, DoFinish, DoAdvance, JudgeAll;
    if id in l.gen {
      var g := l.gen[id];
      var out := g.output + toks;
      var cached := |g.prompt| + |out|;
      if g.rid in l.cancelled {
        FinishWired(cfg, l, id, l.gen, Final(Cancelled, []));
      } else {
        match JudgeAll(g.params, out, toks) {
          case Go =>
            AdvanceWired(l, id, cached, l.gen[id := g.(output := out)]);
            DeltaWired(l.(s := DoAdvance(l.s, id, cached), gen := l.gen[id := g.(output := out)]), g.rid, toks);
          case Stop(r, o) =>
            FinishAfterAdvance(l.s, id, cached);
            FinishWired(cfg, l, id, l.gen[id := g.(output := o)], Final(r, o));
            SameOpening(l.(s := DoFinish(l.s, id), gen := l.gen[id := g.(output := o)]),
                        l.(s := DoFinish(DoAdvance(l.s, id, cached), id), gen := l.gen[id := g.(output := o)]),
                        g.rid, Final(r, o));
        }
      }
    }
  }

  lemma DeltaWired(l: State, rid: nat, toks: seq<Token>)
    requires Wired(l)
    ensures Wired(Emit(l, rid, Delta(toks)))
  {
  }

  lemma FinishAfterAdvance(s: Sched, id: nat, cached: nat)
    ensures DoFinish(DoAdvance(s, id, cached), id).byRid == DoFinish(s, id).byRid
  {
  }

  lemma SameOpening(l: State, l': State, rid: nat, f: Frame)
    requires l'.s.byRid == l.s.byRid && l' == l.(s := l'.s) && Wired(Emit(l, rid, f))
    ensures Wired(Emit(l', rid, f))
  {
  }

  lemma {:induction false} FailAllWired(cfg: Config, l: State, ids: seq<nat>)
    requires LoopInv(cfg, l) && Wired(l) && LiveBatch(l, ids)
    ensures Wired(FailAll(l, ids))
    decreases |ids|
  {
    hide LoopInv, Others, FailOne, Wired;
    if ids != [] {
      FailOneWired(cfg, l, ids[0]);
      FailOneKeeps(cfg, l, ids[0]);
      FailOneOthers(l, ids[0]);
      LiveRest(l, FailOne(l, ids[0]), ids);
      FailAllWired(cfg, FailOne(l, ids[0]), ids[1..]);
    }
  }

  lemma {:induction false} DeliverAllWired(cfg: Config, l: State, ids: seq<nat>, first: nat -> Token)
    requires LoopInv(cfg, l) && Wired(l) && LiveBatch(l, ids)
    ensures Wired(DeliverAll(l, ids, first))
    decreases |ids|
  {
    hide LoopInv, Others, DeliverOne, Wired;
    if ids != [] {
      var l' := DeliverOne(l, ids[0], [first(ids[0])]);
      RoomForOne(cfg, l, ids[0]);
      DeliverOneWired(cfg, l, ids[0], [first(ids[0])]);
      DeliverOneKeeps(cfg, l, ids[0], [first(ids[0])]);
      DeliverOneOthers(l, ids[0], [first(ids[0])]);
      LiveRest(l, l', ids);
      DeliverAllWired(cfg, l', ids[1..], first);
    }
  }

  lemma StepWired(cfg: Config, l: State)
    requires LoopInv(cfg, l) && Wired(l)
    ensures Wired(l.(s := DoStep(cfg, l.s)))
  {
    hide LoopInv, FormBatch;
  }

  lemma PumpBatchWired(cfg: Config, l: State, burst: nat, o: Outcome)
    requires LoopInv(cfg, l) && Wired(l)
    ensures Wired(PumpBatch(cfg, l, burst, o))
  {
    hide LoopInv, FormBatch, DoStep, Extra, DeliverOne, Wired, DoAdvance;
    var b := FormBatch(cfg, l.s);
    var l1 := l.(s := DoStep(cfg, l.s));
    StepLoopInv(cfg, l);
    StepWired(cfg, l);
    BatchIsLive(cfg, l);
    if b.ids != [] {
      match o {
        case Crash => FailAllWired(cfg, l1, b.ids);
        case Tokens(first, more) =>
          var n := Extra(l, b, burst);
          if n > 0 {
            DeliverOneWired(cfg, l1, b.ids[0], [first(b.ids[0])] + if n <= |more| then more[..n] else more);
          } else {
            DeliverAllWired(cfg, l1, b.ids, first);
          }
        case Raised(first, kept) =>
          var n := Extra(l, b, burst);
          if n > 0 {
            KeepWired(l1, b.ids[0], [first(b.ids[0])] + if n - 1 <= |kept| then kept[..n - 1] else kept);
          } else {
            DeliverAllWired(cfg, l1, b.ids, first);
          }
      }
    }
  }

  lemma KeepWired(l: State, id: nat, toks: seq<Token>)
    requires Wired(l)
    ensures Wired(KeepOne(l, id, toks))
  {
  }

  lemma AdmitOneWired(cfg: Config, l: State, hit: nat)
    requires LoopInv(cfg, l) && Wired(l) && l.queue != []
    ensures Wired(AdmitOne(cfg, l.(queue := l.queue[1..]), l.queue[0], hit))
  {
    hide Inv, Indexed, Generating, FramesOk, OpenAttended, Emit, DoAdd, Accepts;
    var it, l1 := l.queue[0], l.(queue := l.queue[1..]);
    assert Wired(l1);
    if it.rid in l.cancelled {
      assert forall i :: 0 <= i < |l1.queue| ==> l1.queue[i].rid != it.rid;
    } else if !Accepts(cfg, l1.s, |it.prompt|) {
      QueuedTail(l.queue, l.s.byRid, l.frames.Keys);
      EmitWired(l1, it.rid, Final(Failed, []));
    } else {
      AddByRid(cfg, l.s, it.rid, |it.prompt|, hit);
    }
  }

  lemma {:induction false} AdmitAllWired(cfg: Config, l: State, hits: nat -> nat)
    requires LoopInv(cfg, l) && Wired(l)
    ensures Wired(AdmitAll(cfg, l, hits))
    decreases |l.queue|
  {
    hide LoopInv, AdmitOne, Wired;
    if l.queue != [] {
      AdmitOneKeeps(cfg, l, hits(l.queue[0].rid));
      AdmitOneWired(cfg, l, hits(l.queue[0].rid));
      var l2 := AdmitOne(cfg, l.(queue := l.queue[1..]), l.queue[0], hits(l.queue[0].rid));
      assert l2.(queue := l.queue[1..]) == l2;
      AdmitAllWired(cfg, l2, hits);
    }
  }

  lemma PumpWired(cfg: Config, l: State, burst: nat, hits: nat -> nat, o: Outcome)
    requires LoopInv(cfg, l) && Wired(l)
    ensures Wired(DoPump(cfg, l, burst, hits, o))
  {
    hide LoopInv, AdmitAll, PumpBatch, Wired;
    AdmitAllKeeps(cfg, l, hits);
    AdmitAllWired(cfg, l, hits);
    PumpBatchWired(cfg, AdmitAll(cfg, l, hits), burst, o);
  }

  lemma CancelWired(cfg: Config, l: State, rid: nat)
    requires LoopInv(cfg, l) && Wired(l)
    ensures Wired(DoCancelReq(l, rid))
    ensures !InQueue(l.queue, rid) ==> Wired(DoTimeout(l, rid))
  {
    hide Inv, Generating, Queued, FramesOk, OpenAttended, Emit;
    EmitWired(l.(cancelled := l.cancelled + {rid}, s := DoCancel(l.s, rid)), rid, Final(Cancelled, []));
    if !InQueue(l.queue, rid) {
      EmitWired(l.(s := DoCancel(l.s, rid)), rid, Final(TimedOut, []));
    }
  }

  /** No timeout falls on a request that is still in the submission queue. */
  ghost predicate AdmittedTimeouts(cfg: Config, l: State, evs: seq<Event>) {
    forall i :: 0 <= i < |evs| && evs[i].Timeout? ==> !InQueue(History(cfg, l, evs[..i]).queue, evs[i].rid)
  }

  lemma {:induction false} HistoryWired(cfg: Config, evs: seq<Event>)
    requires FreshIds(cfg, Empty, evs) && AdmittedTimeouts(cfg, Empty, evs)
    ensures LoopInv(cfg, History(cfg, Empty, evs)) && Wired(History(cfg, Empty, evs))
    decreases |evs|
  {
    hide LoopInv, DoSubmit, DoCancelReq, DoTimeout, DoPump, FreshId, Wired, InQueue, AdmitAll;
    HistoryKeeps(cfg, evs);
    if evs == [] {
      EmptyWired();
    } else {
      var n := |evs| - 1;
      var front := evs[..n];
      forall i | 0 <= i < |front|
        ensures front[i].Submit? ==> FreshId(History(cfg, Empty, front[..i]), front[i].rid)
        ensures front[i].Timeout? ==> !InQueue(History(cfg, Empty, front[..i]).queue, front[i].rid)
      {
        assert front[..i] == evs[..i];
      }
      HistoryWired(cfg, front);
      var l := History(cfg, Empty, front);
      match evs[n] {
        case Submit(rid, prompt, p) => SubmitWired(l, rid, prompt, p);
        case Cancel(rid) => CancelWired(cfg, l, rid);
        case Timeout(rid) => CancelWired(cfg, l, rid);
        case BeginDrain => DrainWired(l);
        case Admit(hits) => AdmitAllWired(cfg, l, hits);
        case Pump(i) => PumpWired(cfg, l, i.burst, i.hits, i.outcome);
      }
    }
  }

  lemma EmptyWired()
    ensures Wired(Empty)
  {
  }

  lemma SubmitWired(l: State, rid: nat, prompt: seq<Token>, p: Params)
    requires Wired(l)
    ensures Wired(DoSubmit(l, rid, prompt, p))
  {
  }

  lemma DrainWired(l: State)
    requires Wired(l)
    ensures Wired(DoDrain(l))
  {
  }

  // ---------------------------------------------------------------- a pump that raises

  /** Request `id` is live, its delta queue is registered, and it has been told no ending. */
  ghost predicate Unanswered(l: State, id: nat) {
    && id in l.s.table && !l.s.table[id].finished && id in l.s.running
    && l.s.table[id].rid in l.open && l.s.table[id].rid in l.frames && AllDeltas(l.frames[l.s.table[id].rid])
  }

  /** A raising pump sends no frame after admission and leaves its one request live and waiting for an answer. */
  lemma RaiseLeavesOpen(cfg: Config, l: State, burst: nat, hits: nat -> nat, o: Outcome) returns (id: nat)
    requires LoopInv(cfg, l) && Wired(l) && Raises(cfg, l, burst, hits, o)
    ensures var l' := DoPump(cfg, l, burst, hits, o);
      && Unanswered(l', id)
      && l'.frames == AdmitAll(cfg, l, hits).frames && l'.open == AdmitAll(cfg, l, hits).open
      && id in l'.gen && id in AdmitAll(cfg, l, hits).gen && AdmitAll(cfg, l, hits).gen[id].output < l'.gen[id].output
  {
    hide LoopInv, AdmitAll, PumpBatch, FormBatch, Wired, DoStep, Extra;
    var l1 := AdmitAll(cfg, l, hits);
    AdmitAllKeeps(cfg, l, hits);
    AdmitAllWired(cfg, l, hits);
    PumpWired(cfg, l, burst, hits, o);
    PumpKeeps(cfg, l, burst, hits, o);
    id := RaiseShape(cfg, l1, burst, o);
    LiveIsOpen(cfg, DoPump(cfg, l, burst, hits, o), id);
  }

  lemma LiveIsOpen(cfg: Config, l: State, id: nat)
    requires LoopInv(cfg, l) && Wired(l) && id in l.s.table && !l.s.table[id].finished
    ensures l.s.table[id].rid in l.open && l.s.table[id].rid in l.frames && AllDeltas(l.frames[l.s.table[id].rid])
  {
    hide Inv, Generating, Queued, OpenAttended, AllDeltas;
  }

  lemma RaiseShape(cfg: Config, l: State, burst: nat, o: Outcome) returns (id: nat)
    requires LoopInv(cfg, l) && o.Raised? && FormBatch(cfg, l.s).ids != [] && Extra(l, FormBatch(cfg, l.s), burst) > 0
    ensures var l' := PumpBatch(cfg, l, burst, o);
      && id in l'.s.table && !l'.s.table[id].finished && id in l'.s.running
      && l'.frames == l.frames && l'.open == l.open
      && id in l.gen && id in l'.gen && l.gen[id].output < l'.gen[id].output
  {
    hide LoopInv, FormBatch, DoStep;
    var b := FormBatch(cfg, l.s);
    var l1 := l.(s := DoStep(cfg, l.s));
    id := b.ids[0];
    BatchIsLive(cfg, l);
    StepLoopInv(cfg, l);
    RoomForOne(cfg, l1, id);
    BatchRunning(cfg, l);
  }

  lemma BatchRunning(cfg: Config, l: State)
    requires LoopInv(cfg, l)
    ensures DoStep(cfg, l.s).running == FormBatch(cfg, l.s).ids
  {
    hide Inv, FormBatch, DoStep;
    LoopSched(cfg, l);
    BatchRuns(cfg, l.s);
  }

  // ---------------------------------------------------------------- a drain that stops there

  datatype Drained = Drained(l: State, raised: bool)

  /** Pumps until the loop is idle or a pump raises; `inputs(k)` is what the k-th pump meets. */
  ghost function Drain(cfg: Config, l: State, burst: nat, inputs: nat -> Input, k: nat): Drained
    requires LoopInv(cfg, l) && cfg.maxBatch >= 1 && cfg.maxTokens >= 1
    decreases Work(l)
  {
    if !Busy(l) then Drained(l, false)
    else
      var i := inputs(k);
      var l' := DoPump(cfg, l, burst, i.hits, i.outcome);
      PumpKeeps(cfg, l, burst, i.hits, i.outcome);
      PumpLowersWork(cfg, l, burst, i.hits, i.outcome);
      if Raises(cfg, l, burst, i.hits, i.outcome) then Drained(l', true)
      else Drain(cfg, l', burst, inputs, k + 1)
  }

  /**
   A drain answers every request submitted so far, exactly once, if and only if none of its pumps
   raises; if one does, a live request is left with an open queue and no final frame.
   */
  lemma {:induction false} DrainAnswersExactly(cfg: Config, l: State, burst: nat, inputs: nat -> Input, k: nat)
    requires LoopInv(cfg, l) && Wired(l) && cfg.maxBatch >= 1 && cfg.maxTokens >= 1
    ensures var d := Drain(cfg, l, burst, inputs, k);
      && LoopInv(cfg, d.l) && Wired(d.l) && d.l.frames.Keys == l.frames.Keys
      && (!d.raised <==> forall rid :: rid in d.l.frames ==> Closed(d.l.frames[rid]))
      && (!d.raised <==> !Busy(d.l))
      && (d.raised ==> exists id :: Unanswered(d.l, id))
    decreases Work(l)
  {
    hide LoopInv, Work, DoPump, Closed, Raises, Wired, Busy, AllDeltas;
    if !Busy(l) {
      forall rid | rid in l.frames
        ensures Closed(l.frames[rid])
      {
        IdleIsClosed(cfg, l, rid);
      }
    } else {
      var i := inputs(k);
      var l' := DoPump(cfg, l, burst, i.hits, i.outcome);
      PumpKeeps(cfg, l, burst, i.hits, i.outcome);
      PumpWired(cfg, l, burst, i.hits, i.outcome);
      PumpLowersWork(cfg, l, burst, i.hits, i.outcome);
      PumpKeepsFrames(cfg, l, Input(burst, i.hits, i.outcome));
      if Raises(cfg, l, burst, i.hits, i.outcome) {
        var id := RaiseLeavesOpen(cfg, l, burst, i.hits, i.outcome);
        OpenNotClosed(l', l'.s.table[id].rid);
        RunningBusy(l', id);
      } else {
        DrainAnswersExactly(cfg, l', burst, inputs, k + 1);
      }
    }
  }

  lemma RunningBusy(l: State, id: nat)
    requires id in l.s.running
    ensures Busy(l)
  {
  }

  lemma OpenNotClosed(l: State, rid: nat)
    requires rid in l.frames && AllDeltas(l.frames[rid])
    ensures !Closed(l.frames[rid])
  {
    var fs := l.frames[rid];
    if fs != [] {
      assert fs[|fs| - 1].Delta?;
    }
  }
}
