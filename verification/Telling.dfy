/**
 What clients are told over whole histories: the deltas of a live request are its output, and the
 output keeps all stop rules; a final frame has the reason that its history gave it.  All of it
 while no burst raises; what a burst that raises breaks is stated exactly.
 */
module Telling {
  import opened Prelude
  import opened Scheduling
  import opened Limits
  import opened Loop
  import opened LoopSafety
  import opened Draining

  // ---------------------------------------------------------------- what is kept

  /** Nothing in the output should have stopped the request. */
  ghost predicate StopFree(p: Params, out: seq<Token>) {
    (forall t :: t in out ==> !Ends(p, t)) && (out != [] ==> !Contains(p, out))
  }

  /** Tokens of the deltas, in order. */
  ghost function DeltaTokens(fs: seq<Frame>): seq<Token> {
    if fs == [] then []
    else
      var n := |fs| - 1;
      DeltaTokens(fs[..n]) + match fs[n] case Delta(toks) => toks case Final(_, _) => []
  }

  ghost predicate Alive(table: map<nat, Req>, gen: map<nat, Gen>, id: nat) {
    id in table && !table[id].finished && id in gen
  }

  /** The outputs of live requests keep the stop rules. */
  ghost predicate Clean(table: map<nat, Req>, gen: map<nat, Gen>) {
    forall id :: Alive(table, gen, id) ==> StopFree(gen[id].params, gen[id].output)
  }

  /** The deltas a live request has been sent are its output. */
  ghost predicate Told(table: map<nat, Req>, gen: map<nat, Gen>, open: set<nat>, frames: map<nat, seq<Frame>>) {
    forall id :: Alive(table, gen, id) && gen[id].rid in open && gen[id].rid in frames ==>
      DeltaTokens(frames[gen[id].rid]) == gen[id].output
  }

  /** A queued request has been sent nothing. */
  ghost predicate Silent(queue: seq<Pending>, open: set<nat>, frames: map<nat, seq<Frame>>) {
    forall i :: 0 <= i < |queue| && queue[i].rid in open && queue[i].rid in frames ==> frames[queue[i].rid] == []
  }

  /** `out` is the whole output of an ended request of that id. */
  ghost predicate Whole(table: map<nat, Req>, gen: map<nat, Gen>, rid: nat, out: seq<Token>, id: nat) {
    id in table && table[id].finished && id in gen && gen[id].rid == rid && gen[id].output == out
  }

  /** The reason of a final frame is the one its history gives: `cancels` and `timeouts` are the ids so ended. */
  ghost predicate Earned(table: map<nat, Req>, gen: map<nat, Gen>, cancels: set<nat>, timeouts: set<nat>,
                         rid: nat, f: Frame)
  {
    match f
    case Delta(_) => true
    case Final(reason, out) =>
      match reason
      case Cancelled => rid in cancels && out == []
      case TimedOut => rid in timeouts && out == []
      case Length => exists id :: Whole(table, gen, rid, out, id) && |out| == gen[id].params.maxTokens
      case Stopped => exists id :: Whole(table, gen, rid, out, id) && |out| <= gen[id].params.maxTokens
      case Failed => out == [] || exists id :: Whole(table, gen, rid, out, id)
  }

  ghost predicate AllEarned(table: map<nat, Req>, gen: map<nat, Gen>, cancels: set<nat>, timeouts: set<nat>,
                            frames: map<nat, seq<Frame>>)
  {
    forall rid, i :: rid in frames && 0 <= i < |frames[rid]| ==>
      Earned(table, gen, cancels, timeouts, rid, frames[rid][i])
  }

  ghost predicate Honest(l: State, cancels: set<nat>, timeouts: set<nat>) {
    && l.cancelled <= cancels
    && Clean(l.s.table, l.gen) && Told(l.s.table, l.gen, l.open, l.frames) && Silent(l.queue, l.open, l.frames)
    && AllEarned(l.s.table, l.gen, cancels, timeouts, l.frames)
  }

  // ---------------------------------------------------------------- records and frames

  /** Ended requests keep their records. */
  ghost predicate Lasting(l: State, l': State) {
    forall id :: id in l.s.table && l.s.table[id].finished && id in l.gen ==>
      id in l'.s.table && l'.s.table[id].finished && id in l'.gen && l'.gen[id] == l.gen[id]
  }

  lemma EarnedLasts(l: State, l': State, cancels: set<nat>, timeouts: set<nat>, cancels': set<nat>, timeouts': set<nat>)
    requires Lasting(l, l') && cancels <= cancels' && timeouts <= timeouts'
    requires AllEarned(l.s.table, l.gen, cancels, timeouts, l.frames)
    ensures AllEarned(l'.s.table, l'.gen, cancels', timeouts', l.frames)
  {
    forall rid, i | rid in l.frames && 0 <= i < |l.frames[rid]|
      ensures Earned(l'.s.table, l'.gen, cancels', timeouts', rid, l.frames[rid][i])
    {
      var f := l.frames[rid][i];
      assert Earned(l.s.table, l.gen, cancels, timeouts, rid, f);
      if f.Final? && (f.reason == Length || f.reason == Stopped || (f.reason == Failed && f.output != [])) {
        var id :| Whole(l.s.table, l.gen, rid, f.output, id)
                  && (f.reason == Length ==> |f.output| == l.gen[id].params.maxTokens)
                  && (f.reason == Stopped ==> |f.output| <= l.gen[id].params.maxTokens);
        assert Whole(l'.s.table, l'.gen, rid, f.output, id);
      }
    }
  }

  /** One more frame, earned. */
  lemma EmitEarned(l: State, rid: nat, f: Frame, cancels: set<nat>, timeouts: set<nat>)
    requires AllEarned(l.s.table, l.gen, cancels, timeouts, l.frames)
    requires Earned(l.s.table, l.gen, cancels, timeouts, rid, f)
    ensures AllEarned(l.s.table, l.gen, cancels, timeouts, Emit(l, rid, f).frames)
  {
    hide Earned;
  }

  lemma DeltasSnoc(fs: seq<Frame>, f: Frame)
    ensures DeltaTokens(fs + [f]) == DeltaTokens(fs) + match f case Delta(toks) => toks case Final(_, _) => []
  {
    assert (fs + [f])[..|fs|] == fs;
  }

  /** Frames of other requests stay, and queued requests are others. */
  lemma SilentEmit(l: State, rid: nat, f: Frame)
    requires Silent(l.queue, l.open, l.frames)
    requires f.Final? || !InQueue(l.queue, rid)
    ensures Silent(l.queue, Emit(l, rid, f).open, Emit(l, rid, f).frames)
  {
  }

  /** A live request other than the one whose queue gets a frame. */
  lemma ToldOthers(l: State, rid: nat, f: Frame)
    requires Told(l.s.table, l.gen, l.open, l.frames)
    requires forall id :: Alive(l.s.table, l.gen, id) ==> l.gen[id].rid != rid || f.Final?
    ensures Told(l.s.table, l.gen, Emit(l, rid, f).open, Emit(l, rid, f).frames)
  {
    hide DeltaTokens;
  }

  /** Two live requests have different request ids. */
  lemma OwnRid(cfg: Config, l: State, id: nat, j: nat)
    requires LoopInv(cfg, l) && Alive(l.s.table, l.gen, id) && Alive(l.s.table, l.gen, j)
    requires l.gen[id].rid == l.gen[j].rid
    ensures id == j
  {
    hide Inv, Queued, FramesOk, OpenAttended;
  }

  lemma NotQueued(cfg: Config, l: State, id: nat)
    requires LoopInv(cfg, l) && Alive(l.s.table, l.gen, id)
    ensures !InQueue(l.queue, l.gen[id].rid)
  {
    hide Inv, FramesOk, OpenAttended;
  }

  // ---------------------------------------------------------------- ending a request

  /** A live request ends with output `out` and a final frame that this earns. */
  lemma EndHonest(cfg: Config, l: State, id: nat, out: seq<Token>, s: Sched, f: Frame, cancels: set<nat>,
                  timeouts: set<nat>)
    requires LoopInv(cfg, l) && Honest(l, cancels, timeouts) && Alive(l.s.table, l.gen, id) && f.Final?
    requires s == l.s || exists n: nat :: s == DoAdvance(l.s, id, n)
    requires var l1 := l.(s := DoFinish(s, id), gen := l.gen[id := l.gen[id].(output := out)]);
      Whole(l1.s.table, l1.gen, l.gen[id].rid, out, id) ==>
        Earned(l1.s.table, l1.gen, cancels, timeouts, l.gen[id].rid, f)
    ensures var l1 := l.(s := DoFinish(s, id), gen := l.gen[id := l.gen[id].(output := out)]);
      Honest(Emit(l1, l.gen[id].rid, f), cancels, timeouts)
  {
    hide Earned, Emit, DeltaTokens, StopFree, LoopInv, AllEarned, Silent, Clean;
    var g := l.gen[id];
    var l1 := l.(s := DoFinish(s, id), gen := l.gen[id := g.(output := out)]);
    EmitScope(l1, g.rid, f);
    EndRecords(l, id, out, s);
    EarnedLasts(l, l1, cancels, timeouts, cancels, timeouts);
    EmitEarned(l1, g.rid, f, cancels, timeouts);
    SilentEmit(l1, g.rid, f);
    ToldOthers(l1, g.rid, f);
  }

  lemma EndRecords(l: State, id: nat, out: seq<Token>, s: Sched)
    requires Alive(l.s.table, l.gen, id) && (s == l.s || exists n: nat :: s == DoAdvance(l.s, id, n))
    ensures var l1 := l.(s := DoFinish(s, id), gen := l.gen[id := l.gen[id].(output := out)]);
      && Lasting(l, l1) && Whole(l1.s.table, l1.gen, l.gen[id].rid, out, id)
      && (Clean(l.s.table, l.gen) ==> Clean(l1.s.table, l1.gen))
      && (Told(l.s.table, l.gen, l.open, l.frames) ==> Told(l1.s.table, l1.gen, l1.open, l1.frames))
  {
    hide StopFree, DeltaTokens;
    if s != l.s {
      var n: nat :| s == DoAdvance(l.s, id, n);
    }
  }

  // ---------------------------------------------------------------- one delivery

  /** A request that goes on: its delta is sent, and its output keeps the rules. */
  lemma GoHonest(cfg: Config, l: State, id: nat, toks: seq<Token>, cancels: set<nat>, timeouts: set<nat>)
    requires LoopInv(cfg, l) && Honest(l, cancels, timeouts) && Alive(l.s.table, l.gen, id) && toks != []
    requires JudgeAll(l.gen[id].params, l.gen[id].output + toks, toks).Go?
    ensures var g := l.gen[id];
      var out := g.output + toks;
      var l1 := l.(s := DoAdvance(l.s, id, |g.prompt| + |out|), gen := l.gen[id := g.(output := out)]);
      Honest(Emit(l1, g.rid, Delta(toks)), cancels, timeouts)
  {
    hide Earned, DeltaTokens, LoopInv, AllEarned, JudgeAll, Contains;
    var g := l.gen[id];
    var out := g.output + toks;
    var l1 := l.(s := DoAdvance(l.s, id, |g.prompt| + |out|), gen := l.gen[id := g.(output := out)]);
    var l2 := Emit(l1, g.rid, Delta(toks));
    EmitScope(l1, g.rid, Delta(toks));
    JudgedTogether(g.params, out, toks);
    EarnedLasts(l, l1, cancels, timeouts, cancels, timeouts);
    assert Earned(l1.s.table, l1.gen, cancels, timeouts, g.rid, Delta(toks)) by { DeltaEarned(l1, cancels, timeouts,
                                                                                              g.rid, toks); }
    EmitEarned(l1, g.rid, Delta(toks), cancels, timeouts);
    NotQueued(cfg, l, id);
    SilentEmit(l1, g.rid, Delta(toks));
    GoTold(cfg, l, l1, l2, id, toks);
  }

  lemma DeltaEarned(l: State, cancels: set<nat>, timeouts: set<nat>, rid: nat, toks: seq<Token>)
    ensures Earned(l.s.table, l.gen, cancels, timeouts, rid, Delta(toks))
  {
  }

  lemma GoTold(cfg: Config, l: State, l1: State, l2: State, id: nat, toks: seq<Token>)
    requires LoopInv(cfg, l) && Told(l.s.table, l.gen, l.open, l.frames) && Alive(l.s.table, l.gen, id)
    requires var g := l.gen[id];
      var out := g.output + toks;
      && l1 == l.(s := DoAdvance(l.s, id, |g.prompt| + |out|), gen := l.gen[id := g.(output := out)])
      && l2 == Emit(l1, g.rid, Delta(toks))
    ensures Told(l2.s.table, l2.gen, l2.open, l2.frames)
  {
    hide DeltaTokens, LoopInv;
    var rid := l.gen[id].rid;
    forall j | Alive(l2.s.table, l2.gen, j) && l2.gen[j].rid in l2.open && l2.gen[j].rid in l2.frames
      ensures DeltaTokens(l2.frames[l2.gen[j].rid]) == l2.gen[j].output
    {
      assert Alive(l.s.table, l.gen, j);
      if j == id {
        DeltasSnoc(l.frames[rid], Delta(toks));
      } else if l2.gen[j].rid == rid {
        OwnRid(cfg, l, id, j);
      }
    }
  }

  /** A delivery keeps everything told true. */
  lemma DeliverHonest(cfg: Config, l: State, id: nat, toks: seq<Token>, cancels: set<nat>, timeouts: set<nat>)
    requires LoopInv(cfg, l) && Honest(l, cancels, timeouts) && id in l.s.table && !l.s.table[id].finished
    requires toks != [] && id in l.gen && |l.gen[id].output| + |toks| <= l.gen[id].params.maxTokens
    ensures Honest(DeliverOne(l, id, toks), cancels, timeouts)
  {
    hide Honest, Emit, DoFinish, DoAdvance, JudgeAll, LoopInv, Earned;
    var g := l.gen[id];
    var out := g.output + toks;
    if g.rid in l.cancelled {
      assert l.gen[id := g.(output := g.output)] == l.gen;
      CancelEarned(l, id, cancels, timeouts);
      EndHonest(cfg, l, id, g.output, l.s, Final(Cancelled, []), cancels, timeouts);
    } else {
      match JudgeAll(g.params, out, toks) {
        case Go => GoHonest(cfg, l, id, toks, cancels, timeouts);
        case Stop(r, o) =>
          var s1 := DoAdvance(l.s, id, |g.prompt| + |out|);
          StopEarned(l, id, out, toks, s1, cancels, timeouts);
          EndHonest(cfg, l, id, o, s1, Final(r, o), cancels, timeouts);
      }
    }
  }

  lemma CancelEarned(l: State, id: nat, cancels: set<nat>, timeouts: set<nat>)
    requires Honest(l, cancels, timeouts) && id in l.gen && l.gen[id].rid in l.cancelled
    ensures forall s: Sched, gen :: Earned(s.table, gen, cancels, timeouts, l.gen[id].rid, Final(Cancelled, []))
  {
    hide AllEarned, Told, Silent, Clean;
  }

  /** The verdict of the rules is an earned ending. */
  lemma StopEarned(l: State, id: nat, out: seq<Token>, toks: seq<Token>, s1: Sched, cancels: set<nat>,
                   timeouts: set<nat>)
    requires id in l.gen && toks != [] && |out| <= l.gen[id].params.maxTokens
    requires JudgeAll(l.gen[id].params, out, toks).Stop?
    ensures var v, g := JudgeAll(l.gen[id].params, out, toks), l.gen[id];
      var l1 := l.(s := DoFinish(s1, id), gen := l.gen[id := g.(output := v.output)]);
      Whole(l1.s.table, l1.gen, g.rid, v.output, id) ==>
        Earned(l1.s.table, l1.gen, cancels, timeouts, g.rid, Final(v.reason, v.output))
  {
    hide Judge, Contains, DoFinish;
    var g := l.gen[id];
    JudgedTogether(g.params, out, toks);
    var i := FirstEnd(g.params, toks);
    StopsWith(g.params, out, toks[0]);
    if i < |toks| {
      StopsWith(g.params, out, toks[i]);
    }
    assert out[..|out|] == out;
  }

  lemma {:induction false} DeliverAllHonest(cfg: Config, l: State, ids: seq<nat>, first: nat -> Token,
                                            cancels: set<nat>, timeouts: set<nat>)
    requires LoopInv(cfg, l) && Honest(l, cancels, timeouts) && LiveBatch(l, ids)
    ensures Honest(DeliverAll(l, ids, first), cancels, timeouts)
    decreases |ids|
  {
    hide LoopInv, Others, DeliverOne, Honest;
    if ids != [] {
      var l' := DeliverOne(l, ids[0], [first(ids[0])]);
      RoomForOne(cfg, l, ids[0]);
      DeliverHonest(cfg, l, ids[0], [first(ids[0])], cancels, timeouts);
      DeliverOneKeeps(cfg, l, ids[0], [first(ids[0])]);
      DeliverOneOthers(l, ids[0], [first(ids[0])]);
      LiveRest(l, l', ids);
      DeliverAllHonest(cfg, l', ids[1..], first, cancels, timeouts);
    }
  }

  lemma FailHonest(cfg: Config, l: State, id: nat, cancels: set<nat>, timeouts: set<nat>)
    requires LoopInv(cfg, l) && Honest(l, cancels, timeouts) && id in l.s.table && !l.s.table[id].finished
    ensures Honest(FailOne(l, id), cancels, timeouts)
  {
    hide Honest, Emit, DoFinish, LoopInv;
    if id in l.gen {
      var g := l.gen[id];
      assert l.gen[id := g.(output := g.output)] == l.gen;
      EndHonest(cfg, l, id, g.output, l.s, Final(Failed, g.output), cancels, timeouts);
    }
  }

  lemma {:induction false} FailAllHonest(cfg: Config, l: State, ids: seq<nat>, cancels: set<nat>, timeouts: set<nat>)
    requires LoopInv(cfg, l) && Honest(l, cancels, timeouts) && LiveBatch(l, ids)
    ensures Honest(FailAll(l, ids), cancels, timeouts)
    decreases |ids|
  {
    hide LoopInv, Others, FailOne, Honest;
    if ids != [] {
      FailHonest(cfg, l, ids[0], cancels, timeouts);
      FailOneKeeps(cfg, l, ids[0]);
      FailOneOthers(l, ids[0]);
      LiveRest(l, FailOne(l, ids[0]), ids);
      FailAllHonest(cfg, FailOne(l, ids[0]), ids[1..], cancels, timeouts);
    }
  }

  // ---------------------------------------------------------------- admission, clients

  lemma AdmitHonest(cfg: Config, l: State, hit: nat, cancels: set<nat>, timeouts: set<nat>)
    requires LoopInv(cfg, l) && Honest(l, cancels, timeouts) && l.queue != []
    ensures Honest(AdmitOne(cfg, l.(queue := l.queue[1..]), l.queue[0], hit), cancels, timeouts)
  {
    hide Earned, Emit, DeltaTokens, StopFree, LoopInv, AllEarned, Accepts;
    var it, l1 := l.queue[0], l.(queue := l.queue[1..]);
    TailSilent(l);
    if it.rid in l.cancelled {
    } else if !Accepts(cfg, l.s, |it.prompt|) {
      EmitScope(l1, it.rid, Final(Failed, []));
      RefusedEarned(l1, cancels, timeouts, it.rid);
      EmitEarned(l1, it.rid, Final(Failed, []), cancels, timeouts);
      SilentEmit(l1, it.rid, Final(Failed, []));
      ToldOthers(l1, it.rid, Final(Failed, []));
    } else {
      NewIdIsNew(cfg, l);
      var l2 := AdmitOne(cfg, l1, it, hit);
      EarnedLasts(l1, l2, cancels, timeouts, cancels, timeouts);
      EmptyIsFree(it.params);
      NoDeltas();
    }
  }

  lemma TailSilent(l: State)
    requires Silent(l.queue, l.open, l.frames) && l.queue != []
    ensures Silent(l.queue[1..], l.open, l.frames)
    ensures l.queue[0].rid in l.open && l.queue[0].rid in l.frames ==> l.frames[l.queue[0].rid] == []
  {
  }

  lemma RefusedEarned(l: State, cancels: set<nat>, timeouts: set<nat>, rid: nat)
    ensures Earned(l.s.table, l.gen, cancels, timeouts, rid, Final(Failed, []))
  {
  }

  lemma NewIdIsNew(cfg: Config, l: State)
    requires LoopInv(cfg, l)
    ensures l.s.nextId !in l.s.table && l.s.nextId !in l.gen
  {
    hide Indexed, Queued, FramesOk, OpenAttended;
  }

  lemma EmptyIsFree(p: Params)
    ensures StopFree(p, [])
  {
  }

  lemma NoDeltas()
    ensures DeltaTokens([]) == []
  {
  }

  lemma {:induction false} AdmitAllHonest(cfg: Config, l: State, hits: nat -> nat, cancels: set<nat>,
                                          timeouts: set<nat>)
    requires LoopInv(cfg, l) && Honest(l, cancels, timeouts)
    ensures Honest(AdmitAll(cfg, l, hits), cancels, timeouts)
    decreases |l.queue|
  {
    hide LoopInv, AdmitOne, Honest;
    if l.queue != [] {
      AdmitOneKeeps(cfg, l, hits(l.queue[0].rid));
      AdmitHonest(cfg, l, hits(l.queue[0].rid), cancels, timeouts);
      var l2 := AdmitOne(cfg, l.(queue := l.queue[1..]), l.queue[0], hits(l.queue[0].rid));
      assert l2.(queue := l.queue[1..]) == l2;
      AdmitAllHonest(cfg, l2, hits, cancels, timeouts);
    }
  }

  lemma SubmitHonest(cfg: Config, l: State, rid: nat, prompt: seq<Token>, p: Params, cancels: set<nat>,
                     timeouts: set<nat>)
    requires LoopInv(cfg, l) && Honest(l, cancels, timeouts) && FreshId(l, rid)
    ensures Honest(DoSubmit(l, rid, prompt, p), cancels, timeouts)
  {
    hide Earned, DeltaTokens, StopFree, Inv, Queued, FramesOk, OpenAttended;
  }

  /** Ending the requests of one id from outside, by `f`. */
  lemma StopHonest(cfg: Config, l: State, rid: nat, f: Frame, cancelled: set<nat>,
                   cancels: set<nat>, timeouts: set<nat>, cancels': set<nat>, timeouts': set<nat>)
    requires LoopInv(cfg, l) && Honest(l, cancels, timeouts) && f.Final? && cancels <= cancels' && timeouts <= timeouts'
    requires cancelled <= cancels'
    requires forall t: map<nat, Req>, gen :: Earned(t, gen, cancels', timeouts', rid, f)
    ensures Honest(Emit(l.(cancelled := cancelled, s := DoCancel(l.s, rid)), rid, f), cancels', timeouts')
  {
    hide Earned, Emit, DeltaTokens, StopFree, LoopInv, AllEarned;
    var l1 := l.(cancelled := cancelled, s := DoCancel(l.s, rid));
    EmitScope(l1, rid, f);
    CancelRecords(l, l1, rid);
    EarnedLasts(l, l1, cancels, timeouts, cancels', timeouts');
    EmitEarned(l1, rid, f, cancels', timeouts');
    SilentEmit(l1, rid, f);
    ToldOthers(l1, rid, f);
  }

  lemma CancelRecords(l: State, l1: State, rid: nat)
    requires l1 == l.(cancelled := l1.cancelled, s := DoCancel(l.s, rid))
    ensures Lasting(l, l1)
    ensures Clean(l.s.table, l.gen) ==> Clean(l1.s.table, l1.gen)
    ensures Told(l.s.table, l.gen, l.open, l.frames) ==> Told(l1.s.table, l1.gen, l1.open, l1.frames)
  {
    hide StopFree, DeltaTokens;
  }

  lemma CancelHonest(cfg: Config, l: State, rid: nat, cancels: set<nat>, timeouts: set<nat>)
    requires LoopInv(cfg, l) && Honest(l, cancels, timeouts)
    ensures Honest(DoCancelReq(l, rid), cancels + {rid}, timeouts)
    ensures Honest(DoTimeout(l, rid), cancels, timeouts + {rid})
  {
    hide Emit, LoopInv, Clean, Told, Silent, AllEarned, DoCancel;
    StopHonest(cfg, l, rid, Final(Cancelled, []), l.cancelled + {rid}, cancels, timeouts, cancels + {rid}, timeouts);
    StopHonest(cfg, l, rid, Final(TimedOut, []), l.cancelled, cancels, timeouts, cancels, timeouts + {rid});
    assert l.(cancelled := l.cancelled) == l;
  }

  // ---------------------------------------------------------------- pumps

  lemma StepHonest(cfg: Config, l: State, cancels: set<nat>, timeouts: set<nat>)
    requires Honest(l, cancels, timeouts)
    ensures Honest(l.(s := DoStep(cfg, l.s)), cancels, timeouts)
  {
    hide FormBatch, Clean, Told, Silent, AllEarned;
  }

  lemma PumpBatchHonest(cfg: Config, l: State, burst: nat, o: Outcome, cancels: set<nat>, timeouts: set<nat>)
    requires LoopInv(cfg, l) && Honest(l, cancels, timeouts)
    requires !(o.Raised? && FormBatch(cfg, l.s).ids != [] && Extra(l, FormBatch(cfg, l.s), burst) > 0)
    ensures Honest(PumpBatch(cfg, l, burst, o), cancels, timeouts)
  {
    hide LoopInv, FormBatch, DoStep, Extra, DeliverOne, Honest;
    var b := FormBatch(cfg, l.s);
    var l1 := l.(s := DoStep(cfg, l.s));
    StepLoopInv(cfg, l);
    StepHonest(cfg, l, cancels, timeouts);
    BatchIsLive(cfg, l);
    if b.ids != [] {
      match o {
        case Crash => FailAllHonest(cfg, l1, b.ids, cancels, timeouts);
        case Tokens(first, more) =>
          var n := Extra(l, b, burst);
          if n > 0 {
            BurstFits(cfg, l, burst, more, first(b.ids[0]));
            RoomForOne(cfg, l1, b.ids[0]);
            DeliverHonest(cfg, l1, b.ids[0], [first(b.ids[0])] + if n <= |more| then more[..n] else more, cancels,
                          timeouts);
          } else {
            DeliverAllHonest(cfg, l1, b.ids, first, cancels, timeouts);
          }
        case Raised(first, kept) => DeliverAllHonest(cfg, l1, b.ids, first, cancels, timeouts);
      }
    }
  }

  lemma PumpHonest(cfg: Config, l: State, burst: nat, hits: nat -> nat, o: Outcome, cancels: set<nat>,
                   timeouts: set<nat>)
    requires LoopInv(cfg, l) && Honest(l, cancels, timeouts) && !Raises(cfg, l, burst, hits, o)
    ensures Honest(DoPump(cfg, l, burst, hits, o), cancels, timeouts)
  {
    hide LoopInv, AdmitAll, PumpBatch, Honest, FormBatch, Extra;
    AdmitAllKeeps(cfg, l, hits);
    AdmitAllHonest(cfg, l, hits, cancels, timeouts);
    PumpBatchHonest(cfg, AdmitAll(cfg, l, hits), burst, o, cancels, timeouts);
  }

  // ---------------------------------------------------------------- histories

  /** No burst of the history raises. */
  ghost predicate Quiet(cfg: Config, l: State, evs: seq<Event>) {
    forall i :: 0 <= i < |evs| && evs[i].Pump? ==>
      var p := evs[i].input;
      !Raises(cfg, History(cfg, l, evs[..i]), p.burst, p.hits, p.outcome)
  }

  /** Request ids that were cancelled, and that timed out. */
  ghost function CancelledIds(evs: seq<Event>): set<nat> {
    set i | 0 <= i < |evs| && evs[i].Cancel? :: evs[i].rid
  }

  ghost function TimedOutIds(evs: seq<Event>): set<nat> {
    set i | 0 <= i < |evs| && evs[i].Timeout? :: evs[i].rid
  }

  lemma IdsSnoc(evs: seq<Event>)
    requires evs != []
    ensures var n := |evs| - 1;
      && CancelledIds(evs) == CancelledIds(evs[..n]) + (if evs[n].Cancel? then {evs[n].rid} else {})
      && TimedOutIds(evs) == TimedOutIds(evs[..n]) + (if evs[n].Timeout? then {evs[n].rid} else {})
  {
    var n := |evs| - 1;
    forall r
      ensures r in CancelledIds(evs) <==> r in CancelledIds(evs[..n]) || (evs[n].Cancel? && evs[n].rid == r)
      ensures r in TimedOutIds(evs) <==> r in TimedOutIds(evs[..n]) || (evs[n].Timeout? && evs[n].rid == r)
    {
      if r in CancelledIds(evs[..n]) {
        var i :| 0 <= i < n && evs[..n][i].Cancel? && evs[..n][i].rid == r;
        assert evs[i] == evs[..n][i];
      }
      if r in TimedOutIds(evs[..n]) {
        var i :| 0 <= i < n && evs[..n][i].Timeout? && evs[..n][i].rid == r;
        assert evs[i] == evs[..n][i];
      }
      if r in CancelledIds(evs) {
        var i :| 0 <= i <= n && evs[i].Cancel? && evs[i].rid == r;
        assert i < n ==> evs[..n][i] == evs[i];
      }
      if r in TimedOutIds(evs) {
        var i :| 0 <= i <= n && evs[i].Timeout? && evs[i].rid == r;
        assert i < n ==> evs[..n][i] == evs[i];
      }
    }
  }

  lemma NothingTold()
    ensures Honest(Empty, {}, {}) && CancelledIds([]) == {} && TimedOutIds([]) == {}
  {
  }

  /**
   In every history in which no burst raises: the deltas a live request was sent are its output,
   which has no stop token and no stop string; a `length` answer has exactly the tokens that were
   asked for; a cancelled or timed-out ending was asked for; and every other ending carries the
   whole output of a request of that id.
   */
  lemma {:induction false} HistoryIsHonest(cfg: Config, evs: seq<Event>)
    requires FreshIds(cfg, Empty, evs) && Quiet(cfg, Empty, evs)
    ensures Honest(History(cfg, Empty, evs), CancelledIds(evs), TimedOutIds(evs))
    decreases |evs|
  {
    hide LoopInv, DoSubmit, DoCancelReq, DoTimeout, DoPump, FreshId, AdmitAll, Honest, CancelledIds, TimedOutIds,
      Raises;
    HistoryKeeps(cfg, evs);
    if evs == [] {
      NothingTold();
    } else {
      var n := |evs| - 1;
      var front := evs[..n];
      forall i | 0 <= i < |front|
        ensures front[..i] == evs[..i] && front[i] == evs[i]
      {
      }
      HistoryIsHonest(cfg, front);
      HistoryKeeps(cfg, front);
      IdsSnoc(evs);
      var l, c, t := History(cfg, Empty, front), CancelledIds(front), TimedOutIds(front);
      assert c + {} == c && t + {} == t;
      match evs[n] {
        case Submit(rid, prompt, p) => SubmitHonest(cfg, l, rid, prompt, p, c, t);
        case Cancel(rid) => CancelHonest(cfg, l, rid, c, t);
        case Timeout(rid) => CancelHonest(cfg, l, rid, c, t);
        case BeginDrain => DrainHonest(l, c, t);
        case Admit(hits) => AdmitAllHonest(cfg, l, hits, c, t);
        case Pump(i) => PumpHonest(cfg, l, i.burst, i.hits, i.outcome, c, t);
      }
    }
  }

  lemma DrainHonest(l: State, cancels: set<nat>, timeouts: set<nat>)
    requires Honest(l, cancels, timeouts)
    ensures Honest(DoDrain(l), cancels, timeouts)
  {
    hide Clean, Told, Silent, AllEarned;
  }

  // ---------------------------------------------------------------- what a raise breaks

  /**
   A burst that raises keeps tokens that no rule has judged and no frame has told: the outputs
   keep the stop rules exactly when these tokens would have passed them all, and the deltas lack
   exactly these tokens.
   */
  lemma RaiseKeepsRulesExactly(cfg: Config, l: State, id: nat, toks: seq<Token>)
    requires LoopInv(cfg, l) && Clean(l.s.table, l.gen) && Told(l.s.table, l.gen, l.open, l.frames)
    requires Alive(l.s.table, l.gen, id) && toks != []
    requires l.gen[id].rid in l.open
    ensures var l', g := KeepOne(l, id, toks), l.gen[id];
      && (Clean(l'.s.table, l'.gen) <==> (forall t :: t in toks ==> !Ends(g.params, t)) && !Contains(g.params,
                                                                                                     g.output + toks))
      && id in l'.gen && g.rid in l'.frames && DeltaTokens(l'.frames[g.rid]) + toks == l'.gen[id].output
  {
    hide Contains, DeltaTokens, Inv, Indexed, Queued, OpenAttended;
    var l', g := KeepOne(l, id, toks), l.gen[id];
    assert Alive(l'.s.table, l'.gen, id);
    assert StopFree(g.params, g.output);
    forall t
      ensures t in g.output + toks <==> t in g.output || t in toks
    {
    }
    if Clean(l'.s.table, l'.gen) {
      assert StopFree(l'.gen[id].params, l'.gen[id].output);
    }
  }

  // ---------------------------------------------------------------- what each operation tells

  /** The frame `f` reaches the client of `rid` if its queue is still registered, and nobody else gets one. */
  ghost predicate Sends(l: State, l': State, rid: nat, f: Frame) {
    && l'.frames.Keys == l.frames.Keys && (forall r :: r in l.frames && r != rid ==> l'.frames[r] == l.frames[r])
    && (rid in l.frames && rid in l.open ==> l'.frames[rid] == l.frames[rid] + [f])
    && (rid in l.frames && rid !in l.open ==> l'.frames[rid] == l.frames[rid])
    && l'.open == if f.Final? then l.open - {rid} else l.open
  }

  lemma EmitSends(l: State, rid: nat, f: Frame)
    requires rid in l.open ==> rid in l.frames
    ensures Sends(l, Emit(l, rid, f), rid, f)
  {
  }

  /** A request is accepted exactly while not draining, with a prompt and a positive limit. */
  lemma SubmitExactly(l: State, rid: nat, prompt: seq<Token>, p: Params)
    ensures var l' := DoSubmit(l, rid, prompt, p);
      if !l.draining && prompt != [] && p.maxTokens >= 1 then
        && l'.queue == l.queue + [Pending(rid, prompt, p)] && rid in l'.open && rid in l'.frames && l'.frames[rid] == []
        && l'.s == l.s && l'.gen == l.gen && l'.cancelled == l.cancelled
      else l' == l
  {
  }

  /**
   The head of the submission queue is dropped if it was cancelled; refused with an error if the
   waiting queue is full or its prompt too long; and otherwise queued in the scheduler, last,
   with no output yet and no frame.
   */
  lemma AdmitExactly(cfg: Config, l: State, hit: nat)
    requires LoopInv(cfg, l) && l.queue != []
    ensures var it, l1 := l.queue[0], l.(queue := l.queue[1..]);
      var l' := AdmitOne(cfg, l1, it, hit);
      if it.rid in l.cancelled then l' == l1.(cancelled := l.cancelled - {it.rid})
      else if |l.s.waiting| >= cfg.maxWaiting || |it.prompt| > cfg.maxPrompt then
        Sends(l1, l', it.rid, Final(Failed, [])) && l'.s == l.s && l'.gen == l.gen
      else
        && l'.s.waiting == l.s.waiting + [l.s.nextId] && l.s.nextId !in l.s.table
        && l'.s.table == l.s.table[l.s.nextId := Req(it.rid, |it.prompt|, hit, false, false)]
        && l'.gen == l.gen[l.s.nextId := Gen(it.rid, it.prompt, it.params, [])]
        && l'.frames == l.frames && l'.open == l.open && l'.s.running == l.s.running
  {
    hide Indexed, Generating, OpenAttended, Emit, Inv;
    NewIdIsNew(cfg, l);
    EmitSends(l.(queue := l.queue[1..]), l.queue[0].rid, Final(Failed, []));
    EmitScope(l.(queue := l.queue[1..]), l.queue[0].rid, Final(Failed, []));
  }

  /** A cancel ends the request of that id with the reason `cancelled`, a timeout with `timeout`. */
  lemma StopTells(cfg: Config, l: State, rid: nat)
    requires LoopInv(cfg, l)
    ensures Sends(l, DoCancelReq(l, rid), rid, Final(Cancelled, []))
    ensures Sends(l, DoTimeout(l, rid), rid, Final(TimedOut, []))
    ensures rid !in DoCancelReq(l, rid).s.byRid && rid !in DoTimeout(l, rid).s.byRid
    ensures rid in DoCancelReq(l, rid).cancelled && DoTimeout(l, rid).cancelled == l.cancelled
  {
    hide Inv, Generating, Queued, OpenAttended, Emit;
    var l1, l2 := l.(cancelled := l.cancelled + {rid}, s := DoCancel(l.s, rid)), l.(s := DoCancel(l.s, rid));
    EmitSends(l1, rid, Final(Cancelled, []));
    EmitScope(l1, rid, Final(Cancelled, []));
    EmitSends(l2, rid, Final(TimedOut, []));
    EmitScope(l2, rid, Final(TimedOut, []));
  }

  /** A failed batch ends each member with an error and the output it has. */
  lemma FailTells(cfg: Config, l: State, id: nat)
    requires LoopInv(cfg, l) && Alive(l.s.table, l.gen, id)
    ensures var l' := FailOne(l, id);
      && Sends(l, l', l.gen[id].rid, Final(Failed, l.gen[id].output)) && l'.gen == l.gen
      && id in l'.s.table && l'.s.table[id].finished && id !in l'.s.running && id !in l'.s.waiting
  {
    hide Inv, Indexed, Generating, Queued, OpenAttended, Emit;
    EmitSends(l.(s := DoFinish(l.s, id)), l.gen[id].rid, Final(Failed, l.gen[id].output));
    EmitScope(l.(s := DoFinish(l.s, id)), l.gen[id].rid, Final(Failed, l.gen[id].output));
  }

  /** The tokens pass every rule: below the limit, no stop token among them, no stop string in the text. */
  ghost predicate Passes(g: Gen, toks: seq<Token>) {
    && |g.output + toks| < g.params.maxTokens
    && (forall t :: t in toks ==> !Ends(g.params, t)) && !Contains(g.params, g.output + toks)
  }

  /**
   A delivery appends the tokens.  If they pass every rule the client gets them as a delta and the
   request goes on; otherwise it ends with the output the rules leave: `length` exactly at the
   limit, then with all tokens, and `stop` below it.
   */
  lemma DeliverTells(cfg: Config, l: State, id: nat, toks: seq<Token>)
    requires LoopInv(cfg, l) && Alive(l.s.table, l.gen, id) && toks != [] && l.gen[id].rid !in l.cancelled
    requires |l.gen[id].output| + |toks| <= l.gen[id].params.maxTokens
    ensures var l', g := DeliverOne(l, id, toks), l.gen[id];
      && id in l'.s.table && id in l'.gen
      && (Passes(g, toks) <==> !l'.s.table[id].finished)
      && (Passes(g, toks) ==> l'.gen[id].output == g.output + toks && Sends(l, l', g.rid, Delta(toks)))
      && (!Passes(g, toks) ==>
            var atLimit := |g.output| + |toks| == g.params.maxTokens;
            && Sends(l, l', g.rid, Final(if atLimit then Length else Stopped, l'.gen[id].output))
            && l'.gen[id].output <= g.output + toks && (atLimit ==> l'.gen[id].output == g.output + toks))
  {
    hide LoopInv, Emit, DoFinish, DoAdvance, JudgeAll, Contains;
    var g := l.gen[id];
    var out := g.output + toks;
    OpenKnown(cfg, l, g.rid);
    JudgedTogether(g.params, out, toks);
    PassesIs(g, toks);
    var s1 := DoAdvance(l.s, id, |g.prompt| + |out|);
    AdvanceAlive(l.s, id, |g.prompt| + |out|);
    match JudgeAll(g.params, out, toks) {
      case Go =>
        var l1 := l.(s := s1, gen := l.gen[id := g.(output := out)]);
        EmitSends(l1, g.rid, Delta(toks));
        EmitScope(l1, g.rid, Delta(toks));
      case Stop(r, o) =>
        StopReason(g.params, out, toks);
        var l1 := l.(s := DoFinish(s1, id), gen := l.gen[id := g.(output := o)]);
        FinishEnds(s1, id);
        EmitSends(l1, g.rid, Final(r, o));
        EmitScope(l1, g.rid, Final(r, o));
    }
  }

  lemma OpenKnown(cfg: Config, l: State, rid: nat)
    requires LoopInv(cfg, l)
    ensures rid in l.open ==> rid in l.frames
  {
    hide Inv, Indexed, Generating, Queued, OpenAttended;
  }

  lemma PassesIs(g: Gen, toks: seq<Token>)
    ensures Passes(g, toks) <==>
      |g.output + toks| < g.params.maxTokens && FirstEnd(g.params, toks) == |toks| && !Contains(g.params,
                                                                                                g.output + toks)
  {
    hide Contains;
    var i := FirstEnd(g.params, toks);
    if i < |toks| {
      assert toks[i] in toks;
    }
  }

  lemma AdvanceAlive(s: Sched, id: nat, n: nat)
    requires id in s.table && !s.table[id].finished
    ensures id in DoAdvance(s, id, n).table && !DoAdvance(s, id, n).table[id].finished
  {
  }

  lemma FinishEnds(s: Sched, id: nat)
    requires id in s.table
    ensures id in DoFinish(s, id).table && DoFinish(s, id).table[id].finished
  {
  }

  /** The reason and the output of a verdict within the limit. */
  lemma StopReason(p: Params, out: seq<Token>, toks: seq<Token>)
    requires toks != [] && |out| <= p.maxTokens && JudgeAll(p, out, toks).Stop?
    ensures var v := JudgeAll(p, out, toks);
      v.reason == (if |out| == p.maxTokens then Length else Stopped) && (|out| == p.maxTokens ==> v.output == out)
  {
    hide Judge, JudgeAll, Contains;
    JudgedTogether(p, out, toks);
    var i := FirstEnd(p, toks);
    StopsWith(p, out, toks[0]);
    if i < |toks| {
      StopsWith(p, out, toks[i]);
    }
    assert out[..|out|] == out;
  }

  /**
   A burst takes all it may: after the first token, up to the burst size or the request's limit,
   exactly when the batch is one request that is past its prompt.
   */
  lemma BurstIsFull(cfg: Config, l: State, burst: nat)
    requires LoopInv(cfg, l)
    ensures var b := FormBatch(cfg, l.s);
      var n := Extra(l, b, burst);
      if burst > 1 && |b.ids| == 1 && PastPrompt(l, b.ids[0]) then
        && b.ids[0] in l.gen
        && var g := l.gen[b.ids[0]];
           && n <= burst - 1 && |g.output| + 1 + n <= g.params.maxTokens
           && (n == burst - 1 || |g.output| + 1 + n == g.params.maxTokens)
      else n == 0
  {
    hide Inv, Indexed, Queued, FramesOk, OpenAttended, FormBatch;
    var b := FormBatch(cfg, l.s);
    BatchIsLive(cfg, l);
    var k := BatchShape(cfg, l.s);
    if |b.ids| == 1 {
      LoneMember(cfg, l.s, b, k);
    }
  }

  /** Already running, or queued with nothing of its prompt left to compute. */
  ghost predicate PastPrompt(l: State, id: nat) {
    id in l.s.running || (id in l.s.table && l.s.table[id].prompt <= l.s.table[id].cached)
  }

  lemma LoneMember(cfg: Config, s: Sched, b: Batch, k: nat)
    requires Inv(cfg, s) && k <= |s.waiting| && b.ids == s.running + s.waiting[..k] && b.decodes == |s.running|
    requires |b.ids| == 1
    ensures b.decodes >= 1 <==> b.ids[0] in s.running
    ensures b.decodes <= 1
  {
  }
}
