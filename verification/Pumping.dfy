/**
 What one pump does to every request: each member of the batch gets exactly its tokens and one
 frame, or its ending, and nobody else is touched.
 */
module Pumping {
  import opened Prelude
  import opened Limits
  import opened Scheduling
  import opened Loop
  import opened LoopSafety
  import opened Telling

  /** The client of `rid` gets `f` if its queue is still registered, and nothing more. */
  ghost predicate Receives(l: State, l': State, rid: nat, f: Frame) {
    && rid in l.frames && rid in l'.frames
    && l'.frames[rid] == if rid in l.open then l.frames[rid] + [f] else l.frames[rid]
  }

  /** The tokens are appended and told, or they end the request; a cancelled one just ends. */
  ghost predicate Gets(l: State, l': State, id: nat, toks: seq<Token>) {
    && id in l.gen && id in l'.s.table && id in l'.gen
    && var g, out := l.gen[id], l'.gen[id].output;
       if g.rid in l.cancelled then
         l'.s.table[id].finished && out == g.output && Receives(l, l', g.rid, Final(Cancelled, []))
       else if Passes(g, toks) then
         !l'.s.table[id].finished && out == g.output + toks && Receives(l, l', g.rid, Delta(toks))
       else
         var atLimit := |g.output| + |toks| == g.params.maxTokens;
         && l'.s.table[id].finished && out <= g.output + toks && (atLimit ==> out == g.output + toks)
         && Receives(l, l', g.rid, Final(if atLimit then Length else Stopped, out))
  }

  /** The request ends with an error and the output it had. */
  ghost predicate Fails(l: State, l': State, id: nat) {
    && id in l.gen && id in l'.s.table && id in l'.gen && l'.s.table[id].finished && l'.gen[id] == l.gen[id]
    && Receives(l, l', l.gen[id].rid, Final(Failed, l.gen[id].output))
  }

  ghost predicate IsOneOf(l: State, ids: seq<nat>, rid: nat) {
    exists id :: id in ids && id in l.gen && l.gen[id].rid == rid
  }

  /** Requests outside `ids` and their clients are left alone. */
  ghost predicate Spares(l: State, l': State, ids: seq<nat>) {
    && l'.queue == l.queue && l'.cancelled == l.cancelled && l'.draining == l.draining
    && l'.s.table.Keys == l.s.table.Keys && l'.gen.Keys == l.gen.Keys && l'.frames.Keys == l.frames.Keys
    && (forall j :: j in l.s.table && j !in ids ==> l'.s.table[j] == l.s.table[j])
    && (forall j :: j in l.gen ==> if j in ids then l'.gen[j].rid == l.gen[j].rid else l'.gen[j] == l.gen[j])
    && (forall r :: r in l.frames && !IsOneOf(l, ids, r) ==>
          l'.frames[r] == l.frames[r] && (r in l'.open <==> r in l.open))
  }

  // ---------------------------------------------------------------- one member

  lemma OneGets(cfg: Config, l: State, id: nat, toks: seq<Token>)
    requires LoopInv(cfg, l) && Alive(l.s.table, l.gen, id) && toks != []
    requires |l.gen[id].output| + |toks| <= l.gen[id].params.maxTokens
    ensures Gets(l, DeliverOne(l, id, toks), id, toks) && Spares(l, DeliverOne(l, id, toks), [id])
  {
    hide LoopInv, Emit, DoFinish, DoAdvance, JudgeAll, Passes, Judge;
    var g := l.gen[id];
    KnownClient(cfg, l, id);
    OneSpares(l, id, toks);
    if g.rid in l.cancelled {
      FinishEnds(l.s, id);
      OpenKnown(cfg, l, g.rid);
      EmitSends(l.(s := DoFinish(l.s, id)), g.rid, Final(Cancelled, []));
      EmitScope(l.(s := DoFinish(l.s, id)), g.rid, Final(Cancelled, []));
    } else {
      DeliverTells(cfg, l, id, toks);
    }
  }

  lemma KnownClient(cfg: Config, l: State, id: nat)
    requires LoopInv(cfg, l) && Alive(l.s.table, l.gen, id)
    ensures l.gen[id].rid in l.frames
  {
    hide Inv, Queued, FramesOk, OpenAttended;
  }

  lemma OneSpares(l: State, id: nat, toks: seq<Token>)
    requires Alive(l.s.table, l.gen, id)
    ensures Spares(l, DeliverOne(l, id, toks), [id])
  {
    hide Emit, JudgeAll, DoFinish, DoAdvance;
    DeliverOneOthers(l, id, toks);
    var g := l.gen[id];
    var out := g.output + toks;
    var s1 := DoAdvance(l.s, id, |g.prompt| + |out|);
    assert id in [id];
    forall r | !IsOneOf(l, [id], r)
      ensures r != g.rid
    {
    }
    match JudgeAll(g.params, out, toks) {
      case Go =>
        EmitScope(l.(s := s1, gen := l.gen[id := g.(output := out)]), g.rid, Delta(toks));
      case Stop(r, o) =>
        EmitScope(l.(s := DoFinish(s1, id), gen := l.gen[id := g.(output := o)]), g.rid, Final(r, o));
    }
    EmitScope(l.(s := DoFinish(l.s, id)), g.rid, Final(Cancelled, []));
  }

  // ---------------------------------------------------------------- many members

  /** No two live requests have the same client. */
  ghost predicate OwnClients(l: State, ids: seq<nat>) {
    && NoDup(ids)
    && (forall id :: id in ids ==> id in l.gen)
    && forall i, j :: i in ids && j in ids && i != j ==> l.gen[i].rid != l.gen[j].rid
  }

  lemma BatchClients(cfg: Config, l: State, ids: seq<nat>)
    requires LoopInv(cfg, l) && LiveBatch(l, ids)
    ensures OwnClients(l, ids)
  {
    hide LoopInv;
    forall id | id in ids
      ensures Alive(l.s.table, l.gen, id)
    {
      RoomForOne(cfg, l, id);
    }
    forall i, j | i in ids && j in ids && i != j
      ensures l.gen[i].rid != l.gen[j].rid
    {
      if l.gen[i].rid == l.gen[j].rid {
        OwnRid(cfg, l, i, j);
      }
    }
  }

  /** What happened to the first member is not undone by the others, and theirs is not changed by it. */
  lemma Steps(l: State, l1: State, l2: State, ids: seq<nat>, first: nat -> Token)
    requires ids != [] && OwnClients(l, ids)
    requires Spares(l, l1, [ids[0]]) && Spares(l1, l2, ids[1..])
    ensures Spares(l, l2, ids)
    ensures Gets(l, l1, ids[0], [first(ids[0])]) && (forall id :: id in ids[1..] ==> Gets(l1, l2, id, [first(id)])) ==>
              forall id :: id in ids ==> Gets(l, l2, id, [first(id)])
    ensures Fails(l, l1, ids[0]) && (forall id :: id in ids[1..] ==> Fails(l1, l2, id)) ==>
              forall id :: id in ids ==> Fails(l, l2, id)
  {
    hide Gets, Fails, Spares, OwnClients;
    SparesBoth(l, l1, l2, ids);
    FirstKept(l, l1, l2, ids, [first(ids[0])]);
    forall id | id in ids[1..]
      ensures Gets(l1, l2, id, [first(id)]) ==> Gets(l, l2, id, [first(id)])
      ensures Fails(l1, l2, id) ==> Fails(l, l2, id)
    {
      RestKept(l, l1, l2, ids, id, [first(id)]);
    }
    forall id
      ensures id in ids <==> id == ids[0] || id in ids[1..]
    {
      assert ids == [ids[0]] + ids[1..];
    }
  }

  lemma FirstKept(l: State, l1: State, l2: State, ids: seq<nat>, toks: seq<Token>)
    requires ids != [] && OwnClients(l, ids) && Spares(l, l1, [ids[0]]) && Spares(l1, l2, ids[1..])
    ensures Gets(l, l1, ids[0], toks) ==> Gets(l, l2, ids[0], toks)
    ensures Fails(l, l1, ids[0]) ==> Fails(l, l2, ids[0])
  {
    hide Passes, OwnClients, IsOneOf;
    Apart(l, l1, ids);
  }

  lemma RestKept(l: State, l1: State, l2: State, ids: seq<nat>, id: nat, toks: seq<Token>)
    requires ids != [] && OwnClients(l, ids) && Spares(l, l1, [ids[0]]) && id in ids[1..]
    ensures Gets(l1, l2, id, toks) ==> Gets(l, l2, id, toks)
    ensures Fails(l1, l2, id) ==> Fails(l, l2, id)
  {
    hide Passes, OwnClients, IsOneOf;
    Apart(l, l1, ids);
  }

  lemma Apart(l: State, l1: State, ids: seq<nat>)
    requires ids != [] && OwnClients(l, ids) && Spares(l, l1, [ids[0]])
    ensures ids[0] !in ids[1..] && !IsOneOf(l1, ids[1..], l.gen[ids[0]].rid)
    ensures forall id :: id in ids[1..] ==> id in l.gen && id in l1.gen && l1.gen[id] == l.gen[id]
                                            && !IsOneOf(l, [ids[0]], l.gen[id].rid)
  {
    assert forall id :: id in ids[1..] ==> id in ids;
    assert ids[0] in ids;
  }

  lemma SparesBoth(l: State, l1: State, l2: State, ids: seq<nat>)
    requires ids != [] && OwnClients(l, ids) && Spares(l, l1, [ids[0]]) && Spares(l1, l2, ids[1..])
    ensures Spares(l, l2, ids)
  {
    forall j
      ensures j in ids <==> j == ids[0] || j in ids[1..]
    {
      assert ids == [ids[0]] + ids[1..];
    }
    forall r | r in l.frames && !IsOneOf(l, ids, r)
      ensures !IsOneOf(l, [ids[0]], r) && !IsOneOf(l1, ids[1..], r)
    {
      ClientOfSome(l, l1, ids, r);
    }
  }

  lemma ClientOfSome(l: State, l1: State, ids: seq<nat>, r: nat)
    requires ids != [] && Spares(l, l1, [ids[0]])
    ensures IsOneOf(l, [ids[0]], r) || IsOneOf(l1, ids[1..], r) ==> IsOneOf(l, ids, r)
  {
    assert ids[0] in ids;
    if id :| id in ids[1..] && id in l1.gen && l1.gen[id].rid == r {
      assert id in ids;
    }
  }

  lemma {:induction false} AllGet(cfg: Config, l: State, ids: seq<nat>, first: nat -> Token)
    requires LoopInv(cfg, l) && LiveBatch(l, ids)
    ensures var l' := DeliverAll(l, ids, first);
      Spares(l, l', ids) && forall id :: id in ids ==> Gets(l, l', id, [first(id)])
    decreases |ids|
  {
    hide LoopInv, Others, DeliverOne, Gets, Fails, Spares, OwnClients, LiveBatch;
    if ids == [] {
      NothingDone(l);
    } else {
      FirstAlive(cfg, l, ids);
      var toks := [first(ids[0])];
      var l1 := DeliverOne(l, ids[0], toks);
      BatchClients(cfg, l, ids);
      OneGets(cfg, l, ids[0], toks);
      DeliverOneKeeps(cfg, l, ids[0], toks);
      DeliverOneOthers(l, ids[0], toks);
      LiveRest(l, l1, ids);
      AllGet(cfg, l1, ids[1..], first);
      Steps(l, l1, DeliverAll(l, ids, first), ids, first);
    }
  }

  lemma NothingDone(l: State)
    ensures Spares(l, l, [])
  {
  }

  lemma FirstAlive(cfg: Config, l: State, ids: seq<nat>)
    requires LoopInv(cfg, l) && LiveBatch(l, ids) && ids != []
    ensures Alive(l.s.table, l.gen, ids[0]) && |l.gen[ids[0]].output| < l.gen[ids[0]].params.maxTokens
  {
    hide LoopInv;
    RoomForOne(cfg, l, ids[0]);
  }

  lemma OneFails(cfg: Config, l: State, id: nat)
    requires LoopInv(cfg, l) && Alive(l.s.table, l.gen, id)
    ensures Fails(l, FailOne(l, id), id) && Spares(l, FailOne(l, id), [id])
  {
    hide LoopInv, Emit, DoFinish;
    var g := l.gen[id];
    KnownClient(cfg, l, id);
    FailTells(cfg, l, id);
    FailOneOthers(l, id);
    EmitScope(l.(s := DoFinish(l.s, id)), g.rid, Final(Failed, g.output));
    assert id in [id];
    forall r | !IsOneOf(l, [id], r)
      ensures r != g.rid
    {
    }
  }

  lemma {:induction false} AllFail(cfg: Config, l: State, ids: seq<nat>)
    requires LoopInv(cfg, l) && LiveBatch(l, ids)
    ensures var l' := FailAll(l, ids);
      Spares(l, l', ids) && forall id :: id in ids ==> Fails(l, l', id)
    decreases |ids|
  {
    hide LoopInv, Others, FailOne, Gets, Fails, Spares, OwnClients, LiveBatch;
    if ids == [] {
      NothingDone(l);
    } else {
      FirstAlive(cfg, l, ids);
      var l1 := FailOne(l, ids[0]);
      BatchClients(cfg, l, ids);
      OneFails(cfg, l, ids[0]);
      FailOneKeeps(cfg, l, ids[0]);
      FailOneOthers(l, ids[0]);
      LiveRest(l, l1, ids);
      AllFail(cfg, l1, ids[1..]);
      Steps(l, l1, FailAll(l, ids), ids, _ => 0);
    }
  }

  // ---------------------------------------------------------------- the pump

  /** A scheduler step only moves requests from the queue to the running list. */
  lemma StepSame(cfg: Config, l: State, l': State, id: nat, toks: seq<Token>, ids: seq<nat>)
    requires LoopInv(cfg, l)
    ensures var l1 := l.(s := DoStep(cfg, l.s));
      && LoopInv(cfg, l1) && l1.s.table == l.s.table
      && (Gets(l1, l', id, toks) ==> Gets(l, l', id, toks)) && (Fails(l1, l', id) ==> Fails(l, l', id))
      && (Spares(l1, l', ids) ==> Spares(l, l', ids))
  {
    hide Inv, Queued, FramesOk, OpenAttended, Indexed, Generating, DoStep, Passes;
    StepLoopInv(cfg, l);
    var k := StepShape(cfg, l.s);
  }

  ghost function BurstTokens(l: State, b: Batch, burst: nat, o: Outcome): seq<Token>
    requires o.Tokens? && b.ids != []
  {
    var n := Extra(l, b, burst);
    [o.first(b.ids[0])] + if n <= |o.more| then o.more[..n] else o.more
  }

  /**
   A pump that does not raise admits everything queued.  Then every running request and those that
   join the batch get exactly one token each, or a lone decode that bursts gets all its tokens, or
   all of them fail with the runner; every other request and client is left alone.
   */
  lemma PumpGivesExactly(cfg: Config, l: State, burst: nat, hits: nat -> nat, o: Outcome)
    requires LoopInv(cfg, l) && !Raises(cfg, l, burst, hits, o)
    ensures var l1, l' := AdmitAll(cfg, l, hits), DoPump(cfg, l, burst, hits, o);
      var b := FormBatch(cfg, l1.s);
      && l'.queue == [] && Spares(l1, l', b.ids) && (forall id :: id in l1.s.running ==> id in b.ids)
      && (o.Crash? ==> forall id :: id in b.ids ==> Fails(l1, l', id))
      && (!o.Crash? && Extra(l1, b, burst) == 0 ==> forall id :: id in b.ids ==> Gets(l1, l', id, [o.first(id)]))
      && (o.Tokens? && Extra(l1, b, burst) > 0 ==> |b.ids| == 1 && Gets(l1, l', b.ids[0], BurstTokens(l1, b, burst, o)))
  {
    hide LoopInv, Spares, Gets, Fails, DeliverOne, DeliverAll, FailAll, FormBatch, DoStep, LiveBatch, AdmitAll, Extra;
    AdmitAllKeeps(cfg, l, hits);
    var l1 := AdmitAll(cfg, l, hits);
    var b, l2 := FormBatch(cfg, l1.s), l1.(s := DoStep(cfg, l1.s));
    var l', n := DoPump(cfg, l, burst, hits, o), Extra(l1, b, burst);
    BatchIsLive(cfg, l1);
    RunningIn(cfg, l1);
    StepSame(cfg, l1, l', 0, [], b.ids);
    if n > 0 {
      ExtraIsLone(l1, b, burst);
    }
    if b.ids == [] {
      NothingDone(l2);
    } else if o.Crash? {
      AllFail(cfg, l2, b.ids);
    } else if n == 0 {
      AllGet(cfg, l2, b.ids, o.first);
    } else {
      LoneGets(cfg, l1, burst, o);
    }
    SparesQueue(l1, l', b.ids);
    forall id | id in b.ids
      ensures o.Crash? ==> Fails(l1, l', id)
      ensures !o.Crash? && n == 0 ==> Gets(l1, l', id, [o.first(id)])
    {
      StepSame(cfg, l1, l', id, if o.Crash? then [] else [o.first(id)], b.ids);
    }
  }

  lemma SparesQueue(l: State, l': State, ids: seq<nat>)
    requires Spares(l, l', ids)
    ensures l'.queue == l.queue
  {
  }

  lemma RunningIn(cfg: Config, l: State)
    requires LoopInv(cfg, l)
    ensures forall id :: id in l.s.running ==> id in FormBatch(cfg, l.s).ids
  {
    hide FormBatch, Inv, Queued, FramesOk, OpenAttended, Indexed, Generating;
    var k := BatchIds(cfg, l.s);
  }

  lemma ExtraIsLone(l: State, b: Batch, burst: nat)
    requires Extra(l, b, burst) > 0
    ensures |b.ids| == 1
  {
  }

  lemma LoneGets(cfg: Config, l: State, burst: nat, o: Outcome)
    requires LoopInv(cfg, l) && o.Tokens? && Extra(l, FormBatch(cfg, l.s), burst) > 0
    ensures var b, l2 := FormBatch(cfg, l.s), l.(s := DoStep(cfg, l.s));
      && |b.ids| == 1 && LoopInv(cfg, l2)
      && var l' := DeliverOne(l2, b.ids[0], BurstTokens(l, b, burst, o));
         Gets(l, l', b.ids[0], BurstTokens(l, b, burst, o)) && Spares(l2, l', b.ids)
  {
    hide LoopInv, Spares, Gets, Fails, DeliverOne, FormBatch, DoStep, Extra, LiveBatch;
    var b, l2 := FormBatch(cfg, l.s), l.(s := DoStep(cfg, l.s));
    ExtraIsLone(l, b, burst);
    BurstFits(cfg, l, burst, o.more, o.first(b.ids[0]));
    BatchIsLive(cfg, l);
    assert b.ids == [b.ids[0]];
    var toks := BurstTokens(l, b, burst, o);
    StepSame(cfg, l, DeliverOne(l2, b.ids[0], toks), b.ids[0], toks, b.ids);
    FirstAlive(cfg, l2, b.ids);
    OneGets(cfg, l2, b.ids[0], toks);
  }
}
