/**
 The request-level operations of the scheduler and the runner, updated in place over a
 RadixCache object: each method performs one step of the engine state machine.
 */
module EngineCoreImpl {
  import opened Prelude
  import opened Paging
  import opened PagePool
  import opened Allocator
  import opened PrefixTree
  import opened Generation
  import opened Engine
  import opened RadixCacheImpl

  class EngineCore {
    const radix: RadixCache
    const m: Model
    var seqs: map<nat, Seq>

    ghost function View(): State
      reads this, radix, radix.kv
    {
      State(radix.View(), seqs)
    }

    ghost predicate Valid()
      reads this, radix, radix.kv
    {
      radix.Valid() && this as object != radix && radix.bs > 0
    }

    constructor (radix: RadixCache, m: Model)
      requires radix.Valid()
      ensures Valid() && View() == State(radix.View(), map[]) && this.radix == radix && this.m == m
    {
      this.radix, this.m := radix, m;
      seqs := map[];
      new;
      ShapeSize(radix.View());
    }

    /** add_request: a prefix hit gives the request its pages, cached length and logits. */
    method AddRequest(id: nat, prompt: seq<Token>, seed: nat)
      requires Valid() && id !in seqs
      modifies this, radix, radix.kv
      ensures Valid() && View() == DoAdmit(old(View()), id, prompt, seed)
    {
      hide Shape, Rows2, Match;
      var h := radix.MatchPrefix(prompt);
      match h {
        case Miss =>
          seqs := seqs[id := Seq(prompt, seed, [], 0, [], None, false, false, false, None, false, false)];
        case Hit(len, blocks, logits) =>
          seqs := seqs[id := Seq(prompt, seed, [], len, blocks, logits, false, false, false, None, false, false)];
      }
    }

    /** Grows a block table one page at a time until it has `need` pages. */
    method EnsureBlocks(table: seq<nat>, need: nat) returns (ok: bool, grown: seq<nat>)
      requires Valid()
      modifies radix, radix.kv
      ensures Valid() && (ok, radix.View(), grown) == Ensure(old(radix.View()), table, need)
    {
      hide Shape, Rows2, AllocBlocks;
      grown := table;
      while |grown| < need
        invariant Valid()
        invariant Ensure(radix.View(), grown, need) == Ensure(old(radix.View()), table, need)
        decreases need - |grown|
      {
        ghost var c := radix.View();
        var got, ids := radix.AllocateBlocks(1);
        if !got {
          return false, grown;
        }
        OneId(c);
        grown := grown + ids;
      }
      ok := true;
    }

    /** Pages for the next forward: growth, and copy-on-write of the page a decode writes. */
    method Prepare(id: nat)
      requires Valid() && id in seqs
      modifies this, radix, radix.kv
      ensures Valid() && View() == DoPrepare(old(View()), id)
    {
      hide Shape, Rows2, Ensure, Cow, PageOf, Pages;
      var s := seqs[id];
      var total := if NeedsPrefill(s) then |s.prompt| else s.cached + 1;
      PagesIsCeilDiv(total, radix.bs);
      var ok, table := EnsureBlocks(s.table, (total + radix.bs - 1) / radix.bs);
      PageIsDiv(s.cached, radix.bs);
      var page := s.cached / radix.bs;
      if !ok || NeedsPrefill(s) || page >= |table| {
        seqs := seqs[id := s.(table := table, ready := ok)];
        return;
      }
      var copied, b := radix.CowBlockIfShared(table[page]);
      if copied {
        seqs := seqs[id := s.(table := Replace(table, page, b), ready := true, cold := false)];
      } else {
        seqs := seqs[id := s.(table := table, ready := false)];
      }
    }

    /** Inside a decode burst the page checks run on page boundaries only. */
    method PrepareInBurst(id: nat)
      requires Valid() && id in seqs
      modifies this, radix, radix.kv
      ensures Valid() && View() == DoBurst(old(View()), id)
    {
      hide Shape, Rows2, DoPrepare, SlotOf;
      var s := seqs[id];
      PageIsDiv(s.cached, radix.bs);
      if s.cached % radix.bs == 0 || s.table == [] {
        Prepare(id);
      } else {
        seqs := seqs[id := s.(ready := true, cold := s.cold || !s.warm)];
      }
    }

    /** One forward of a request: sample stored logits, or read rows, run the model, write rows. */
    method RunForward(id: nat)
      requires Valid() && id in seqs && seqs[id].prompt != []
      requires TableOk(radix.View().kv, seqs[id].table)
      modifies this, radix.kv
      ensures Valid() && View() == DoForward(m, old(View()), id)
    {
      hide PoolOk, TreeOk, Rows2, Flat, Write, Pages, Extend, NextInput;
      var s := seqs[id];
      if FromLogits(s) {
        seqs := seqs[id := s.(cached := |s.prompt|, warm := false, cold := false,
                              pending := Some(m.pick(s.logits.value, s.seed, 0)), pre := false)];
        return;
      }
      var input := NextInput(s);
      var n := s.cached + |input|;
      PagesIsCeilDiv(n, radix.bs);
      PageIsDiv(n, radix.bs);
      if !s.ready || (n + radix.bs - 1) / radix.bs > |s.table| {
        return;
      }
      var ok, past := radix.ReadRows(s.table, s.cached);
      if !ok {
        return;
      }
      var rows := Extend(m, past, input);
      NonEmptyInput(s);
      PagesPositive(n, radix.bs);
      var wrote := radix.WriteKv(s.table, s.cached, rows);
      var logits := m.out(past + rows);
      var tok := m.pick(logits, s.seed, |s.output|);
      seqs := seqs[id := s.(cached := n, ready := false, warm := !NeedsPrefill(s),
                            cold := s.cold && !NeedsPrefill(s) && n % radix.bs != 0, pending := Some(tok),
                            pre := NeedsPrefill(s),
                            logits := if NeedsPrefill(s) then Some(logits) else s.logits)];
    }

    /** update_after_prefill and update_after_decode: insert the prompt, append the token. */
    method DeliverToken(id: nat)
      requires Valid() && id in seqs && seqs[id].pending.Some?
      modifies this, radix, radix.kv
      ensures Valid() && View() == DoDeliver(old(View()), id)
    {
      hide Shape, Rows2, Insert;
      var s := seqs[id];
      if s.pre {
        radix.InsertOrUpdate(s.prompt, s.table, s.logits);
      }
      seqs := seqs[id := s.(output := s.output + [s.pending.value], pending := None, pre := false)];
    }

    /** A burst that raised before its token ring was read. */
    method LoseTokens(id: nat, k: nat)
      requires Valid() && id in seqs
      modifies this`seqs
      ensures Valid() && View() == DoLose(old(View()), id, k)
    {
      var s := seqs[id];
      var n := if k <= |s.output| then |s.output| - k else 0;
      seqs := seqs[id := s.(output := s.output[..n])];
    }

    /** mark_finished: release the pages; a stop rule may have trimmed the output. */
    method MarkFinished(id: nat, keep: nat)
      requires Valid() && id in seqs
      modifies this, radix, radix.kv
      ensures Valid() && View() == DoFinish(old(View()), id, keep)
    {
      hide Shape, Rows2, Release;
      var s := seqs[id];
      if s.table != [] {
        radix.ReleaseBlocks(s.table);
      } else {
        ReleaseNothing(radix.View());
      }
      seqs := seqs[id := s.(table := [], finished := true, ready := false, warm := false, cold := false,
                            pending := None, pre := false,
                            output := if keep <= |s.output| then s.output[..keep] else s.output)];
    }
  }

  lemma NonEmptyInput(s: Seq)
    requires s.prompt != []
    ensures NextInput(s) != []
  {
  }

  lemma {:induction false} LoopCount(c: Cache, ids: seq<nat>, count: nat)
    requires |ids| <= count
    ensures AllocLoop(c, ids, count).Got? ==> |AllocLoop(c, ids, count).ids| == count
    decreases count - |ids|
  {
    if |ids| < count {
      match AllocOne(c, count - |ids|) {
        case Oom(_) =>
        case Got(c1, b) =>
          if |b| == 1 {
            LoopCount(c1, ids + b, count);
          }
      }
    }
  }

  lemma OneId(c: Cache)
    ensures AllocBlocks(c, 1).Got? ==> |AllocBlocks(c, 1).ids| == 1
  {
    LoopCount(c, [], 1);
  }
}
