/**
 Each step of the engine keeps the reference counts balanced and the cached rows right: every
 live request reads the rows of its own history and every stored prompt its own, as long as
 hits are exact or page-aligned and forwards write where nobody else reads.
 */
module EngineSafety {
  import opened Prelude
  import opened Paging
  import opened Ledger
  import opened PagePool
  import opened Allocator
  import opened PrefixTree
  import opened Generation
  import opened Engine

  lemma TableOf(seqs: map<nat, Seq>, id: nat)
    requires id in seqs
    ensures Sequence(id) in Tables(seqs) && Tables(seqs)[Sequence(id)] == seqs[id].table
  {
  }

  lemma NoTemps(seqs: map<nat, Seq>)
    ensures Victim !in Tables(seqs) && InFlight !in Tables(seqs)
    ensures forall id :: id !in seqs ==> Sequence(id) !in Tables(seqs)
  {
  }

  lemma InvGrid(c: Cache, own: Owners)
    requires Inv(c, own)
    ensures GridOk(c.kv, c.bs)
  {
  }

  lemma RootNodeOk(m: Model, c: Cache, own: Owners)
    requires Inv(c, own)
    ensures [] in c.tree && NodeOk(m, c, [], c.tree[[]].blocks, c.tree[[]].logits)
  {
  }

  /** Steps that only allocate, copy or release leave every other request and node undisturbed. */
  lemma KeepsUndisturbed(e: State, c': Cache, id: nat, t: seq<nat>, rest: Owners)
    requires id in e.seqs && Keeps(e.c, c', rest) && Calm(e.c, c', rest)
    requires rest == Tables(e.seqs) || rest == Tables(e.seqs) - {Sequence(id)}
    requires Inv(c', Tables(e.seqs)[Sequence(id) := t])
    ensures Undisturbed(e, c', id, [])
  {
    hide Inv, SameRows, Lighter, StillPrivate, ReadsKept;
    InvGrid(c', Tables(e.seqs)[Sequence(id) := t]);
    forall j | j in e.seqs && j != id
      ensures ReadsKept(e.c, c', e.seqs[j].table, e.seqs[j].cached) && StillPrivate(e.c, c', e.seqs[j].table)
    {
      TableOf(e.seqs, j);
      assert Sequence(j) in rest;
      LighterPrivate(e.c, c', Tables(e.seqs)[Sequence(id) := t], Sequence(j));
      RowsReadsKept(e.c, c', e.seqs[j].table, e.seqs[j].cached);
    }
    forall p | p in c'.tree
      ensures ReadsKept(e.c, c', e.c.tree[p].blocks, |p|)
    {
      RowsReadsKept(e.c, c', e.c.tree[p].blocks, |p|);
    }
  }

  lemma LighterPrivate(c: Cache, c': Cache, own': Owners, k: Owner)
    requires Inv(c', own') && k in own' && Lighter(c, c', own'[k])
    ensures StillPrivate(c, c', own'[k])
  {
    hide Shape;
    forall b | b in own'[k] && b in c.alloc && c.alloc[b] == 1
      ensures b in c'.alloc && c'.alloc[b] == 1
    {
      ListedCount(c', own', k, b);
    }
  }

  // ---------------------------------------------------------------- admit

  /** Sharing pages of tree nodes leaves the private pages of requests private. */
  lemma ForkPrivate(c: Cache, own: Owners, k: Owner, p: Path, l: seq<nat>)
    requires Inv(c, own) && k in own && p in c.tree && forall b :: b in l ==> b in c.tree[p].blocks
    ensures StillPrivate(c, Fork(c, l), own[k])
  {
    hide Shape;
    forall b | b in own[k] && b in c.alloc && c.alloc[b] == 1
      ensures b !in l
    {
      SoleOwner(c, own, k, b);
    }
  }

  /** The pages of a hit hold the rows of the matched prefix. */
  lemma HitRows(m: Model, e: State, prompt: seq<Token>)
    requires Good(m, e) && Lookup(e.c, prompt).Hit?
    ensures var h := Lookup(e.c, prompt);
      && 0 < h.len <= |prompt| && |h.blocks| == Pages(h.len, e.c.bs)
      && Covers(e.c.kv, h.blocks, e.c.bs, h.len)
      && Flat(e.c.kv, h.blocks, e.c.bs, h.len) == KV(m, prompt[..h.len])
      && h.logits == Some(m.out(KV(m, prompt[..h.len])))
  {
    hide TreeOk, PoolOk, ListsOk, Counted, SeqOk, KV;
    HitIsNode(e.c, prompt);
    var h := Lookup(e.c, prompt);
    var p := prompt[..h.len];
    assert NodeOk(m, e.c, p, e.c.tree[p].blocks, e.c.tree[p].logits);
    PageInRange(0, h.len, e.c.bs);
    FlatAgree(e.c.kv, e.c.kv, h.blocks, e.c.tree[p].blocks, e.c.bs, h.len);
  }

  lemma AdmittedSeqOk(m: Model, e: State, prompt: seq<Token>, s: Seq, c': Cache)
    requires Good(m, e) && prompt != [] && AlignedHit(e.c, prompt) && c' == e.c.(alloc := c'.alloc)
    requires s == s.(prompt := prompt, output := [], ready := false, warm := false, cold := false, pending := None,
                     pre := false, finished := false)
    requires match Lookup(e.c, prompt)
      case Miss => s.cached == 0 && s.table == [] && s.logits == None
      case Hit(len, blocks, logits) => s.cached == len && s.table == blocks && s.logits == logits
    ensures SeqOk(m, c', s)
  {
    hide Shape, ListsOk, Counted;
    InvGrid(e.c, Tables(e.seqs));
    assert History(s) == prompt;
    match Lookup(e.c, prompt) {
      case Miss =>
      case Hit(len, blocks, logits) =>
        HitRows(m, e, prompt);
        if len == |prompt| {
          assert prompt[..len] == prompt;
        } else {
          AlignedPages(len, e.c.bs);
        }
    }
  }

  lemma AdmitHitNode(c: Cache, own: Owners, prompt: seq<Token>)
    requires Inv(c, own) && Lookup(c, prompt).Hit?
    ensures var h := Lookup(c, prompt);
      && h.len <= |prompt| && prompt[..h.len] in c.tree
      && forall b :: b in h.blocks ==> b in c.tree[prompt[..h.len]].blocks
  {
    hide TreeOk, PoolOk, ListsOk, Counted;
    HitIsNode(c, prompt);
  }

  /** Adding a reference to a node's pages disturbs no request and no node. */
  lemma ForkUndisturbed(e: State, id: nat, p: Path, l: seq<nat>)
    requires Inv(e.c, Tables(e.seqs)) && id !in e.seqs && p in e.c.tree
    requires forall b :: b in l ==> b in e.c.tree[p].blocks
    ensures Undisturbed(e, Fork(e.c, l), id, [])
  {
    hide Inv, StillPrivate, ReadsKept;
    var own, c' := Tables(e.seqs), Fork(e.c, l);
    InvGrid(e.c, own);
    forall j | j in e.seqs
      ensures ReadsKept(e.c, c', e.seqs[j].table, e.seqs[j].cached) && StillPrivate(e.c, c', e.seqs[j].table)
    {
      TableOf(e.seqs, j);
      ForkPrivate(e.c, own, Sequence(j), p, l);
      SameReads(e.c, c', e.seqs[j].table, e.seqs[j].cached);
    }
    forall q | q in e.c.tree
      ensures ReadsKept(e.c, c', e.c.tree[q].blocks, |q|)
    {
      SameReads(e.c, c', e.c.tree[q].blocks, |q|);
    }
  }

  lemma SameReads(c: Cache, c': Cache, l: seq<nat>, n: nat)
    requires c'.kv == c.kv && c'.bs == c.bs
    ensures ReadsKept(c, c', l, n)
  {
  }

  lemma SelfUndisturbed(e: State, id: nat)
    requires Inv(e.c, Tables(e.seqs))
    ensures Undisturbed(e, e.c, id, [])
  {
    hide Inv;
    InvGrid(e.c, Tables(e.seqs));
  }

  lemma AdmitOk(m: Model, e: State, id: nat, prompt: seq<Token>, seed: nat)
    requires Good(m, e) && id !in e.seqs && prompt != [] && AlignedHit(e.c, prompt)
    ensures Good(m, DoAdmit(e, id, prompt, seed))
  {
    hide Inv, SeqOk, NodeOk, Undisturbed, Keeps, Lookup, Tables, AlignedHit;
    var own, k := Tables(e.seqs), Sequence(id);
    var e' := DoAdmit(e, id, prompt, seed);
    var s := e'.seqs[id];
    NoTemps(e.seqs);
    TablesSet(e.seqs, id, s);
    AdmittedSeqOk(m, e, prompt, s, e'.c);
    match Lookup(e.c, prompt) {
      case Miss =>
        AddIdle(e.c, own, k);
        SelfUndisturbed(e, id);
      case Hit(len, blocks, logits) =>
        MatchOk(e.c, own, k, prompt);
        AdmitHitNode(e.c, own, prompt);
        ForkUndisturbed(e, id, prompt[..len], blocks);
    }
    RootNodeOk(m, e'.c, Tables(e'.seqs));
    ContentFrame(m, e, e'.c, id, s, []);
  }

  // ---------------------------------------------------------------- prepare

  /** Growing a table: new pages are private, nobody else is disturbed. */
  lemma {:induction false} EnsureOk(c: Cache, own: Owners, k: Owner, need: nat)
    requires Inv(c, own) && k in own && k != InFlight && Victim !in own && InFlight !in own
    ensures var (ok, c', t) := Ensure(c, own[k], need);
      && Inv(c', own[k := t]) && Keeps(c, c', own) && Calm(c, c', own)
      && |own[k]| <= |t| && own[k] == t[..|own[k]|]
      && (ok ==> need <= |t|)
      && (forall i :: |own[k]| <= i < |t| ==> t[i] in c'.alloc && c'.alloc[t[i]] == 1)
    decreases need - |own[k]|
  {
    hide Inv, Keeps, Calm, AllocBlocks;
    var table := own[k];
    if |table| >= need {
      assert own[k := table] == own;
      KeepsRefl(c, own);
      CalmRefl'(c, own);
    } else {
      AllocBlocksOk(c, own, 1);
      match AllocBlocks(c, 1) {
        case Oom(c1) =>
          assert own[k := table] == own;
        case Got(c1, ids) =>
          var own1, own2 := own[InFlight := ids], own[k := table + ids];
          assert ids == [ids[0]];
          GrowOwner(c1, own, k, ids);
          EnsureOk(c1, own2, k, need);
          var (ok, c', t) := Ensure(c1, table + ids, need);
          assert own2[k := t] == own[k := t];
          KeepsWeaken(c1, c', own2, own);
          KeepsTrans(c, c1, c', own);
          CalmWeaken(c1, c', own2, own);
          CalmTrans(c, c1, c', own);
          assert t[|table|] == ids[0];
          GrownPrivate(c1, c', own2, k, t, ids[0], |table|);
      }
    }
  }

  lemma CalmRefl'(c: Cache, own: Owners)
    requires Inv(c, own)
    ensures Calm(c, c, own)
  {
    CalmRefl(c, own);
  }

  lemma GrowOwner(c: Cache, own: Owners, k: Owner, ids: seq<nat>)
    requires k in own && InFlight !in own && |ids| == 1 && Inv(c, own[InFlight := ids]) && Private(c, ids)
    ensures Inv(c, own[k := own[k] + ids])
  {
    hide Shape;
    var own1 := own[InFlight := ids];
    assert ids[0] in own1[InFlight];
    SoleOwner(c, own1, InFlight, ids[0]);
    assert own1[k] == own[k];
    Append(c, own1, k, InFlight);
    assert (own1 - {InFlight})[k := own[k] + ids] == own[k := own[k] + ids];
  }

  lemma GrownPrivate(c: Cache, c': Cache, own: Owners, k: Owner, t: seq<nat>, b: nat, i: nat)
    requires Calm(c, c', own) && Inv(c', own[k := t]) && k in own && b in own[k] && i < |t| && t[i] == b
    requires Private(c, [b])
    ensures b in c'.alloc && c'.alloc[b] == 1
  {
    hide Shape;
    assert b in [b];
    assert Lighter(c, c', own[k]);
    assert b in own[k := t][k];
    ListedCount(c', own[k := t], k, b);
  }

  /** Rows are read through the old entries of a grown table. */
  lemma GrownRows(m: Model, c: Cache, c': Cache, s: Seq, t: seq<nat>)
    requires Rows(m, c, s) && SameSize(c, c') && SameRows(c, c', s.table) && TableOk(c'.kv, t)
    requires |s.table| <= |t| && s.table == t[..|s.table|]
    ensures Rows(m, c', s.(table := t))
  {
    hide KV;
    var s' := s.(table := t);
    assert History(s') == History(s);
    forall k | 0 <= k < Pages(s.cached, c.bs)
      ensures c'.kv[t[k]] == c.kv[s.table[k]]
    {
      assert s.table[k] in s.table && t[k] == s.table[k];
    }
    FlatAgree(c'.kv, c.kv, t, s.table, c.bs, s.cached);
  }

  lemma OwnedTableOk(c: Cache, own: Owners, k: Owner)
    requires Inv(c, own) && k in own
    ensures TableOk(c.kv, own[k]) && NoDup(own[k])
  {
    hide TreeOk, Counted;
    assert ListOk(c, own[k]);
    forall i | 0 <= i < |own[k]|
      ensures own[k][i] < |c.kv|
    {
      assert own[k][i] in own[k];
    }
  }

  /** A grown, not yet copied, table keeps the request right as long as it is not marked ready. */
  lemma GrownSeqOk(m: Model, c: Cache, c': Cache, s: Seq, t: seq<nat>, ready: bool)
    requires c.bs > 0 && SeqOk(m, c, s) && !s.finished && s.pending.None? && !FromLogits(s)
    requires SameSize(c, c') && SameRows(c, c', s.table) && StillPrivate(c, c', s.table) && TableOk(c'.kv, t)
    requires |s.table| <= |t| && s.table == t[..|s.table|]
    requires forall i :: |s.table| <= i < |t| ==> t[i] in c'.alloc && c'.alloc[t[i]] == 1
    requires ready ==> NeedsPrefill(s) && Pages(|s.prompt|, c.bs) <= |t|
    ensures SeqOk(m, c', s.(table := t, ready := ready))
  {
    hide KV, Reference, Rows;
    var s' := s.(table := t, ready := ready);
    GrownRows(m, c, c', s, t);
    RowsReady(m, c', s.(table := t), ready);
    assert History(s') == History(s);
    if NeedsPrefill(s) && s.output == [] {
      forall i | PageOf(s.cached, c.bs) <= i < |t|
        ensures t[i] in c'.alloc && c'.alloc[t[i]] == 1
      {
        if i < |s.table| {
          assert t[i] == s.table[i] && s.table[i] in s.table;
        }
      }
    }
  }

  lemma RowsReady(m: Model, c: Cache, s: Seq, ready: bool)
    requires Rows(m, c, s)
    ensures Rows(m, c, s.(ready := ready))
  {
    assert History(s.(ready := ready)) == History(s);
  }

  /** After copy-on-write the request reads the same rows and may write its current page. */
  lemma CopiedSeqOk(m: Model, c: Cache, c': Cache, s: Seq, page: nat, n: nat)
    requires c.bs > 0 && SeqOk(m, c, s) && !s.finished && s.pending.None? && s.output != []
    requires page == PageOf(s.cached, c.bs) && Pages(s.cached + 1, c.bs) <= |s.table| && page < |s.table|
    requires SameSize(c, c') && SameRows(c, c', s.table)
    requires s.table[page] < |c.kv| && n < |c'.kv| && c'.kv[n] == c.kv[s.table[page]]
    requires n in c'.alloc && c'.alloc[n] == 1
    ensures SeqOk(m, c', s.(table := Replace(s.table, page, n), ready := true, cold := false))
  {
    hide KV, Reference;
    var t := Replace(s.table, page, n);
    var s' := s.(table := t, ready := true, cold := false);
    assert History(s') == History(s);
    forall k | 0 <= k < |t|
      ensures t[k] < |c'.kv| && c'.kv[t[k]] == c.kv[s.table[k]]
    {
      assert s.table[k] in s.table;
    }
    FlatAgree(c'.kv, c.kv, t, s.table, c.bs, s.cached);
  }

  lemma PrepareOk(m: Model, e: State, id: nat)
    requires Good(m, e) && Enabled(e, Prepare(id))
    ensures Good(m, DoPrepare(e, id))
  {
    hide Inv, SeqOk, NodeOk, Undisturbed, Keeps, Calm, Tables, Ensure, Cow, StillPrivate, SameRows;
    var s, own, k, bs := e.seqs[id], Tables(e.seqs), Sequence(id), e.c.bs;
    var total := if NeedsPrefill(s) then |s.prompt| else s.cached + 1;
    var (ok, c1, t1) := Ensure(e.c, s.table, Pages(total, bs));
    var page := PageOf(s.cached, bs);
    TableOf(e.seqs, id);
    NoTemps(e.seqs);
    EnsureOk(e.c, own, k, Pages(total, bs));
    var ready := ok && NeedsPrefill(s);
    var s1 := s.(table := t1, ready := ready);
    var e1 := State(c1, e.seqs[id := s1]);
    GrowStep(m, e, id, c1, t1, ready);
    if ok && !NeedsPrefill(s) {
      SeqDecodes(m, e.c, s);
      PageInRange(s.cached, s.cached + 1, bs);
      CowStep(m, e1, id, page);
      var e2 := DoPrepare(e, id);
      assert e1.seqs[id := e2.seqs[id]] == e.seqs[id := e2.seqs[id]];
    }
  }

  lemma SeqDecodes(m: Model, c: Cache, s: Seq)
    requires c.bs > 0 && SeqOk(m, c, s) && !s.finished && s.pending.None? && !FromLogits(s) && !NeedsPrefill(s)
    ensures s.output != []
  {
  }

  lemma GrowStep(m: Model, e: State, id: nat, c1: Cache, t1: seq<nat>, ready: bool)
    requires Good(m, e) && Enabled(e, Prepare(id))
    requires var own, s := Tables(e.seqs), e.seqs[id];
      && Inv(c1, own[Sequence(id) := t1]) && Keeps(e.c, c1, own) && Calm(e.c, c1, own)
      && |s.table| <= |t1| && s.table == t1[..|s.table|]
      && (forall i :: |s.table| <= i < |t1| ==> t1[i] in c1.alloc && c1.alloc[t1[i]] == 1)
      && (ready ==> NeedsPrefill(s) && Pages(|s.prompt|, e.c.bs) <= |t1|)
    ensures c1.bs == e.c.bs && Good(m, State(c1, e.seqs[id := e.seqs[id].(table := t1, ready := ready)]))
  {
    hide Inv, NodeOk, Undisturbed, Tables, SeqOk, StillPrivate, SameRows, Lighter;
    var s, own, k := e.seqs[id], Tables(e.seqs), Sequence(id);
    var own' := own[k := t1];
    TableOf(e.seqs, id);
    TablesSet(e.seqs, id, s.(table := t1, ready := ready));
    InvGrid(c1, own');
    OwnedTableOk(c1, own', k);
    KeepsUndisturbed(e, c1, id, t1, own);
    GrownStillPrivate(e.c, c1, own, k, t1);
    GrownSeqOk(m, e.c, c1, s, t1, ready);
    RootNodeOk(m, c1, own');
    ContentFrame(m, e, c1, id, s.(table := t1, ready := ready), []);
  }

  lemma GrownStillPrivate(c: Cache, c': Cache, own: Owners, k: Owner, t: seq<nat>)
    requires Calm(c, c', own) && k in own && Inv(c', own[k := t]) && |own[k]| <= |t| && own[k] == t[..|own[k]|]
    ensures StillPrivate(c, c', own[k])
  {
    hide Shape;
    assert Lighter(c, c', own[k]);
    forall b | b in own[k] && b in c.alloc && c.alloc[b] == 1
      ensures b in c'.alloc && c'.alloc[b] == 1
    {
      var i :| 0 <= i < |own[k]| && own[k][i] == b;
      assert t[i] == b;
      ListedCount(c', own[k := t], k, b);
    }
  }

  lemma CowStep(m: Model, e: State, id: nat, page: nat)
    requires Good(m, e) && id in e.seqs && !e.seqs[id].finished && e.seqs[id].pending.None?
    requires e.seqs[id].output != [] && !e.seqs[id].ready
    requires page == PageOf(e.seqs[id].cached, e.c.bs) && page < |e.seqs[id].table|
    requires Pages(e.seqs[id].cached + 1, e.c.bs) <= |e.seqs[id].table|
    ensures match Cow(e.c, e.seqs[id].table[page])
      case Oom(c2) => Good(m, State(c2, e.seqs))
      case Got(c2, ids) =>
        && |ids| == 1
        && Good(m, State(c2, e.seqs[id := e.seqs[id].(table := Replace(e.seqs[id].table, page, ids[0]), ready := true,
                                                      cold := false)]))
  {
    hide Inv, NodeOk, Undisturbed, Tables, SeqOk, StillPrivate, SameRows, Lighter, Cow;
    var s, own, k := e.seqs[id], Tables(e.seqs), Sequence(id);
    TableOf(e.seqs, id);
    NoTemps(e.seqs);
    CowOk(e.c, own, k, page);
    match Cow(e.c, s.table[page]) {
      case Oom(c2) =>
        assert own[k := s.table] == own;
        InvGrid(c2, own);
        KeepsUndisturbed(e, c2, id, s.table, own);
        LighterPrivate(e.c, c2, own, k);
        KeptReads(e.c, c2, own, k, s.cached);
        SeqFrame(m, e.c, c2, s);
        RootNodeOk(m, c2, own);
        ContentFrame(m, e, c2, id, s, []);
        assert e.seqs[id := s] == e.seqs;
      case Got(c2, ids) =>
        var t := Replace(s.table, page, ids[0]);
        var s' := s.(table := t, ready := true, cold := false);
        TablesSet(e.seqs, id, s');
        InvGrid(c2, own[k := t]);
        KeepsUndisturbed(e, c2, id, t, own);
        CopiedSeqOk(m, e.c, c2, s, page, ids[0]);
        RootNodeOk(m, c2, own[k := t]);
        ContentFrame(m, e, c2, id, s', []);
    }
  }

  lemma KeptReads(c: Cache, c': Cache, own: Owners, k: Owner, n: nat)
    requires Keeps(c, c', own) && k in own && GridOk(c'.kv, c.bs)
    ensures ReadsKept(c, c', own[k], n)
  {
    RowsReadsKept(c, c', own[k], n);
  }

  /** Inside a page a burst skips the page checks of a decode; a first skip is recorded. */
  lemma BurstOk(m: Model, e: State, id: nat)
    requires Good(m, e) && Enabled(e, Burst(id))
    ensures Good(m, DoBurst(e, id))
  {
    hide Inv, NodeOk, Undisturbed, Tables, SeqOk;
    var s := e.seqs[id];
    if SlotOf(s.cached, e.c.bs) == 0 || s.table == [] {
      PrepareOk(m, e, id);
    } else {
      var own, s' := Tables(e.seqs), s.(ready := true, cold := s.cold || !s.warm);
      BurstSeqOk(m, e.c, s);
      TableOf(e.seqs, id);
      TablesSet(e.seqs, id, s');
      assert own[Sequence(id) := s.table] == own;
      SelfUndisturbed(e, id);
      RootNodeOk(m, e.c, own);
      ContentFrame(m, e, e.c, id, s', []);
    }
  }

  lemma BurstSeqOk(m: Model, c: Cache, s: Seq)
    requires c.bs > 0 && SeqOk(m, c, s) && !s.finished && s.pending.None? && s.output != []
    requires SlotOf(s.cached, c.bs) != 0
    ensures SeqOk(m, c, s.(ready := true, cold := s.cold || !s.warm))
  {
    hide KV, Reference;
    assert History(s.(ready := true, cold := s.cold || !s.warm)) == History(s);
    NextOnPage(s.cached - 1, c.bs);
  }

  // ---------------------------------------------------------------- forward

  lemma KvOnly(c: Cache, own: Owners, kv': Grid)
    requires Inv(c, own) && |kv'| == |c.kv| && GridOk(kv', c.bs)
    ensures Inv(c.(kv := kv'), own)
  {
    hide TreeOk, PoolOk, ListOk, Count;
    var c' := c.(kv := kv');
    forall l: seq<nat> | ListOk(c, l)
      ensures ListOk(c', l)
    {
      ListShift(c, c', l);
    }
  }

  lemma ListShift(c: Cache, c': Cache, l: seq<nat>)
    requires ListOk(c, l) && c'.alloc == c.alloc
    ensures ListOk(c', l)
  {
  }

  /** Every page the forward writes is private. */
  ghost predicate WritesPrivate(c: Cache, s: Seq, n: nat)
    requires c.bs > 0
  {
    && Pages(n, c.bs) <= |s.table|
    && forall i :: PageOf(s.cached, c.bs) <= i < Pages(n, c.bs) ==>
         s.table[i] in c.alloc && c.alloc[s.table[i]] == 1
  }

  lemma ForwardPrivate(m: Model, c: Cache, s: Seq)
    requires c.bs > 0 && SeqOk(m, c, s) && !s.finished && s.pending.None? && !FromLogits(s) && s.ready
    ensures !s.cold ==> WritesPrivate(c, s, s.cached + |NextInput(s)|)
    ensures s.cold ==> !NeedsPrefill(s) && |NextInput(s)| == 1
    ensures NeedsPrefill(s) ==> s.output == []
    ensures !NeedsPrefill(s) ==> s.output != [] && s.cached == |s.prompt| + |s.output| - 1
  {
    hide KV, Reference, Rows;
  }

  /** `c'` is `c` after the request wrote the rows at its cached length. */
  ghost predicate WrittenBy(c: Cache, s: Seq, rows: seq<Row>, c': Cache) {
    Covers(c.kv, s.table, c.bs, s.cached + |rows|) && c' == c.(kv := Write(c.kv, s.table, c.bs, s.cached, rows))
  }

  lemma WrittenSize(c: Cache, s: Seq, rows: seq<Row>, c': Cache)
    requires WrittenBy(c, s, rows, c')
    ensures SameSize(c, c') && c.bs > 0 && c' == c.(kv := c'.kv)
  {
    hide Write;
    WriteCovers(c, s.table, s.cached, rows);
  }

  /** Rows on pages that only the writer holds are invisible to everyone else. */
  lemma WriteUndisturbed(e: State, id: nat, rows: seq<Row>, c': Cache)
    requires id in e.seqs && WrittenBy(e.c, e.seqs[id], rows, c')
    requires WritesPrivate(e.c, e.seqs[id], e.seqs[id].cached + |rows|)
    requires Inv(e.c, Tables(e.seqs))
    ensures Undisturbed(e, c', id, [])
  {
    hide Inv, Tables, ReadsKept, WrittenBy, WritesPrivate, StillPrivate;
    var s, own := e.seqs[id], Tables(e.seqs);
    TableOf(e.seqs, id);
    WrittenSize(e.c, s, rows, c');
    forall j | j in e.seqs && j != id
      ensures ReadsKept(e.c, c', e.seqs[j].table, e.seqs[j].cached) && StillPrivate(e.c, c', e.seqs[j].table)
    {
      TableOf(e.seqs, j);
      OthersKept(e.c, own, Sequence(id), s, rows, e.seqs[j].table, Sequence(j), [], e.seqs[j].cached, c');
    }
    forall p | p in e.c.tree
      ensures ReadsKept(e.c, c', e.c.tree[p].blocks, |p|)
    {
      OthersKept(e.c, own, Sequence(id), s, rows, e.c.tree[p].blocks, Sequence(id), p, |p|, c');
    }
  }

  lemma OthersKept(c: Cache, own: Owners, k: Owner, s: Seq, rows: seq<Row>, l: seq<nat>, j: Owner, p: Path, n: nat,
                   c': Cache)
    requires WrittenBy(c, s, rows, c') && c.bs > 0 && WritesPrivate(c, s, s.cached + |rows|)
    requires j in own && (if j != k then own[j] == l else p in c.tree && c.tree[p].blocks == l)
    requires Inv(c, own) && k in own && own[k] == s.table
    ensures ReadsKept(c, c', l, n) && StillPrivate(c, c', l)
  {
    hide Inv, Write, WritesPrivate, SameRows, ReadsKept, Pages, PageOf;
    OtherRows(c, own, k, s, rows, l, j, p);
    WrittenSize(c, s, rows, c');
    RowsReadsKept(c, c', l, n);
  }

  /** A list of another owner (or of node `p` when `j == k`) contains no private page of `k`. */
  lemma Apart(c: Cache, own: Owners, k: Owner, x: nat, l: seq<nat>, j: Owner, p: Path)
    requires Inv(c, own) && k in own && x in own[k] && x in c.alloc && c.alloc[x] == 1
    requires j in own && (if j != k then own[j] == l else p in c.tree && c.tree[p].blocks == l)
    ensures x !in l
  {
    hide Shape;
    SoleOwner(c, own, k, x);
  }

  lemma ListBound(c: Cache, own: Owners, k: Owner, l: seq<nat>, j: Owner, p: Path)
    requires Inv(c, own)
    requires j in own && (if j != k then own[j] == l else p in c.tree && c.tree[p].blocks == l)
    ensures forall b :: b in l ==> b < |c.kv|
  {
    hide TreeOk, Counted;
    assert ListOk(c, l);
  }

  /** Writing private pages of `k` leaves the rows of every other list alone. */
  lemma OtherRows(c: Cache, own: Owners, k: Owner, s: Seq, rows: seq<Row>, l: seq<nat>, j: Owner, p: Path)
    requires Inv(c, own) && k in own && own[k] == s.table
    requires Covers(c.kv, s.table, c.bs, s.cached + |rows|) && WritesPrivate(c, s, s.cached + |rows|)
    requires j in own && (if j != k then own[j] == l else p in c.tree && c.tree[p].blocks == l)
    ensures SameRows(c, c.(kv := Write(c.kv, s.table, c.bs, s.cached, rows)), l)
  {
    hide Inv, Write, PageOf, Pages, Covers, WritesPrivate, GridOk, NoDup, SlotOf;
    ListBound(c, own, k, l, j, p);
    WriteCovers(c, s.table, s.cached, rows);
    forall b | b in l
      ensures Write(c.kv, s.table, c.bs, s.cached, rows)[b] == c.kv[b]
    {
      OtherRow(c, own, k, s, rows, l, j, p, b);
    }
  }

  lemma OtherRow(c: Cache, own: Owners, k: Owner, s: Seq, rows: seq<Row>, l: seq<nat>, j: Owner, p: Path, b: nat)
    requires b in l && b < |c.kv| && k in own && own[k] == s.table
    requires Covers(c.kv, s.table, c.bs, s.cached + |rows|) && WritesPrivate(c, s, s.cached + |rows|)
    requires j in own && (if j != k then own[j] == l else p in c.tree && c.tree[p].blocks == l)
    requires Inv(c, own)
    ensures Write(c.kv, s.table, c.bs, s.cached, rows)[b] == c.kv[b]
  {
    hide Inv, Write, PageOf, Pages;
    forall i | PageOf(s.cached, c.bs) <= i < Pages(s.cached + |rows|, c.bs)
      ensures s.table[i] != b
    {
      assert s.table[i] in own[k];
      Apart(c, own, k, s.table[i], l, j, p);
    }
    WriteFrame(c.kv, s.table, c.bs, s.cached, rows, b);
  }

  /** A row written at or past what a reader reads of the page leaves the reader's rows alone. */
  lemma WritePastReads(c: Cache, table: seq<nat>, pos: nat, row: Row, l: seq<nat>, n: nat)
    requires Covers(c.kv, table, c.bs, pos + 1) && PageOf(pos, c.bs) < |table|
    requires ReadsBelow(l, n, table[PageOf(pos, c.bs)], SlotOf(pos, c.bs), c.bs)
    ensures ReadsKept(c, c.(kv := Write(c.kv, table, c.bs, pos, [row])), l, n)
  {
    hide Write, PageOf, SlotOf, Pages;
    if Covers(c.kv, l, c.bs, n) {
      var kv' := Write(c.kv, table, c.bs, pos, [row]);
      forall i | 0 <= i < n
        ensures Flat(kv', l, c.bs, n)[i] == Flat(c.kv, l, c.bs, n)[i]
      {
        PageInRange(i, n, c.bs);
        Recompose(i, c.bs);
        WriteOtherCells(c.kv, table, c.bs, pos, [row], l[PageOf(i, c.bs)], SlotOf(i, c.bs));
      }
    }
  }

  /** A cold write disturbs nobody: everyone else stays below it. */
  lemma ColdUndisturbed(e: State, id: nat, row: Row, c': Cache)
    requires id in e.seqs && e.c.bs > 0 && WrittenBy(e.c, e.seqs[id], [row], c')
    requires SlotOf(e.seqs[id].cached, e.c.bs) != 0 && Cleared(e, id)
    requires forall j :: j in e.seqs && e.seqs[j].finished ==> e.seqs[j].table == []
    ensures Undisturbed(e, c', id, [])
  {
    hide Write, Pages, PageOf, SlotOf, ReadsKept, ReadsBelow, WritesNext, Covers;
    var s := e.seqs[id];
    WrittenSize(e.c, s, [row], c');
    forall j | j in e.seqs && j != id
      ensures ReadsKept(e.c, c', e.seqs[j].table, e.seqs[j].cached)
    {
      if e.seqs[j].finished {
        NothingRead(e.seqs[j].table, e.seqs[j].cached, s.table[PageOf(s.cached, e.c.bs)], SlotOf(s.cached, e.c.bs),
                    e.c.bs);
      }
      WritePastReads(e.c, s.table, s.cached, row, e.seqs[j].table, e.seqs[j].cached);
    }
    forall p | p in e.c.tree
      ensures ReadsKept(e.c, c', e.c.tree[p].blocks, |p|)
    {
      WritePastReads(e.c, s.table, s.cached, row, e.c.tree[p].blocks, |p|);
    }
  }

  lemma NothingRead(l: seq<nat>, n: nat, b: nat, slot: nat, bs: nat)
    requires l == []
    ensures ReadsBelow(l, n, b, slot, bs)
  {
  }

  /** The rows written continue the history: reading them back gives the rows of the longer history. */
  lemma ForwardRows(m: Model, c: Cache, s: Seq, input: seq<Token>)
    requires Rows(m, c, s) && NoDup(s.table) && Covers(c.kv, s.table, c.bs, s.cached + |input|)
    requires s.cached + |input| <= |History(s)| && History(s)[s.cached..s.cached + |input|] == input
    ensures var past := Flat(c.kv, s.table, c.bs, s.cached);
      var rows := Extend(m, past, input);
      var n := s.cached + |input|;
      && Flat(Write(c.kv, s.table, c.bs, s.cached, rows), s.table, c.bs, n) == KV(m, History(s)[..n])
      && past + rows == KV(m, History(s)[..n])
  {
    hide Write, Flat, KV, Extend, Pages, PageOf;
    var h, n := History(s), s.cached + |input|;
    var past := Flat(c.kv, s.table, c.bs, s.cached);
    var rows := Extend(m, past, input);
    ExtendIsKV(m, h[..s.cached], input);
    assert h[..s.cached] + input == h[..n];
    WriteThenRead(c.kv, s.table, c.bs, s.cached, rows, n);
    FlatPrefix(c.kv, s.table, c.bs, n, s.cached);
  }

  lemma ForwardSeqOk(m: Model, c: Cache, s: Seq, n: nat, c': Cache, tok: Token, logits: Logits)
    requires c.bs > 0 && SeqOk(m, c, s) && !s.finished && s.pending.None? && !FromLogits(s) && s.ready
    requires n == s.cached + |NextInput(s)| && n == |History(s)|
    requires c'.bs == c.bs && c'.alloc == c.alloc && Covers(c'.kv, s.table, c.bs, n)
    requires Flat(c'.kv, s.table, c.bs, n) == KV(m, History(s))
    requires logits == m.out(KV(m, History(s))) && tok == m.pick(logits, s.seed, |s.output|)
    ensures SeqOk(m, c', s.(cached := n, ready := false, warm := !NeedsPrefill(s),
                            cold := s.cold && !NeedsPrefill(s) && SlotOf(n, c.bs) != 0, pending := Some(tok),
                            pre := NeedsPrefill(s),
                            logits := if NeedsPrefill(s) then Some(logits) else s.logits))
  {
    hide KV, Reference;
    ForwardPrivate(m, c, s);
    var s' := s.(cached := n, ready := false, warm := !NeedsPrefill(s),
                            cold := s.cold && !NeedsPrefill(s) && SlotOf(n, c.bs) != 0, pending := Some(tok),
                            pre := NeedsPrefill(s),
                 logits := if NeedsPrefill(s) then Some(logits) else s.logits);
    assert History(s') == History(s);
    assert History(s)[..n] == History(s);
    if NeedsPrefill(s) {
      assert History(s) == s.prompt;
    } else if SlotOf(n, c.bs) != 0 {
      NextOnPage(s.cached, c.bs);
    }
  }

  lemma InputIsHistory(s: Seq)
    requires s.prompt != []
    requires NeedsPrefill(s) ==> s.output == []
    requires !NeedsPrefill(s) ==> s.output != [] && s.cached == |s.prompt| + |s.output| - 1
    ensures s.cached + |NextInput(s)| == |History(s)|
    ensures History(s)[s.cached..] == NextInput(s)
  {
  }

  lemma ForwardOk(m: Model, e: State, id: nat)
    requires Good(m, e) && Enabled(e, Forward(id)) && e.seqs[id].prompt != [] && e.c.bs > 0
    requires e.seqs[id].cold ==> SlotOf(e.seqs[id].cached, e.c.bs) != 0 && Cleared(e, id)
    ensures Good(m, DoForward(m, e, id))
  {
    hide Inv, NodeOk, Undisturbed, Tables, Write, Flat, Extend, KV, Reference, Progress, Rows, Covers, NextInput,
      Cleared;
    var s, own, k := e.seqs[id], Tables(e.seqs), Sequence(id);
    var e' := DoForward(m, e, id);
    if e' != e {
      var s' := e'.seqs[id];
      TableOf(e.seqs, id);
      TablesSet(e.seqs, id, s');
      assert own[k := s.table] == own;
      if FromLogits(s) {
        LogitsSeqOk(m, e.c, s);
        SelfUndisturbed(e, id);
      } else {
        var past := Flat(e.c.kv, s.table, e.c.bs, s.cached);
        var rows := Extend(m, past, NextInput(s));
        ForwardPrivate(m, e.c, s);
        InputIsHistory(s);
        OwnedTableOk(e.c, own, k);
        HistoryTail(s);
        ForwardRows(m, e.c, s, NextInput(s));
        RowsUndisturbed(m, e, id, rows, e'.c);
        WriteCovers(e.c, s.table, s.cached, rows);
        KvOnly(e.c, own, e'.c.kv);
        ForwardSeqOk(m, e.c, s, |History(s)|, e'.c, s'.pending.value, m.out(past + rows));
      }
      RootNodeOk(m, e'.c, own);
      ContentFrame(m, e, e'.c, id, s', []);
    }
  }

  lemma RowsUndisturbed(m: Model, e: State, id: nat, rows: seq<Row>, c': Cache)
    requires id in e.seqs && e.c.bs > 0 && WrittenBy(e.c, e.seqs[id], rows, c')
    requires !e.seqs[id].cold ==> WritesPrivate(e.c, e.seqs[id], e.seqs[id].cached + |rows|)
    requires e.seqs[id].cold ==> |rows| == 1 && SlotOf(e.seqs[id].cached, e.c.bs) != 0 && Cleared(e, id)
    requires Good(m, e)
    ensures Undisturbed(e, c', id, [])
  {
    hide Inv, Content, Undisturbed, Tables, WrittenBy, Cleared, WritesPrivate;
    if e.seqs[id].cold {
      assert rows == [rows[0]];
      DoneHoldNothing(m, e);
      ColdUndisturbed(e, id, rows[0], c');
    } else {
      WriteUndisturbed(e, id, rows, c');
    }
  }

  lemma DoneHoldNothing(m: Model, e: State)
    requires Good(m, e)
    ensures forall j :: j in e.seqs && e.seqs[j].finished ==> e.seqs[j].table == []
  {
    hide Inv, KV, Reference, NodeOk, Rows, Progress;
    forall j | j in e.seqs && e.seqs[j].finished
      ensures e.seqs[j].table == []
    {
      assert SeqOk(m, e.c, e.seqs[j]);
    }
  }

  lemma HistoryTail(s: Seq)
    requires s.cached <= |History(s)|
    ensures History(s)[..|History(s)|] == History(s)
    ensures History(s)[s.cached..|History(s)|] == History(s)[s.cached..]
  {
  }

  lemma WriteCovers(c: Cache, table: seq<nat>, start: nat, rows: seq<Row>)
    requires Covers(c.kv, table, c.bs, start + |rows|)
    ensures var kv' := Write(c.kv, table, c.bs, start, rows);
      Covers(kv', table, c.bs, start + |rows|) && |kv'| == |c.kv| && GridOk(kv', c.bs)
  {
  }

  /** The first token of an exact hit comes from the prompt's own logits. */
  lemma LogitsSeqOk(m: Model, c: Cache, s: Seq)
    requires c.bs > 0 && SeqOk(m, c, s) && !s.finished && s.pending.None? && FromLogits(s)
    ensures SeqOk(m, c, s.(cached := |s.prompt|, warm := false, cold := false,
                           pending := Some(m.pick(s.logits.value, s.seed, 0)), pre := false))
  {
    hide KV, Reference;
    assert History(s) == s.prompt;
    assert s.prompt + [] == s.prompt;
  }

  // ---------------------------------------------------------------- deliver

  /** Sharing the pages of one request with the tree leaves the other requests' pages private. */
  lemma InsertPrivate(c: Cache, c': Cache, own: Owners, k: Owner, j: Owner, p: Path)
    requires Inv(c, own) && Inv(c', own) && k in own && j in own && j != k
    requires p in c'.tree && c'.tree[p].blocks == own[k] && SameNodes(c, c', p)
    ensures StillPrivate(c, c', own[j])
  {
    hide Shape;
    forall b | b in own[j] && b in c.alloc && c.alloc[b] == 1
      ensures b in c'.alloc && c'.alloc[b] == 1
    {
      SoleOwner(c, own, j, b);
      CountPos(own, j, b);
      assert ListOk(c', own[j]);
      assert Holders(Blocks(c'.tree), b) == {};
    }
  }

  lemma DeliveredSeqOk(m: Model, c: Cache, c': Cache, s: Seq)
    requires c.bs > 0 && SeqOk(m, c, s) && !s.finished && s.pending.Some?
    requires SameSize(c, c') && SameRows(c, c', s.table) && (s.pre || c' == c)
    ensures SeqOk(m, c', s.(output := s.output + [s.pending.value], pending := None, pre := false))
  {
    hide KV;
    var s' := s.(output := s.output + [s.pending.value], pending := None, pre := false);
    FlatSame(c, c', s.table, s.cached);
    assert History(s')[..s.cached] == History(s) == History(s)[..s.cached];
  }

  lemma InsertUndisturbed(e: State, id: nat, c': Cache)
    requires Inv(e.c, Tables(e.seqs)) && id in e.seqs && e.seqs[id].prompt != []
    requires c' == Insert(e.c, e.seqs[id].prompt, e.seqs[id].table, e.seqs[id].logits)
    ensures Inv(c', Tables(e.seqs)) && SameSize(e.c, c') && SameRows(e.c, c', e.seqs[id].table)
    ensures Undisturbed(e, c', id, e.seqs[id].prompt)
    ensures var s := e.seqs[id];
      && s.prompt in c'.tree && c'.tree[s.prompt].blocks == s.table
      && (s.logits.Some? ==> c'.tree[s.prompt].logits == s.logits)
  {
    hide Inv, Tables, SameRows, StillPrivate, Insert, ReadsKept;
    var s, own, k := e.seqs[id], Tables(e.seqs), Sequence(id);
    TableOf(e.seqs, id);
    NoTemps(e.seqs);
    InsertOk(e.c, own, k, s.prompt, s.logits);
    InvGrid(c', own);
    forall j | j in e.seqs && j != id
      ensures ReadsKept(e.c, c', e.seqs[j].table, e.seqs[j].cached) && StillPrivate(e.c, c', e.seqs[j].table)
    {
      TableOf(e.seqs, j);
      InsertPrivate(e.c, c', own, k, Sequence(j), s.prompt);
      RowsReadsKept(e.c, c', e.seqs[j].table, e.seqs[j].cached);
    }
    forall p | p in e.c.tree
      ensures p != s.prompt ==> ReadsKept(e.c, c', e.c.tree[p].blocks, |p|)
    {
      if p != s.prompt {
        RowsReadsKept(e.c, c', e.c.tree[p].blocks, |p|);
      }
    }
  }

  lemma InsertedNodeOk(m: Model, c: Cache, c': Cache, s: Seq)
    requires c.bs > 0 && SeqOk(m, c, s) && !s.finished && s.pending.Some? && s.pre
    requires SameSize(c, c') && SameRows(c, c', s.table)
    ensures NodeOk(m, c', s.prompt, s.table, s.logits)
  {
    hide KV, Reference;
    FlatSame(c, c', s.table, s.cached);
    assert History(s)[..s.cached] == s.prompt;
  }

  lemma DeliverOk(m: Model, e: State, id: nat)
    requires id in e.seqs && !e.seqs[id].finished && e.seqs[id].pending.Some?
    requires Good(m, e)
    ensures Good(m, DoDeliver(e, id))
  {
    hide Inv, NodeOk, Undisturbed, Tables, KV, Reference, Progress, Rows, Insert, SameRows;
    var s, own, k := e.seqs[id], Tables(e.seqs), Sequence(id);
    var e' := DoDeliver(e, id);
    var s' := e'.seqs[id];
    TableOf(e.seqs, id);
    TablesSet(e.seqs, id, s');
    assert own[k := s.table] == own;
    InvGrid(e.c, own);
    if s.pre {
      InsertUndisturbed(e, id, e'.c);
      PreLogits(m, e.c, s);
      InsertedNodeOk(m, e.c, e'.c, s);
      DeliveredSeqOk(m, e.c, e'.c, s);
      ContentFrame(m, e, e'.c, id, s', s.prompt);
    } else {
      InvRows(e.c, own);
      SelfUndisturbed(e, id);
      DeliveredSeqOk(m, e.c, e.c, s);
      RootNodeOk(m, e.c, own);
      ContentFrame(m, e, e.c, id, s', []);
    }
  }

  lemma PreLogits(m: Model, c: Cache, s: Seq)
    requires c.bs > 0 && SeqOk(m, c, s) && !s.finished && s.pending.Some? && s.pre
    ensures s.logits.Some?
  {
  }

  // ---------------------------------------------------------------- finish

  lemma FinishOk(m: Model, e: State, id: nat, keep: nat)
    requires Good(m, e) && Enabled(e, Finish(id, keep))
    ensures Good(m, DoFinish(e, id, keep))
  {
    hide Inv, NodeOk, Undisturbed, Tables, KV, Reference, Progress, Rows, Release, Calm, Keeps;
    var s, own, k := e.seqs[id], Tables(e.seqs), Sequence(id);
    var e' := DoFinish(e, id, keep);
    var s' := e'.seqs[id];
    TableOf(e.seqs, id);
    TablesSet(e.seqs, id, s');
    ReleaseOwner(e.c, own, k);
    ReleaseCalm(e.c, own, k);
    AddIdle(e'.c, own - {k}, k);
    assert (own - {k})[k := []] == own[k := []];
    KeepsUndisturbed(e, e'.c, id, [], own - {k});
    if keep <= |s.output| {
      ReferencePrefix(m, s.seed, s.prompt, |s.output|, keep);
    }
    RootNodeOk(m, e'.c, own[k := []]);
    ReleaseSize(e.c, s.table);
    ContentFrame(m, e, e'.c, id, s', []);
  }

  lemma {:induction false} ReleaseSize(c: Cache, l: seq<nat>)
    ensures Release(c, l).bs == c.bs
    decreases |l|
  {
    if l != [] {
      ReleaseSize(c, l[..|l| - 1]);
    }
  }

  lemma GoodSize(m: Model, e: State)
    requires Good(m, e)
    ensures e.c.bs > 0
  {
  }
}
