/**
 Bursts that start on a page they did not check.  Right after a first token from stored logits
 a burst writes into the last page of the hit without a copy; this is harmless as long as
 nobody else reads the cells it writes, and every step keeps it so.
 */
module ColdBursts {
  import opened Prelude
  import opened Paging
  import opened Ledger
  import opened PagePool
  import opened Allocator
  import opened PrefixTree
  import opened Generation
  import opened Engine
  import opened EngineSafety
  import opened EngineBalance

  // ---------------------------------------------------------------- exactly when a burst harms

  /**
   One row written without the page check: a reader of `n` rows through `l` keeps them exactly
   when it does not read the written cell, or read the same row there.
   */
  lemma BurstWriteSparesExactly(c: Cache, table: seq<nat>, pos: nat, row: Row, l: seq<nat>, n: nat)
    requires Covers(c.kv, table, c.bs, pos + 1) && PageOf(pos, c.bs) < |table| && NoDup(table)
    requires Covers(c.kv, l, c.bs, n)
    ensures Covers(Write(c.kv, table, c.bs, pos, [row]), l, c.bs, n)
    ensures Flat(Write(c.kv, table, c.bs, pos, [row]), l, c.bs, n) == Flat(c.kv, l, c.bs, n)
       <==> forall i :: 0 <= i < n && ReadsCell(l, i, table[PageOf(pos, c.bs)], SlotOf(pos, c.bs), c.bs) ==>
              Flat(c.kv, l, c.bs, n)[i] == row
  {
    hide Write, PageOf, SlotOf, Pages, Flat;
    var kv' := Write(c.kv, table, c.bs, pos, [row]);
    var b, slot := table[PageOf(pos, c.bs)], SlotOf(pos, c.bs);
    WriteCovers(c, table, pos, [row]);
    forall i | 0 <= i < n
      ensures Flat(kv', l, c.bs, n)[i] == if ReadsCell(l, i, b, slot, c.bs) then row else Flat(c.kv, l, c.bs, n)[i]
    {
      WrittenCell(c, table, pos, row, l, n, i);
    }
    if Flat(kv', l, c.bs, n) != Flat(c.kv, l, c.bs, n) {
      var i :| 0 <= i < n && Flat(kv', l, c.bs, n)[i] != Flat(c.kv, l, c.bs, n)[i];
      assert ReadsCell(l, i, b, slot, c.bs);
    }
  }

  /** Position `i` of list `l` is slot `slot` of page `b`. */
  ghost predicate ReadsCell(l: seq<nat>, i: nat, b: nat, slot: nat, bs: nat) {
    bs > 0 && PageOf(i, bs) < |l| && l[PageOf(i, bs)] == b && SlotOf(i, bs) == slot
  }

  lemma WrittenCell(c: Cache, table: seq<nat>, pos: nat, row: Row, l: seq<nat>, n: nat, i: nat)
    requires Covers(c.kv, table, c.bs, pos + 1) && PageOf(pos, c.bs) < |table| && NoDup(table)
    requires Covers(c.kv, l, c.bs, n) && i < n
    requires Covers(Write(c.kv, table, c.bs, pos, [row]), l, c.bs, n)
    ensures Flat(Write(c.kv, table, c.bs, pos, [row]), l, c.bs, n)[i]
         == if ReadsCell(l, i, table[PageOf(pos, c.bs)], SlotOf(pos, c.bs), c.bs) then row
            else Flat(c.kv, l, c.bs, n)[i]
  {
    hide Write, PageOf, SlotOf, Pages, NoDup;
    PageInRange(i, n, c.bs);
    WriteAt(c.kv, table, c.bs, pos, [row], pos);
    if !ReadsCell(l, i, table[PageOf(pos, c.bs)], SlotOf(pos, c.bs), c.bs) {
      WriteOtherCells(c.kv, table, c.bs, pos, [row], l[PageOf(i, c.bs)], SlotOf(i, c.bs));
    }
  }

  /** The row a decode forward of the request writes. */
  ghost function DecodeRow(m: Model, past: seq<Row>, s: Seq): Row
    requires s.output != []
  {
    m.step(past, s.output[|s.output| - 1])
  }

  /**
   A burst step inside a page, in any balanced state: another request keeps the rows it reads
   exactly when none of them is the written cell with a different row.
   */
  lemma BurstSparesRequestExactly(m: Model, e: State, id: nat, past: seq<Row>, j: nat, other: seq<Row>)
    requires Balanced(e) && Decoding(e, id) && Reads(e, id, past) && SlotOf(e.seqs[id].cached, e.c.bs) != 0
    requires Reads(e, j, other) && j != id
    ensures PageOf(e.seqs[id].cached, e.c.bs) < |e.seqs[id].table|
    ensures var s := e.seqs[id];
      var page, slot := s.table[PageOf(s.cached, e.c.bs)], SlotOf(s.cached, e.c.bs);
      Reads(DoForward(m, DoBurst(e, id), id), j, other) <==>
      forall i :: 0 <= i < |other| && ReadsCell(e.seqs[j].table, i, page, slot, e.c.bs) ==>
        other[i] == DecodeRow(m, past, s)
  {
    hide Inv, Tables, Write, Flat, SlotOf, Pages, ReadsCell, PageOf;
    var s, e1 := e.seqs[id], DoBurst(e, id);
    BurstPage(e, id, past);
    BurstInv(e, id) by { PrepareInv(e, id); }
    AppendForward(m, e1, id, past);
    TableOf(e.seqs, id);
    OwnedTableOk(e.c, Tables(e.seqs), Sequence(id));
    BurstWriteSparesExactly(e.c, s.table, s.cached, DecodeRow(m, past, s), e.seqs[j].table, e.seqs[j].cached);
  }

  /** The same for a prompt in the tree. */
  lemma BurstSparesNodeExactly(m: Model, e: State, id: nat, past: seq<Row>, p: Path, kept: seq<Row>)
    requires Balanced(e) && Decoding(e, id) && Reads(e, id, past) && SlotOf(e.seqs[id].cached, e.c.bs) != 0
    requires Holds(e, p, kept)
    ensures PageOf(e.seqs[id].cached, e.c.bs) < |e.seqs[id].table|
    ensures var s := e.seqs[id];
      var page, slot := s.table[PageOf(s.cached, e.c.bs)], SlotOf(s.cached, e.c.bs);
      Holds(DoForward(m, DoBurst(e, id), id), p, kept) <==>
      forall i :: 0 <= i < |kept| && ReadsCell(e.c.tree[p].blocks, i, page, slot, e.c.bs) ==>
        kept[i] == DecodeRow(m, past, s)
  {
    hide Inv, Tables, Write, Flat, SlotOf, Pages, ReadsCell, PageOf;
    var s, e1 := e.seqs[id], DoBurst(e, id);
    BurstPage(e, id, past);
    BurstInv(e, id) by { PrepareInv(e, id); }
    AppendForward(m, e1, id, past);
    TableOf(e.seqs, id);
    OwnedTableOk(e.c, Tables(e.seqs), Sequence(id));
    BurstWriteSparesExactly(e.c, s.table, s.cached, DecodeRow(m, past, s), e.c.tree[p].blocks, |p|);
  }

  /** Inside a page the burst step touches neither pages nor table. */
  lemma BurstPage(e: State, id: nat, past: seq<Row>)
    requires id in e.seqs && e.c.bs > 0 && SlotOf(e.seqs[id].cached, e.c.bs) != 0 && Reads(e, id, past)
    ensures PageOf(e.seqs[id].cached, e.c.bs) < |e.seqs[id].table|
    ensures Covers(e.c.kv, e.seqs[id].table, e.c.bs, e.seqs[id].cached + 1)
    ensures DoBurst(e, id).c == e.c && DoBurst(e, id).seqs.Keys == e.seqs.Keys
    ensures DoBurst(e, id).seqs[id] == e.seqs[id].(ready := true, cold := e.seqs[id].cold || !e.seqs[id].warm)
    ensures forall j :: j in e.seqs && j != id ==> DoBurst(e, id).seqs[j] == e.seqs[j]
  {
    hide DoPrepare;
    var n := e.seqs[id].cached;
    NextOnPage(n - 1, e.c.bs);
    assert Pages(n + 1, e.c.bs) == Pages(n, e.c.bs);
  }

  // ---------------------------------------------------------------- every step keeps it

  /** Request `x` bursts on a page it did not check. */
  ghost predicate Bursting(e: State, x: nat)
    requires e.c.bs > 0
  {
    x in e.seqs && !e.seqs[x].finished && e.seqs[x].cold && SlotOf(e.seqs[x].cached, e.c.bs) != 0
  }

  /** Request state `s` spares the cells of every bursting request other than `a`. */
  ghost predicate SparesBursts(e: State, a: nat, s: Seq)
    requires e.c.bs > 0
  {
    forall x :: x != a && Bursting(e, x) && PageOf(e.seqs[x].cached, e.c.bs) < |e.seqs[x].table| ==>
      Spares(s, e.seqs[x].table[PageOf(e.seqs[x].cached, e.c.bs)], SlotOf(e.seqs[x].cached, e.c.bs), e.c.bs)
  }

  /** Nodes keep their pages, lose them, or take over what live request `a` reads. */
  ghost predicate NodesFrom(e: State, c': Cache, a: nat) {
    forall p :: p in c'.tree ==>
      || c'.tree[p].blocks == []
      || (p in e.c.tree && c'.tree[p].blocks == e.c.tree[p].blocks)
      || (a in e.seqs && !e.seqs[a].finished && c'.tree[p].blocks == e.seqs[a].table && |p| <= e.seqs[a].cached)
  }

  /** A step of request `a` that spares the cells of all bursting requests. */
  lemma ColdFrame(e: State, e': State, a: nat, s: Seq)
    requires ColdOk(e) && e'.c.bs == e.c.bs && e'.seqs == e.seqs[a := s]
    requires s.finished || SparesBursts(e, a, s)
    requires NodesFrom(e, e'.c, a)
    requires !s.finished && s.cold ==> SlotOf(s.cached, e.c.bs) != 0 && Cleared(e', a)
    ensures ColdOk(e')
  {
    hide PageOf, SlotOf, ReadsBelow;
    forall x | x in e'.seqs && !e'.seqs[x].finished && e'.seqs[x].cold && x != a
      ensures Cleared(e', x)
    {
      assert Cleared(e, x) && Bursting(e, x);
      var b, slot := e.seqs[x].table[PageOf(e.seqs[x].cached, e.c.bs)], SlotOf(e.seqs[x].cached, e.c.bs);
      forall p | p in e'.c.tree
        ensures ReadsBelow(e'.c.tree[p].blocks, |p|, b, slot, e.c.bs)
      {
        if e'.c.tree[p].blocks == [] {
          NothingRead(e'.c.tree[p].blocks, |p|, b, slot, e.c.bs);
        } else if p in e.c.tree && e'.c.tree[p].blocks == e.c.tree[p].blocks {
          assert ReadsBelow(e.c.tree[p].blocks, |p|, b, slot, e.c.bs);
        } else if a in e.seqs {
          ReadsLess(e.seqs[a].table, e.seqs[a].cached, |p|, b, slot, e.c.bs);
        }
      }
    }
  }

  lemma ReadsLess(l: seq<nat>, n: nat, n': nat, b: nat, slot: nat, bs: nat)
    requires ReadsBelow(l, n, b, slot, bs) && n' <= n
    ensures ReadsBelow(l, n', b, slot, bs)
  {
  }

  /** What a bursting request tells about a live one. */
  lemma SparedBy(e: State, x: nat, j: nat)
    requires ColdOk(e) && Bursting(e, x) && j in e.seqs && j != x && !e.seqs[j].finished
    ensures PageOf(e.seqs[x].cached, e.c.bs) < |e.seqs[x].table|
    ensures Spares(e.seqs[j], e.seqs[x].table[PageOf(e.seqs[x].cached, e.c.bs)], SlotOf(e.seqs[x].cached, e.c.bs),
                   e.c.bs)
  {
    hide Spares;
    assert Cleared(e, x);
  }

  /** Pages of a prepared table are old entries or private. */
  lemma PreparedEntries(e: State, id: nat, k: nat)
    requires Balanced(e) && id in e.seqs && k < |DoPrepare(e, id).seqs[id].table|
    ensures var e' := DoPrepare(e, id); var t := e'.seqs[id].table;
      || (k < |e.seqs[id].table| && t[k] == e.seqs[id].table[k])
      || (t[k] in e'.c.alloc && e'.c.alloc[t[k]] == 1)
  {
    hide Inv, Keeps, Tables, Ensure, Cow, Calm, Pages, PageOf;
    var s, own, o := e.seqs[id], Tables(e.seqs), Sequence(id);
    var total := if NeedsPrefill(s) then |s.prompt| else s.cached + 1;
    var (ok, c1, t1) := Ensure(e.c, s.table, Pages(total, e.c.bs));
    var page := PageOf(s.cached, e.c.bs);
    TableOf(e.seqs, id);
    NoTemps(e.seqs);
    EnsureOk(e.c, own, o, Pages(total, e.c.bs));
    var own1 := own[o := t1];
    if ok && !NeedsPrefill(s) && page < |t1| {
      CowOk(c1, own1, o, page);
      match Cow(c1, t1[page]) {
        case Oom(c2) =>
          if k >= |s.table| {
            StaysSole(c1, c2, own1, own1, o, t1[k]);
          }
        case Got(c2, ids) =>
          var t2 := Replace(t1, page, ids[0]);
          if k != page && k >= |s.table| {
            assert t2[k] in t2;
            StaysSole(c1, c2, own1, own1[o := t2], o, t1[k]);
          }
      }
    }
  }

  lemma StaysSole(c: Cache, c': Cache, own: Owners, own': Owners, k: Owner, b: nat)
    requires Calm(c, c', own) && Inv(c', own') && k in own && k in own' && b in own[k] && b in own'[k]
    requires b in c.alloc && c.alloc[b] == 1
    ensures b in c'.alloc && c'.alloc[b] == 1
  {
    hide Shape;
    assert Lighter(c, c', own[k]);
    ListedCount(c', own', k, b);
  }

  /** A private page of one request is on no other request's table. */
  lemma PrivateAlone(e: State, id: nat, b: nat, j: nat)
    requires Balanced(e) && id in e.seqs && j in e.seqs && j != id
    requires b in e.seqs[id].table && b in e.c.alloc && e.c.alloc[b] == 1
    ensures b !in e.seqs[j].table
  {
    hide Shape, Tables;
    TableOf(e.seqs, id);
    TableOf(e.seqs, j);
    SoleOwner(e.c, Tables(e.seqs), Sequence(id), b);
  }

  lemma PrepareSpares(e: State, id: nat)
    requires Balanced(e) && id in e.seqs && !e.seqs[id].finished && ColdOk(e)
    ensures SparesBursts(e, id, DoPrepare(e, id).seqs[id])
  {
    hide Inv, Tables, DoPrepare, PageOf, SlotOf, ReadsBelow;
    var s, e' := e.seqs[id], DoPrepare(e, id);
    PrepareFrame(e, id);
    var s' := e'.seqs[id];
    PrepareShape(e, id);
    PrepareInv(e, id);
    forall x | x != id && Bursting(e, x) && PageOf(e.seqs[x].cached, e.c.bs) < |e.seqs[x].table|
      ensures Spares(s', e.seqs[x].table[PageOf(e.seqs[x].cached, e.c.bs)], SlotOf(e.seqs[x].cached, e.c.bs), e.c.bs)
    {
      SparedBy(e, x, id);
      var b, slot := e.seqs[x].table[PageOf(e.seqs[x].cached, e.c.bs)], SlotOf(e.seqs[x].cached, e.c.bs);
      forall k | 0 <= k < |s'.table| && s'.table[k] == b
        ensures k < |s.table| && s.table[k] == b
      {
        PreparedEntries(e, id, k);
        assert s'.table[k] in s'.table && b in e'.seqs[x].table;
        if b in e'.c.alloc && e'.c.alloc[b] == 1 {
          PrivateAlone(e', id, b, x);
        }
      }
      ReadsOld(s.table, s'.table, s.cached, b, slot, e.c.bs);
    }
  }

  lemma ReadsOld(l: seq<nat>, l': seq<nat>, n: nat, b: nat, slot: nat, bs: nat)
    requires ReadsBelow(l, n, b, slot, bs) && forall k :: 0 <= k < |l'| && l'[k] == b ==> k < |l| && l[k] == b
    ensures ReadsBelow(l', n, b, slot, bs)
  {
  }

  lemma PrepareShape(e: State, id: nat)
    requires id in e.seqs && e.c.bs > 0
    ensures var s, s' := e.seqs[id], DoPrepare(e, id).seqs[id];
      && s' == s.(table := s'.table, ready := s'.ready, cold := s'.cold) && (s'.cold ==> s.cold)
      && DoPrepare(e, id).seqs == e.seqs[id := s']
  {
  }

  /** While the flag stays, the current page stays. */
  lemma PrepareSamePage(e: State, id: nat)
    requires Balanced(e) && id in e.seqs && DoPrepare(e, id).seqs[id].cold
    requires PageOf(e.seqs[id].cached, e.c.bs) < |e.seqs[id].table|
    ensures var page, t := PageOf(e.seqs[id].cached, e.c.bs), DoPrepare(e, id).seqs[id].table;
      page < |t| && t[page] == e.seqs[id].table[page]
  {
    hide Inv, Keeps, Tables, Ensure, Cow, Calm, Pages, PageOf;
    var s, own, o := e.seqs[id], Tables(e.seqs), Sequence(id);
    var total := if NeedsPrefill(s) then |s.prompt| else s.cached + 1;
    TableOf(e.seqs, id);
    NoTemps(e.seqs);
    EnsureOk(e.c, own, o, Pages(total, e.c.bs));
    var (ok, c1, t1) := Ensure(e.c, s.table, Pages(total, e.c.bs));
    var page := PageOf(s.cached, e.c.bs);
    assert t1[page] == s.table[page];
    if ok && !NeedsPrefill(s) {
      CowOk(c1, own[o := t1], o, page);
    }
  }

  /** Fewer nodes and the same others: the cells stay cleared. */
  lemma ClearedStays(e: State, e': State, id: nat)
    requires id in e.seqs && id in e'.seqs && e.c.bs > 0 && e'.c.bs == e.c.bs && Cleared(e, id)
    requires e'.seqs[id].cached == e.seqs[id].cached
    requires var page := PageOf(e.seqs[id].cached, e.c.bs);
      page < |e.seqs[id].table| ==> page < |e'.seqs[id].table| && e'.seqs[id].table[page] == e.seqs[id].table[page]
    requires forall j :: j in e'.seqs && j != id ==> j in e.seqs && e'.seqs[j] == e.seqs[j]
    requires forall p :: p in e'.c.tree ==> p in e.c.tree && e'.c.tree[p].blocks == e.c.tree[p].blocks
    ensures Cleared(e', id)
  {
    hide PageOf, SlotOf, Spares, ReadsBelow;
  }

  lemma PrepareCold(e: State, id: nat)
    requires Balanced(e) && id in e.seqs && !e.seqs[id].finished && ColdOk(e)
    ensures ColdOk(DoPrepare(e, id))
  {
    hide Inv, Tables, DoPrepare, PageOf, SlotOf, Spares, ReadsBelow;
    var e' := DoPrepare(e, id);
    PrepareFrame(e, id);
    var s' := e'.seqs[id];
    PrepareShape(e, id);
    PrepareInv(e, id);
    PrepareSpares(e, id);
    if s'.cold {
      assert Cleared(e, id);
      if PageOf(e.seqs[id].cached, e.c.bs) < |e.seqs[id].table| {
        PrepareSamePage(e, id);
      }
      ClearedStays(e, e', id);
    }
    ColdFrame(e, e', id, s');
  }

  lemma BurstCold(e: State, id: nat)
    requires Balanced(e) && id in e.seqs && !e.seqs[id].finished && ColdOk(e)
    requires e.seqs[id].warm || Cleared(e, id)
    ensures ColdOk(DoBurst(e, id))
  {
    hide Inv, Tables, DoPrepare, PageOf, SlotOf, ReadsBelow;
    var s, e' := e.seqs[id], DoBurst(e, id);
    if SlotOf(s.cached, e.c.bs) == 0 || s.table == [] {
      PrepareCold(e, id);
    } else {
      var s' := e'.seqs[id];
      forall x | x != id && Bursting(e, x) && PageOf(e.seqs[x].cached, e.c.bs) < |e.seqs[x].table|
        ensures Spares(s', e.seqs[x].table[PageOf(e.seqs[x].cached, e.c.bs)], SlotOf(e.seqs[x].cached, e.c.bs), e.c.bs)
      {
        SparedBy(e, x, id);
      }
      if s'.cold {
        assert Cleared(e, id);
        ClearedStays(e, e', id);
      }
      ColdFrame(e, e', id, s');
    }
  }

  // ---------------------------------------------------------------- forwards

  /** Reading `n` rows instead of fewer stays below the cells when the pages in between are not the page. */
  lemma ReadsFurther(l: seq<nat>, n: nat, n': nat, b: nat, slot: nat, bs: nat)
    requires bs > 0 && slot < bs && n <= n' && ReadsBelow(l, n, b, slot, bs)
    requires forall k :: PageOf(n, bs) <= k < Pages(n', bs) && k < |l| ==> l[k] != b
    ensures ReadsBelow(l, n', b, slot, bs)
  {
    hide PageOf, Pages;
    forall k | 0 <= k < |l| && l[k] == b
      ensures n' <= Multiple(k, bs) + slot
    {
      Recompose(n, bs);
      if k < PageOf(n, bs) {
        StartMono(k + 1, PageOf(n, bs), bs);
      }
      if n' > Multiple(k, bs) {
        PagesMono(Multiple(k, bs) + 1, n', bs);
        Decompose(k, 0, bs);
        PagesNext(Multiple(k, bs), bs);
      }
    }
  }

  lemma PagesNext(n: nat, bs: nat)
    requires bs > 0
    ensures Pages(n + 1, bs) == PageOf(n, bs) + 1
  {
  }

  lemma ForwardSpares(m: Model, e: State, id: nat)
    requires Good(m, e) && Enabled(e, Forward(id)) && e.seqs[id].prompt != [] && ColdOk(e)
    ensures SparesBursts(e, id, DoForward(m, e, id).seqs[id])
  {
    hide Inv, Tables, PageOf, SlotOf, Pages, ReadsBelow, Write, Flat, Extend, KV, Reference, NodeOk, NextInput;
    var s, e' := e.seqs[id], DoForward(m, e, id);
    var s' := e'.seqs[id];
    assert SeqOk(m, e.c, s);
    forall x | x != id && Bursting(e, x) && PageOf(e.seqs[x].cached, e.c.bs) < |e.seqs[x].table|
      ensures Spares(s', e.seqs[x].table[PageOf(e.seqs[x].cached, e.c.bs)], SlotOf(e.seqs[x].cached, e.c.bs), e.c.bs)
    {
      SparedBy(e, x, id);
      var b, slot := e.seqs[x].table[PageOf(e.seqs[x].cached, e.c.bs)], SlotOf(e.seqs[x].cached, e.c.bs);
      if e' != e {
        if FromLogits(s) {
          ReadsLess(s.table, s.cached, |s.prompt|, b, slot, e.c.bs);
        } else {
          var n := s.cached + |NextInput(s)|;
          ForwardPrivate(m, e.c, s);
          PagesNext(s.cached, e.c.bs);
          forall k | PageOf(s.cached, e.c.bs) <= k < Pages(n, e.c.bs) && k < |s.table|
            ensures s.table[k] != b
          {
            if !s.cold && s.table[k] == b {
              PrivateAlone(e, id, b, x);
            }
          }
          ReadsFurther(s.table, s.cached, n, b, slot, e.c.bs);
          if s'.cold {
            NextOnPage(s.cached, e.c.bs);
          }
        }
      }
    }
  }

  lemma ForwardCold(m: Model, e: State, id: nat)
    requires Good(m, e) && Enabled(e, Forward(id)) && e.seqs[id].prompt != [] && ColdOk(e)
    ensures ColdOk(DoForward(m, e, id))
  {
    hide Good, PageOf, SlotOf, Spares, ReadsBelow, Write, Flat, Extend, Covers;
    var s, e' := e.seqs[id], DoForward(m, e, id);
    if e' != e {
      var s' := e'.seqs[id];
      ForwardSpares(m, e, id);
      if s'.cold {
        ForwardIsOne(m, e, id);
        assert Cleared(e, id) && e'.c.tree == e.c.tree && e'.c.bs == e.c.bs;
        ClearedNext(e, e', id);
      }
      ColdFrame(e, e', id, s');
    }
  }

  /** A forward that stays on its burst page is one decode row. */
  lemma ForwardIsOne(m: Model, e: State, id: nat)
    requires Good(m, e) && Enabled(e, Forward(id)) && e.seqs[id].prompt != [] && e.c.bs > 0
    requires DoForward(m, e, id) != e && DoForward(m, e, id).seqs[id].cold && ColdOk(e)
    ensures var s, s' := e.seqs[id], DoForward(m, e, id).seqs[id];
      && s.cold && s'.table == s.table && s'.cached == s.cached + 1
      && SlotOf(s'.cached, e.c.bs) != 0 && SlotOf(s.cached, e.c.bs) != 0
    ensures DoForward(m, e, id).seqs == e.seqs[id := DoForward(m, e, id).seqs[id]]
  {
    hide Good, PageOf, Write, Flat, Extend, Covers, Cleared;
    ColdMidPage(m, e, id);
  }

  lemma ColdMidPage(m: Model, e: State, id: nat)
    requires Good(m, e) && id in e.seqs && e.seqs[id].cold && !e.seqs[id].finished && e.seqs[id].prompt != []
    ensures !NeedsPrefill(e.seqs[id])
  {
    hide Inv, KV, Reference, NodeOk, Rows, PageOf, SlotOf;
    assert SeqOk(m, e.c, e.seqs[id]);
  }

  lemma ClearedNext(e: State, e': State, id: nat)
    requires id in e.seqs && e.c.bs > 0 && e'.c.bs == e.c.bs && Cleared(e, id) && e'.c.tree == e.c.tree
    requires id in e'.seqs && e'.seqs == e.seqs[id := e'.seqs[id]]
    requires e'.seqs[id].table == e.seqs[id].table && e'.seqs[id].cached == e.seqs[id].cached + 1
    requires SlotOf(e.seqs[id].cached, e.c.bs) != 0 && SlotOf(e'.seqs[id].cached, e.c.bs) != 0
    ensures Cleared(e', id)
  {
    hide PageOf, SlotOf;
    var n, bs := e.seqs[id].cached, e.c.bs;
    NextOnPage(n, bs);
    Recompose(n, bs);
    Recompose(n + 1, bs);
  }

  // ---------------------------------------------------------------- the other steps

  lemma AdmitCold(e: State, id: nat, prompt: seq<Token>, seed: nat)
    requires Balanced(e) && id !in e.seqs && ColdOk(e)
    ensures ColdOk(DoAdmit(e, id, prompt, seed))
  {
    hide Inv, Tables, PageOf, SlotOf, ReadsBelow, Lookup;
    var e' := DoAdmit(e, id, prompt, seed);
    var s' := e'.seqs[id];
    forall x | x != id && Bursting(e, x) && PageOf(e.seqs[x].cached, e.c.bs) < |e.seqs[x].table|
      ensures Spares(s', e.seqs[x].table[PageOf(e.seqs[x].cached, e.c.bs)], SlotOf(e.seqs[x].cached, e.c.bs), e.c.bs)
    {
      var b, slot := e.seqs[x].table[PageOf(e.seqs[x].cached, e.c.bs)], SlotOf(e.seqs[x].cached, e.c.bs);
      match Lookup(e.c, prompt) {
        case Miss => NothingRead(s'.table, s'.cached, b, slot, e.c.bs);
        case Hit(len, blocks, logits) =>
          AdmitHitPages(e.c, Tables(e.seqs), prompt);
          assert Cleared(e, x);
          assert ReadsBelow(e.c.tree[prompt[..len]].blocks, len, b, slot, e.c.bs);
          ReadsOld(e.c.tree[prompt[..len]].blocks, blocks, len, b, slot, e.c.bs);
      }
    }
    assert e'.c.tree == e.c.tree && e'.c.bs == e.c.bs;
    ColdFrame(e, e', id, s');
  }

  lemma AdmitHitPages(c: Cache, own: Owners, prompt: seq<Token>)
    requires Inv(c, own) && c.bs > 0 && Lookup(c, prompt).Hit?
    ensures var h := Lookup(c, prompt);
      && h.len <= |prompt| && prompt[..h.len] in c.tree && |prompt[..h.len]| == h.len
      && |h.blocks| <= |c.tree[prompt[..h.len]].blocks|
      && h.blocks == c.tree[prompt[..h.len]].blocks[..|h.blocks|]
  {
    hide TreeOk, PoolOk, ListsOk, Counted;
    HitIsNode(c, prompt);
  }

  lemma DeliverCold(m: Model, e: State, id: nat)
    requires id in e.seqs && !e.seqs[id].finished && e.seqs[id].pending.Some?
    requires ColdOk(e) && Good(m, e)
    ensures ColdOk(DoDeliver(e, id))
  {
    hide Inv, Tables, PageOf, SlotOf, ReadsBelow, Insert, KV, Reference, NodeOk, Rows;
    var s, e' := e.seqs[id], DoDeliver(e, id);
    var s' := e'.seqs[id];
    assert SeqOk(m, e.c, s);
    forall x | x != id && Bursting(e, x) && PageOf(e.seqs[x].cached, e.c.bs) < |e.seqs[x].table|
      ensures Spares(s', e.seqs[x].table[PageOf(e.seqs[x].cached, e.c.bs)], SlotOf(e.seqs[x].cached, e.c.bs), e.c.bs)
    {
      SparedBy(e, x, id);
    }
    if s.pre {
      InsertUndisturbed(e, id, e'.c);
    } else if s.cold {
      assert Cleared(e, id);
      ClearedStays(e, e', id);
    }
    ColdFrame(e, e', id, s');
  }

  lemma FinishCold(e: State, id: nat, keep: nat)
    requires Balanced(e) && id in e.seqs && ColdOk(e)
    ensures ColdOk(DoFinish(e, id, keep))
  {
    hide Inv, Tables, Cleared, Release;
    var e' := DoFinish(e, id, keep);
    ReleaseKeepsTree(e.c, e.seqs[id].table);
    ReleaseSize(e.c, e.seqs[id].table);
    ColdFrame(e, e', id, e'.seqs[id]);
  }
}
