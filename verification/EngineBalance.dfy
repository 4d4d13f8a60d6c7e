/**
 What every step of the engine keeps whatever the rows hold: balanced reference counts, the
 partition of the page ids, and appends that extend one request by one row and nobody else.
 No assumption is made about hits or bursts.
 */
module EngineBalance {
  import opened Prelude
  import opened Paging
  import opened Ledger
  import opened PagePool
  import opened Allocator
  import opened PrefixTree
  import opened Generation
  import opened Engine
  import opened EngineSafety

  /** Reference counts are owner counts, owner lists are duplicate-free, and page ids are partitioned. */
  ghost predicate Balanced(e: State) {
    Inv(e.c, Tables(e.seqs)) && e.c.bs > 0
  }

  lemma AdmitInv(e: State, id: nat, prompt: seq<Token>, seed: nat)
    requires Balanced(e) && id !in e.seqs
    ensures Balanced(DoAdmit(e, id, prompt, seed))
  {
    hide Inv, Keeps, Lookup, Tables;
    var own, k := Tables(e.seqs), Sequence(id);
    NoTemps(e.seqs);
    TablesSet(e.seqs, id, DoAdmit(e, id, prompt, seed).seqs[id]);
    match Lookup(e.c, prompt) {
      case Miss => AddIdle(e.c, own, k);
      case Hit(len, blocks, logits) => MatchOk(e.c, own, k, prompt);
    }
  }

  /** What page preparation leaves: balance, and every other list with the rows it had. */
  lemma PrepareInv(e: State, id: nat)
    requires Balanced(e) && id in e.seqs
    ensures var e' := DoPrepare(e, id);
      && Balanced(e') && e'.c.bs == e.c.bs && |e'.c.kv| == |e.c.kv|
      && (forall j :: j in e.seqs && j != id ==> SameRows(e.c, e'.c, e.seqs[j].table))
      && (forall p :: p in e'.c.tree ==>
            p in e.c.tree && e'.c.tree[p] == e.c.tree[p] && SameRows(e.c, e'.c, e.c.tree[p].blocks))
  {
    hide Inv, Keeps, Tables, Ensure, Cow, Calm, SameRows, Pages, PageOf;
    var s, own, k := e.seqs[id], Tables(e.seqs), Sequence(id);
    var total := if NeedsPrefill(s) then |s.prompt| else s.cached + 1;
    var (ok, c1, t1) := Ensure(e.c, s.table, Pages(total, e.c.bs));
    var page := PageOf(s.cached, e.c.bs);
    var e' := DoPrepare(e, id);
    TableOf(e.seqs, id);
    NoTemps(e.seqs);
    EnsureOk(e.c, own, k, Pages(total, e.c.bs));
    TablesSet(e.seqs, id, e'.seqs[id]);
    var own1 := own[k := t1];
    if ok && !NeedsPrefill(s) && page < |t1| {
      CowOk(c1, own1, k, page);
      match Cow(c1, t1[page]) {
        case Oom(c2) =>
          KeptBoth(e, id, c1, c2, t1);
        case Got(c2, ids) =>
          KeptBoth(e, id, c1, c2, t1);
          assert own1[k := Replace(t1, page, ids[0])] == own[k := Replace(t1, page, ids[0])];
      }
    } else {
      KeepsRefl(c1, own1);
      KeptBoth(e, id, c1, c1, t1);
    }
  }

  lemma KeptBoth(e: State, id: nat, c1: Cache, c2: Cache, t1: seq<nat>)
    requires id in e.seqs && Keeps(e.c, c1, Tables(e.seqs)) && Keeps(c1, c2, Tables(e.seqs)[Sequence(id) := t1])
    ensures c2.bs == e.c.bs && |c2.kv| == |e.c.kv|
    ensures forall j :: j in e.seqs && j != id ==> SameRows(e.c, c2, e.seqs[j].table)
    ensures forall p :: p in c2.tree ==>
              p in e.c.tree && c2.tree[p] == e.c.tree[p] && SameRows(e.c, c2, e.c.tree[p].blocks)
  {
    hide SameRows, Tables;
    var own := Tables(e.seqs);
    forall j | j in e.seqs && j != id
      ensures SameRows(e.c, c2, e.seqs[j].table)
    {
      TableOf(e.seqs, j);
      assert SameRows(c1, c2, own[Sequence(id) := t1][Sequence(j)]);
      RowsChain(e.c, c1, c2, e.seqs[j].table);
    }
    forall p | p in c2.tree
      ensures SameRows(e.c, c2, e.c.tree[p].blocks)
    {
      RowsChain(e.c, c1, c2, e.c.tree[p].blocks);
    }
  }

  lemma SameTableInv(e: State, id: nat, s: Seq, kv: Grid)
    requires Balanced(e) && id in e.seqs && s.table == e.seqs[id].table && |kv| == |e.c.kv| && GridOk(kv, e.c.bs)
    ensures Balanced(State(e.c.(kv := kv), e.seqs[id := s]))
  {
    hide Inv, Tables;
    TableOf(e.seqs, id);
    TablesSet(e.seqs, id, s);
    assert Tables(e.seqs)[Sequence(id) := s.table] == Tables(e.seqs);
    KvOnly(e.c, Tables(e.seqs), kv);
  }

  lemma ForwardInv(m: Model, e: State, id: nat)
    requires Balanced(e) && id in e.seqs && e.seqs[id].prompt != []
    ensures Balanced(DoForward(m, e, id))
  {
    hide Inv, Tables, Write, Flat, Extend, NextInput, Pages, SlotOf;
    var s, e' := e.seqs[id], DoForward(m, e, id);
    InvGrid(e.c, Tables(e.seqs));
    if e' != e {
      if !FromLogits(s) {
        WriteCovers(e.c, s.table, s.cached, Extend(m, Flat(e.c.kv, s.table, e.c.bs, s.cached), NextInput(s)));
      }
      SameTableInv(e, id, e'.seqs[id], e'.c.kv);
    }
  }

  lemma DeliverInv(e: State, id: nat)
    requires Balanced(e) && id in e.seqs && e.seqs[id].pending.Some?
    ensures Balanced(DoDeliver(e, id))
  {
    hide Inv, Tables, Insert;
    var s, own, e' := e.seqs[id], Tables(e.seqs), DoDeliver(e, id);
    TableOf(e.seqs, id);
    TablesSet(e.seqs, id, e'.seqs[id]);
    assert own[Sequence(id) := s.table] == own;
    NoTemps(e.seqs);
    if s.pre && s.prompt != [] {
      InsertOk(e.c, own, Sequence(id), s.prompt, s.logits);
    } else if s.pre {
      assert Insert(e.c, s.prompt, s.table, s.logits) == e.c by { InsertNothing(e.c, s.table, s.logits); }
    }
  }

  lemma InsertNothing(c: Cache, l: seq<nat>, logits: Option<Logits>)
    ensures Insert(c, [], l, logits) == c
  {
  }

  lemma FinishInv(e: State, id: nat, keep: nat)
    requires Balanced(e) && id in e.seqs
    ensures Balanced(DoFinish(e, id, keep))
  {
    hide Inv, Tables, Release, Keeps;
    var own, k, e' := Tables(e.seqs), Sequence(id), DoFinish(e, id, keep);
    TableOf(e.seqs, id);
    TablesSet(e.seqs, id, e'.seqs[id]);
    ReleaseOwner(e.c, own, k);
    AddIdle(e'.c, own - {k}, k);
    assert (own - {k})[k := []] == own[k := []];
    ReleaseSize(e.c, e.seqs[id].table);
  }

  /** Every step, safe or not, keeps the balance. */
  lemma ApplyInv(m: Model, e: State, step: Step)
    requires Balanced(e)
    ensures Balanced(Apply(m, e, step))
  {
    hide Balanced, DoAdmit, DoPrepare, DoForward, DoDeliver, DoFinish;
    if Enabled(e, step) && e.c.bs > 0 {
      match step {
        case Admit(id, prompt, seed) => AdmitInv(e, id, prompt, seed);
        case Prepare(id) => PrepareInv(e, id);
        case Burst(id) =>
          PrepareInv(e, id);
          BurstInv(e, id);
        case Forward(id) => if e.seqs[id].prompt != [] { ForwardInv(m, e, id); }
        case Deliver(id) => DeliverInv(e, id);
        case Finish(id, keep) => FinishInv(e, id, keep);
        case Lose(id, k) => LoseInv(e, id, k);
      }
    }
  }

  lemma LoseInv(e: State, id: nat, k: nat)
    requires Balanced(e) && id in e.seqs
    ensures Balanced(DoLose(e, id, k))
  {
    hide Inv, Tables;
    InvGrid(e.c, Tables(e.seqs));
    SameTableInv(e, id, DoLose(e, id, k).seqs[id], e.c.kv);
  }

  lemma BurstInv(e: State, id: nat)
    requires Balanced(e) && id in e.seqs && Balanced(DoPrepare(e, id))
    ensures Balanced(DoBurst(e, id))
  {
    hide Inv, Tables, DoPrepare, SlotOf;
    InvGrid(e.c, Tables(e.seqs));
    SameTableInv(e, id, e.seqs[id].(ready := true, cold := e.seqs[id].cold || !e.seqs[id].warm), e.c.kv);
  }

  /** A new engine: no page issued, an empty tree, no request. */
  ghost predicate Fresh(e: State) {
    && e.c.bs > 0 && GridOk(e.c.kv, e.c.bs) && |e.c.kv| >= 1
    && e.c.alloc == map[] && e.c.free == [] && e.c.next == 0
    && e.c.tree == map[[] := Node(0, [], None)] && e.c.order == [[]]
    && e.seqs == map[]
  }

  lemma FreshBalanced(e: State)
    requires Fresh(e)
    ensures Balanced(e)
  {
    assert Tables(e.seqs) == map[];
  }

  /** Balance over every run from a new engine, with any hits and any bursts. */
  lemma {:induction false} RunInv(m: Model, e: State, steps: seq<Step>)
    requires Fresh(e)
    ensures Balanced(Run(m, e, steps))
    decreases |steps|
  {
    hide Balanced, Apply, Fresh;
    if steps == [] {
      FreshBalanced(e);
    } else {
      var n := |steps| - 1;
      RunInv(m, e, steps[..n]);
      ApplyInv(m, Run(m, e, steps[..n]), steps[n]);
    }
  }

  /** A finished request holds no pages. */
  ghost predicate FinishedHoldNothing(e: State) {
    forall id :: id in e.seqs && e.seqs[id].finished ==> e.seqs[id].table == []
  }

  lemma ApplyFinished(m: Model, e: State, step: Step)
    requires FinishedHoldNothing(e)
    ensures FinishedHoldNothing(Apply(m, e, step))
  {
    hide Ensure, Cow, Insert, Write, Flat, Extend, Covers, Release, Lookup, PageOf, SlotOf, Pages;
  }

  lemma {:induction false} RunFinished(m: Model, e: State, steps: seq<Step>)
    requires Fresh(e)
    ensures FinishedHoldNothing(Run(m, e, steps))
    decreases |steps|
  {
    hide Apply;
    if steps != [] {
      RunFinished(m, e, steps[..|steps| - 1]);
      ApplyFinished(m, Run(m, e, steps[..|steps| - 1]), steps[|steps| - 1]);
    }
  }

  /**
   In every reachable state a reference count is the number of owners that list the page, no
   owned page is free, free, allocated and never-issued ids partition the pool, and a finished
   request holds no pages.
   */
  lemma CountsAreOwners(m: Model, e: State, steps: seq<Step>, b: nat)
    requires Fresh(e)
    ensures var e' := Run(m, e, steps);
      && (b in e'.c.alloc ==> e'.c.alloc[b] == OwnerCount(e'.c, Tables(e'.seqs), b))
      && (b in e'.c.free ==> b !in e'.c.alloc && OwnerCount(e'.c, Tables(e'.seqs), b) == 0)
      && (b < |e'.c.kv| ==> One(b in e'.c.alloc) + One(b in e'.c.free) + One(b >= e'.c.next) == 1)
      && (forall id :: id in e'.seqs ==> NoDup(e'.seqs[id].table))
      && (forall id :: id in e'.seqs && e'.seqs[id].finished ==> e'.seqs[id].table == [])
  {
    hide Run, Fresh, TreeOk;
    RunInv(m, e, steps);
    RunFinished(m, e, steps);
    var e' := Run(m, e, steps);
    if b !in e'.c.alloc {
      Unlisted(e'.c, Tables(e'.seqs), b);
    }
    forall id | id in e'.seqs
      ensures NoDup(e'.seqs[id].table)
    {
      TableOf(e'.seqs, id);
      OwnedTableOk(e'.c, Tables(e'.seqs), Sequence(id));
    }
  }

  // ---------------------------------------------------------------- appends

  /** Live request `id` reads exactly `rows`. */
  ghost predicate Reads(e: State, id: nat, rows: seq<Row>) {
    && id in e.seqs && !e.seqs[id].finished
    && Covers(e.c.kv, e.seqs[id].table, e.c.bs, e.seqs[id].cached)
    && rows == Flat(e.c.kv, e.seqs[id].table, e.c.bs, e.seqs[id].cached)
  }

  /** Tree node `p` lists pages that hold exactly `rows`. */
  ghost predicate Holds(e: State, p: Path, rows: seq<Row>) {
    && p in e.c.tree && e.c.tree[p].blocks != []
    && Covers(e.c.kv, e.c.tree[p].blocks, e.c.bs, |p|)
    && rows == Flat(e.c.kv, e.c.tree[p].blocks, e.c.bs, |p|)
  }

  /** A request in its decode phase. */
  ghost predicate Decoding(e: State, id: nat) {
    && id in e.seqs && !e.seqs[id].finished && e.seqs[id].pending.None?
    && e.seqs[id].prompt != [] && e.seqs[id].output != [] && !NeedsPrefill(e.seqs[id])
  }

  /** A prepared decode: its next page is private, and it still reads its rows. */
  lemma PreparedDecode(e: State, id: nat, past: seq<Row>)
    requires Balanced(e) && Decoding(e, id) && Reads(e, id, past) && DoPrepare(e, id).seqs[id].ready
    ensures var e1 := DoPrepare(e, id); var s1 := e1.seqs[id];
      && s1 == e.seqs[id].(table := s1.table, ready := true, cold := s1.cold)
      && e1.c.bs == e.c.bs && WritesPrivate(e1.c, s1, s1.cached + 1)
      && Covers(e1.c.kv, s1.table, e1.c.bs, s1.cached + 1)
      && Reads(e1, id, past)
  {
    hide Inv, Tables, Ensure, Cow, Calm, Flat, SlotOf;
    var s, own, k, bs := e.seqs[id], Tables(e.seqs), Sequence(id), e.c.bs;
    var (ok, c1, t1) := Ensure(e.c, s.table, Pages(s.cached + 1, bs));
    var page := PageOf(s.cached, bs);
    TableOf(e.seqs, id);
    NoTemps(e.seqs);
    EnsureOk(e.c, own, k, Pages(s.cached + 1, bs));
    PageInRange(s.cached, s.cached + 1, bs);
    CowOk(c1, own[k := t1], k, page);
    var r := Cow(c1, t1[page]);
    var t2 := Replace(t1, page, r.ids[0]);
    PrepareInv(e, id);
    OwnedTableOk(r.c, own[k := t1][k := t2], k);
    InvGrid(r.c, own[k := t1][k := t2]);
    forall i | 0 <= i < Pages(s.cached, bs)
      ensures r.c.kv[t2[i]] == e.c.kv[s.table[i]]
    {
      PreparedRow(e.c, c1, r.c, own, k, t1, page, r.ids[0], i);
    }
    PagesMono(s.cached, s.cached + 1, bs);
    FlatAgree(r.c.kv, e.c.kv, t2, s.table, bs, s.cached);
  }

  lemma PreparedRow(c: Cache, c1: Cache, c2: Cache, own: Owners, k: Owner, t1: seq<nat>, page: nat, n: nat, i: nat)
    requires k in own && i < |own[k]| <= |t1| && own[k] == t1[..|own[k]|] && page < |t1|
    requires Keeps(c, c1, own) && Keeps(c1, c2, own[k := t1])
    requires n < |c2.kv| && t1[page] < |c1.kv| && c2.kv[n] == c1.kv[t1[page]]
    ensures var t2 := Replace(t1, page, n);
      own[k][i] < |c.kv| && t2[i] < |c2.kv| && c2.kv[t2[i]] == c.kv[own[k][i]]
  {
    assert own[k][i] in own[k] && t1[i] == own[k][i] && t1[i] in t1;
    assert SameRows(c, c1, own[k]);
    assert SameRows(c1, c2, own[k := t1][k]);
  }

  /**
   A decode append (grow the table, copy on write, write at the cached length) extends that
   request's rows by exactly one.  Every other live request, and every surviving node that kept
   its place in the tree, still reads the rows it read before, whatever they are.
   */
  lemma DecodeAppendsOneRow(m: Model, e: State, id: nat, past: seq<Row>, j: nat, other: seq<Row>, p: Path,
                            kept: seq<Row>)
    requires Balanced(e) && Decoding(e, id) && Reads(e, id, past)
    requires DoPrepare(e, id).seqs[id].ready
    ensures var e2 := Apply(m, Apply(m, e, Prepare(id)), Forward(id));
      var s := e.seqs[id];
      && Reads(e2, id, past + [m.step(past, s.output[|s.output| - 1])])
      && (j != id && Reads(e, j, other) ==> Reads(e2, j, other))
      && (Holds(e, p, kept) && p in e2.c.tree ==> Holds(e2, p, kept))
  {
    hide Inv, Tables, DoPrepare, Write, Flat, WritesPrivate, Pages, Reads, Holds;
    var s, e1 := e.seqs[id], DoPrepare(e, id);
    PrepareInv(e, id);
    PreparedDecode(e, id, past);
    PrepareFrame(e, id);
    var s1 := e1.seqs[id];
    var row := m.step(past, s.output[|s.output| - 1]);
    AppendForward(m, e1, id, past);
    var e2 := DoForward(m, e1, id);
    assert Apply(m, e, Prepare(id)) == e1 && Apply(m, e1, Forward(id)) == e2;
    if j != id && Reads(e, j, other) {
      ReadsIs(e, j, other);
      ReadsOthers(e, e1, e2, id, row, j, other);
    }
    if Holds(e, p, kept) && p in e2.c.tree {
      HoldsOthers(e, e1, e2, id, row, p, kept);
    }
  }

  lemma PrepareFrame(e: State, id: nat)
    requires id in e.seqs && e.c.bs > 0
    ensures var e1 := DoPrepare(e, id);
      e1.seqs.Keys == e.seqs.Keys && forall j :: j in e.seqs && j != id ==> e1.seqs[j] == e.seqs[j]
  {
  }

  lemma ReadsIs(e: State, id: nat, rows: seq<Row>)
    requires Reads(e, id, rows)
    ensures id in e.seqs && !e.seqs[id].finished
  {
  }

  /** The forward of a prepared decode writes one row after the rows it reads. */
  lemma AppendForward(m: Model, e: State, id: nat, past: seq<Row>)
    requires Balanced(e) && Decoding(e, id) && e.seqs[id].ready && Reads(e, id, past)
    requires Covers(e.c.kv, e.seqs[id].table, e.c.bs, e.seqs[id].cached + 1)
    ensures var e' := DoForward(m, e, id); var s := e.seqs[id];
      var row := m.step(past, s.output[|s.output| - 1]);
      && WrittenBy(e.c, s, [row], e'.c)
      && e'.seqs.Keys == e.seqs.Keys && (forall j :: j in e.seqs && j != id ==> e'.seqs[j] == e.seqs[j])
      && Reads(e', id, past + [row])
  {
    hide Inv, Tables, Write, Flat, Pages, SlotOf;
    var s := e.seqs[id];
    var tok := s.output[|s.output| - 1];
    var rows := Extend(m, past, [tok]);
    OneRow(m, past, tok);
    TableOf(e.seqs, id);
    OwnedTableOk(e.c, Tables(e.seqs), Sequence(id));
    WriteThenRead(e.c.kv, s.table, e.c.bs, s.cached, rows, s.cached + 1);
    FlatPrefix(e.c.kv, s.table, e.c.bs, s.cached + 1, s.cached);
    WriteCovers(e.c, s.table, s.cached, rows);
    var was := Flat(e.c.kv, s.table, e.c.bs, s.cached + 1);
    assert was[..s.cached] + rows + was[s.cached + 1..] == past + rows;
  }

  lemma OneRow(m: Model, past: seq<Row>, tok: Token)
    ensures Extend(m, past, [tok]) == [m.step(past, tok)]
  {
    assert [tok][..0] == [];
    assert Extend(m, past, []) == [] && past + [] == past;
  }

  lemma ReadsOthers(e: State, e1: State, e2: State, id: nat, row: Row, j: nat, other: seq<Row>)
    requires id in e1.seqs && j in e.seqs && j != id && j in e1.seqs && j in e2.seqs
    requires e1.seqs[j] == e.seqs[j] == e2.seqs[j] && e1.c.bs == e.c.bs && SameRows(e.c, e1.c, e.seqs[j].table)
    requires WrittenBy(e1.c, e1.seqs[id], [row], e2.c) && e1.c.bs > 0
    requires WritesPrivate(e1.c, e1.seqs[id], e1.seqs[id].cached + 1)
    requires |e1.c.kv| == |e.c.kv|
    requires Reads(e, j, other) && Balanced(e1)
    ensures Reads(e2, j, other)
  {
    hide Inv, Tables, Write, Flat, Pages, WritesPrivate, WrittenBy, SameRows;
    TableOf(e1.seqs, id);
    TableOf(e1.seqs, j);
    InvGrid(e1.c, Tables(e1.seqs));
    RowsReadsKept(e.c, e1.c, e.seqs[j].table, e.seqs[j].cached);
    OthersKept(e1.c, Tables(e1.seqs), Sequence(id), e1.seqs[id], [row], e.seqs[j].table, Sequence(j), [],
               e.seqs[j].cached, e2.c);
    WrittenSize(e1.c, e1.seqs[id], [row], e2.c);
  }

  lemma HoldsOthers(e: State, e1: State, e2: State, id: nat, row: Row, p: Path, kept: seq<Row>)
    requires id in e1.seqs && p in e.c.tree && p in e1.c.tree && e1.c.tree[p] == e.c.tree[p]
    requires e1.c.bs == e.c.bs && SameRows(e.c, e1.c, e.c.tree[p].blocks)
    requires WrittenBy(e1.c, e1.seqs[id], [row], e2.c) && e1.c.bs > 0
    requires WritesPrivate(e1.c, e1.seqs[id], e1.seqs[id].cached + 1)
    requires |e1.c.kv| == |e.c.kv|
    requires Holds(e, p, kept) && Balanced(e1)
    ensures Holds(e2, p, kept)
  {
    hide Inv, Tables, Write, Flat, Pages, WritesPrivate, WrittenBy, SameRows;
    TableOf(e1.seqs, id);
    InvGrid(e1.c, Tables(e1.seqs));
    RowsReadsKept(e.c, e1.c, e.c.tree[p].blocks, |p|);
    OthersKept(e1.c, Tables(e1.seqs), Sequence(id), e1.seqs[id], [row], e.c.tree[p].blocks, Sequence(id), p, |p|, e2.c);
    WrittenSize(e1.c, e1.seqs[id], [row], e2.c);
  }
}
