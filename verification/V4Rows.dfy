/**
 Runs of the hybrid prefix store: saves, hits, appends and releases over shared page tables.
 Each owner of a table has rows promised to it when its pages were written; no later append
 through any sharing table may change them, so a restore on a hit writes back what was saved.
 */
module V4Rows {
  import opened Prelude
  import opened Paging
  import opened Ledger
  import opened PagePool
  import opened Allocator
  import opened V4Prefix

  type Promises = map<Owner, seq<Row>>

  // ---------------------------------------------------------------- promises on a ledger

  /** The table starts with the promised rows. */
  ghost predicate Front(c: Cache, l: seq<nat>, rows: seq<Row>) {
    Covers(c.kv, l, c.bs, |rows|) && Flat(c.kv, l, c.bs, |rows|) == rows
  }

  ghost predicate Fronts(c: Cache, own: Owners, kept: Promises) {
    kept.Keys == own.Keys && forall o :: o in own ==> Front(c, own[o], kept[o])
  }

  /** A page shared by two tables sits at the same place in both, and both hold the same promise. */
  ghost predicate Related(l: seq<nat>, rows: seq<Row>, m: seq<nat>, rows': seq<Row>) {
    forall i, j :: 0 <= i < |l| && 0 <= j < |m| && l[i] == m[j] ==> i == j && rows == rows'
  }

  ghost predicate Families(own: Owners, kept: Promises) {
    kept.Keys == own.Keys && forall o, p :: o in own && p in own ==> Related(own[o], kept[o], own[p], kept[p])
  }

  lemma FrontKept(c: Cache, c': Cache, l: seq<nat>, rows: seq<Row>)
    requires Front(c, l, rows) && SameRows(c, c', l) && GridOk(c'.kv, c'.bs) && c'.bs == c.bs && |c'.kv| == |c.kv|
    ensures Front(c', l, rows)
  {
    forall k | 0 <= k < Pages(|rows|, c.bs)
      ensures c'.kv[l[k]] == c.kv[l[k]]
    {
      assert l[k] in l;
    }
    FlatAgree(c.kv, c'.kv, l, l, c.bs, |rows|);
  }

  /** Owners that keep their lists and pages keep their promises. */
  lemma FrontsKept(c: Cache, c': Cache, own: Owners, kept: Promises, own': Owners, kept': Promises)
    requires Fronts(c, own, kept) && Keeps(c, c', own') && Shape(c') && kept'.Keys == own'.Keys
    requires forall o :: o in own' ==> o in own && own'[o] == own[o] && kept'[o] == kept[o]
    ensures Fronts(c', own', kept')
  {
    hide PoolOk, TreeOk, Front;
    forall o | o in own'
      ensures Front(c', own'[o], kept'[o])
    {
      FrontKept(c, c', own[o], kept[o]);
    }
  }

  lemma FamiliesLess(own: Owners, kept: Promises, own': Owners, kept': Promises)
    requires Families(own, kept) && kept'.Keys == own'.Keys
    requires forall o :: o in own' ==> o in own && own'[o] == own[o] && kept'[o] == kept[o]
    ensures Families(own', kept')
  {
    hide Related;
  }

  /** A table that starts with an existing table and goes on with private pages. */
  lemma RelatedGrown(own: Owners, kept: Promises, k: Owner, ids: seq<nat>, rows: seq<Row>, o: Owner)
    requires Families(own, kept) && o in own && NoDup(own[o])
    requires k in own ==> rows == kept[k]
    requires forall b :: b in ids ==> b !in own[o]
    ensures var l := (if k in own then own[k] else []) + ids;
      Related(own[o], kept[o], l, rows) && Related(l, rows, own[o], kept[o])
  {
    var l := (if k in own then own[k] else []) + ids;
    var d := |l| - |ids|;
    assert forall j :: d <= j < |l| ==> l[j] in ids;
    assert k in own ==> Related(own[o], kept[o], own[k], kept[k]);
    forall i, j | 0 <= i < |own[o]| && 0 <= j < |l| && own[o][i] == l[j]
      ensures i == j && rows == kept[o]
    {
    }
  }

  lemma RelatedSelf(l: seq<nat>, rows: seq<Row>)
    requires NoDup(l)
    ensures Related(l, rows, l, rows)
  {
  }

  lemma FamiliesGrown(c: Cache, own: Owners, kept: Promises, k: Owner, ids: seq<nat>, rows: seq<Row>)
    requires Families(own, kept) && ListsOk(c, own) && NoDup((if k in own then own[k] else []) + ids)
    requires k in own ==> rows == kept[k]
    requires forall o, b :: o in own && o != k && b in ids ==> b !in own[o]
    ensures Families(own[k := (if k in own then own[k] else []) + ids], kept[k := rows])
  {
    hide Related;
    var l := (if k in own then own[k] else []) + ids;
    RelatedSelf(l, rows);
    forall o | o in own && o != k
      ensures Related(own[o], kept[o], l, rows) && Related(l, rows, own[o], kept[o])
    {
      assert ListOk(c, own[o]);
      RelatedGrown(own, kept, k, ids, rows, o);
    }
  }

  lemma FamiliesShared(own: Owners, kept: Promises, k: Owner, j: Owner)
    requires Families(own, kept) && j in own
    ensures Families(own[k := own[j]], kept[k := kept[j]])
  {
    hide Related;
  }

  /** Rows written beyond the promise of their own table spare the promises of every table. */
  lemma AppendSpares(c: Cache, own: Owners, kept: Promises, k: Owner, pos: nat, src: seq<Row>)
    requires Fronts(c, own, kept) && Families(own, kept) && k in own
    requires Covers(c.kv, own[k], c.bs, pos + |src|) && |kept[k]| <= pos
    ensures Fronts(c.(kv := Write(c.kv, own[k], c.bs, pos, src)), own, kept)
  {
    hide Front, Related;
    var c' := c.(kv := Write(c.kv, own[k], c.bs, pos, src));
    forall o | o in own
      ensures Front(c', own[o], kept[o])
    {
      assert Related(own[o], kept[o], own[k], kept[k]);
      AppendSparesOne(c, own[k], kept[k], pos, src, own[o], kept[o]);
    }
  }

  lemma AppendSparesOne(c: Cache, l: seq<nat>, mine: seq<Row>, pos: nat, src: seq<Row>, m: seq<nat>, rows: seq<Row>)
    requires Front(c, m, rows) && Related(m, rows, l, mine) && |mine| <= pos
    requires Covers(c.kv, l, c.bs, pos + |src|)
    ensures Front(c.(kv := Write(c.kv, l, c.bs, pos, src)), m, rows)
  {
    hide Write, PageOf, SlotOf, Pages;
    var kv' := Write(c.kv, l, c.bs, pos, src);
    forall i | 0 <= i < |rows|
      ensures Flat(kv', m, c.bs, |rows|)[i] == rows[i]
    {
      PagesMono(i + 1, |rows|, c.bs);
      PageInRange(i, i + 1, c.bs);
      OtherCell(l, mine, m, rows, c.bs, pos, |src|, i);
      WriteOtherCells(c.kv, l, c.bs, pos, src, m[PageOf(i, c.bs)], SlotOf(i, c.bs));
    }
  }

  lemma OtherCell(l: seq<nat>, mine: seq<Row>, m: seq<nat>, rows: seq<Row>, bs: nat, pos: nat, n: nat, i: nat)
    requires bs > 0 && i < |rows| && PageOf(i, bs) < |m| && Related(m, rows, l, mine) && |mine| <= pos
    ensures forall j :: pos <= j < pos + n && PageOf(j, bs) < |l| ==>
              l[PageOf(j, bs)] != m[PageOf(i, bs)] || SlotOf(j, bs) != SlotOf(i, bs)
  {
    hide PageOf, SlotOf;
    forall j | pos <= j < pos + n && PageOf(j, bs) < |l| && l[PageOf(j, bs)] == m[PageOf(i, bs)]
      ensures SlotOf(j, bs) != SlotOf(i, bs)
    {
      Recompose(j, bs);
      Recompose(i, bs);
    }
  }

  // ---------------------------------------------------------------- state and steps

  /** `kept` records, per entry and handle, the rows its pages held when they were saved. */
  datatype State = State(s: Store, handles: Handles, kept: Promises)

  datatype Step =
    | Save(id: nat, key: Path, rows: seq<Row>, logits: Option<Logits>,
           full: map<nat, Row>, slim: map<nat, Row>, primary: bool)
    | Hit(id: nat, tokens: Path)
    | Extend(id: nat, pos: nat, row: Row)
    | Drop(id: nat)
    | Flush

  ghost function OwningIn(st: State): Owners {
    Owning(st.s.entries, st.handles)
  }

  /** Promises of the owners that remain. */
  ghost function Remaining(entries: seq<V4Entry>, handles: Handles, kept: Promises): Promises {
    map o | o in Owning(entries, handles) && o in kept :: kept[o]
  }

  /** First write of the pages of a prompt: fresh pages, then the rows the model gave. */
  ghost function SavedCache(c: Cache, ids: seq<nat>, rows: seq<Row>): Cache {
    if Covers(c.kv, ids, c.bs, |rows|) then c.(kv := Write(c.kv, ids, c.bs, 0, rows)) else c
  }

  ghost function RowsOf(c: Cache, l: seq<nat>, n: nat): seq<Row> {
    if Covers(c.kv, l, c.bs, n) then Flat(c.kv, l, c.bs, n) else []
  }

  /** Pages could not be had: the prompt is stored with its full snapshot only. */
  ghost function SavePlain(st: State, step: Step, c: Cache): State
    requires step.Save?
  {
    var e := V4Entry(step.key, step.logits, step.full, [], [], 0, false);
    var s := Insert(st.s.(c := c), e);
    State(s, st.handles, Remaining(s.entries, st.handles, st.kept[Entry(step.key) := []]))
  }

  ghost function SavePages(st: State, step: Step, c: Cache, ids: seq<nat>): State
    requires step.Save?
  {
    var n := |step.key|;
    var c1 := SavedCache(c, ids, step.rows);
    var hs := st.handles[step.id := DualHandle(ids, ids, n)];
    var e := V4Entry(step.key, step.logits, if step.primary then step.slim else step.full, ids, ids, n, step.primary);
    var s := Insert(st.s.(c := c1), e);
    var saved := RowsOf(c1, ids, n);
    State(s, hs, Remaining(s.entries, hs, st.kept[Handle(step.id) := saved][Entry(step.key) := saved]))
  }

  /** The handle's table is grown to cover `n` positions, or the pool is exhausted. */
  ghost function Grow(c: Cache, l: seq<nat>, n: nat): Outcome
    requires c.bs > 0
  {
    if Pages(n, c.bs) <= |l| then Got(c, l)
    else match AllocBlocks(c, Pages(n, c.bs) - |l|)
      case Oom(c1) => Oom(c1)
      case Got(c1, ids) => Got(c1, l + ids)
  }

  /**
   ensure_dual_pool_capacity: equal tables grow together; a separate second table gets pages of
   its own, after the first one has grown.
   */
  ghost function GrowTables(c: Cache, h: DualHandle, n: nat): (bool, Cache, DualHandle)
    requires c.bs > 0
  {
    var need := Pages(n, c.bs);
    if need <= |h.swa| then (true, c, h)
    else match AllocBlocks(c, need - |h.swa|)
      case Oom(c1) => (false, c1, h)
      case Got(c1, ids) =>
        var swa := h.swa + ids;
        if !Distinct(h.swa, h.comp) then (true, c1, DualHandle(swa, swa, h.n))
        else if |h.comp| >= need then (true, c1, DualHandle(swa, h.comp, h.n))
        else match AllocBlocks(c1, need - |h.comp|)
          case Oom(c2) => (false, c2, DualHandle(swa, h.comp, h.n))
          case Got(c2, more) => (true, c2, DualHandle(swa, h.comp + more, h.n))
  }

  /** For equal tables the growth of both is the growth of one. */
  lemma TwinsGrow(c: Cache, h: DualHandle, n: nat)
    requires c.bs > 0 && h.comp == h.swa
    ensures GrowTables(c, h, n) == match Grow(c, h.swa, n)
      case Oom(c1) => (false, c1, h)
      case Got(c1, l) => (true, c1, DualHandle(l, l, h.n))
  {
    hide AllocBlocks, Pages;
  }

  /** Appends one row through a handle, after growing its table; nothing is copied on write. */
  ghost function AppendRow(c: Cache, h: DualHandle, pos: nat, row: Row): (Cache, DualHandle)
    requires c.bs > 0
  {
    match Grow(c, h.swa, pos + 1)
    case Oom(c1) => (c1, h)
    case Got(c1, l) =>
      if !Covers(c1.kv, l, c1.bs, pos + 1) then (c1, DualHandle(l, l, h.n))
      else (c1.(kv := Write(c1.kv, l, c1.bs, pos, [row])), DualHandle(l, l, if h.n > pos then h.n else pos + 1))
  }

  ghost function ExtendTo(st: State, id: nat, pos: nat, row: Row): State
    requires id in st.handles && st.s.c.bs > 0
  {
    var (c, h) := AppendRow(st.s.c, st.handles[id], pos, row);
    st.(s := st.s.(c := c), handles := st.handles[id := h])
  }

  ghost function Apply(st: State, step: Step): State {
    match step
    case Save(id, key, rows, _, full, slim, primary) =>
      if id in st.handles || key == [] || full == map[] || |rows| > |key| || st.s.c.bs == 0 then st
      else (match AllocBlocks(st.s.c, Pages(|key|, st.s.c.bs))
        case Oom(c) => SavePlain(st, step, c)
        case Got(c, ids) => SavePages(st, step, c, ids))
    case Hit(id, tokens) =>
      if id in st.handles then st
      else (match Best(st.s.entries, tokens)
        case None => st
        case Some(e) =>
          var (c, h) := ForkForHit(st.s.c, e);
          if h.None? || Entry(e.key) !in st.kept then st
          else State(st.s.(c := c), st.handles[id := h.value], st.kept[Handle(id) := st.kept[Entry(e.key)]]))
    case Extend(id, pos, row) =>
      if id !in st.handles || st.s.c.bs == 0 then st else ExtendTo(st, id, pos, row)
    case Drop(id) =>
      if id !in st.handles then st
      else State(st.s.(c := ReleaseHandle(st.s.c, st.handles[id])), st.handles - {id}, st.kept - {Handle(id)})
    case Flush =>
      var s := Clear(st.s);
      State(s, st.handles, Remaining(s.entries, st.handles, st.kept))
  }

  /** Appends go at or beyond the position a handle has reached, as decoding does. */
  ghost predicate Safe(st: State, step: Step) {
    step.Extend? && step.id in st.handles ==> step.pos >= st.handles[step.id].n
  }

  // ---------------------------------------------------------------- invariant

  ghost predicate Levels(st: State) {
    && (forall id :: id in st.handles && Handle(id) in st.kept ==> |st.kept[Handle(id)]| <= st.handles[id].n)
    && (forall e :: e in st.s.entries && Entry(e.key) in st.kept ==> |st.kept[Entry(e.key)]| == e.tokens)
    && (forall e :: e in st.s.entries && e.swa != [] ==> e.tokens > 0)
  }

  ghost predicate Sound(st: State) {
    && Good(st.s, st.handles)
    && Fronts(st.s.c, OwningIn(st), st.kept)
    && Families(OwningIn(st), st.kept)
    && Levels(st)
  }

  lemma RemainingIs(entries: seq<V4Entry>, handles: Handles, kept: Promises)
    requires forall o :: o in Owning(entries, handles) ==> o in kept
    ensures Remaining(entries, handles, kept).Keys == Owning(entries, handles).Keys
  {
  }

  lemma FlushOk(st: State)
    requires Sound(st)
    ensures Sound(Apply(st, Flush))
  {
    hide Inv, Shape, Keeps, Owning, Fronts, Families, Twins, Held;
    var own, own' := OwningIn(st), Owning([], st.handles);
    ClearOk(st.s, st.handles);
    OwningTail(st.s.entries, [], st.handles);
    assert own.Keys == st.kept.Keys by { KeptKeys(st); }
    RemainingIs([], st.handles, st.kept);
    var st' := Apply(st, Flush);
    GoodShape(st'.s, st.handles);
    FrontsKept(st.s.c, st'.s.c, own, st.kept, own', st'.kept);
    FamiliesLess(own, st.kept, own', st'.kept);
  }

  lemma KeptKeys(st: State)
    requires Fronts(st.s.c, OwningIn(st), st.kept)
    ensures OwningIn(st).Keys == st.kept.Keys
  {
  }

  lemma GoodShape(s: Store, handles: Handles)
    requires Good(s, handles)
    ensures Shape(s.c) && ListsOk(s.c, Owning(s.entries, handles)) && s.c.bs > 0
  {
  }

  lemma DropOk(st: State, id: nat)
    requires Sound(st) && id in st.handles
    ensures Sound(Apply(st, Drop(id)))
  {
    hide Inv, Shape, Keeps, Owning, Fronts, Families, Twins, Held, ReleaseHandle;
    var own, st' := OwningIn(st), Apply(st, Drop(id));
    ReleaseHandleOk(st.s, st.handles, id);
    OwningLess(st.s.entries, st.handles, id);
    KeptKeys(st);
    GoodShape(st'.s, st'.handles);
    FrontsKept(st.s.c, st'.s.c, own, st.kept, own - {Handle(id)}, st'.kept);
    FamiliesLess(own, st.kept, own - {Handle(id)}, st'.kept);
  }

  lemma HitStepOk(st: State, id: nat, tokens: Path)
    requires Sound(st)
    ensures Sound(Apply(st, Hit(id, tokens)))
  {
    hide Inv, Shape, Keeps, Owning, Fronts, Families, Twins, Held, ForkForHit;
    var st' := Apply(st, Hit(id, tokens));
    if st' != st {
      var e := Best(st.s.entries, tokens).value;
      var i :| 0 <= i < |st.s.entries| && st.s.entries[i] == e;
      var own := OwningIn(st);
      HitHandle(st.s.c, e);
      HitOk(st.s, st.handles, i, id);
      EntryList(st.s.entries, st.handles, i);
      OwningHandle(st.s.entries, st.handles, id, ForkForHit(st.s.c, e).1.value);
      GoodShape(st'.s, st'.handles);
      KeptKeys(st);
      FrontsShared(st.s.c, own, st.kept, Handle(id), Entry(e.key));
      var own', kept' := own[Handle(id) := own[Entry(e.key)]], st.kept[Handle(id) := st.kept[Entry(e.key)]];
      FrontsKept(st.s.c, st'.s.c, own', kept', own', kept');
      FamiliesShared(own, st.kept, Handle(id), Entry(e.key));
    }
  }

  lemma HitHandle(c: Cache, e: V4Entry)
    ensures ForkForHit(c, e).1.Some? <==> e.swa != []
    ensures e.swa != [] && e.tokens > 0 ==> ForkForHit(c, e).1.value.n == e.tokens
  {
  }

  lemma FrontsShared(c: Cache, own: Owners, kept: Promises, k: Owner, j: Owner)
    requires Fronts(c, own, kept) && j in own
    ensures Fronts(c, own[k := own[j]], kept[k := kept[j]])
  {
  }

  // ---------------------------------------------------------------- appends

  /** Writing rows keeps every owner's list and every reference. */
  lemma WriteInv(c: Cache, own: Owners, l: seq<nat>, start: nat, src: seq<Row>)
    requires Inv(c, own) && Covers(c.kv, l, c.bs, start + |src|)
    ensures Inv(c.(kv := Write(c.kv, l, c.bs, start, src)), own)
  {
    hide PoolOk, TreeOk, ListOk;
    var c' := c.(kv := Write(c.kv, l, c.bs, start, src));
    assert ListsOk(c', own) by { SameLists(c, c', own); }
    assert forall b :: OwnerCount(c', own, b) == OwnerCount(c, own, b);
  }

  lemma SameLists(c: Cache, c': Cache, own: Owners)
    requires ListsOk(c, own) && c'.alloc == c.alloc && c'.tree == c.tree
    ensures ListsOk(c', own)
  {
    forall k | k in own
      ensures ListOk(c', own[k])
    {
      assert ListOk(c, own[k]);
    }
    forall p | p in c.tree
      ensures ListOk(c', c.tree[p].blocks)
    {
      assert ListOk(c, c.tree[p].blocks);
    }
  }

  /** In-flight pages are on nobody else's list. */
  lemma PrivateToFlight(c: Cache, own: Owners, ids: seq<nat>)
    requires InFlight !in own && ListsOk(c, own[InFlight := ids]) && Counted(c, own[InFlight := ids]) && Private(c, ids)
    ensures forall o, b :: o in own && b in ids ==> b !in own[o]
    ensures NoDup(ids)
  {
    hide ListOk, NoDup;
    var own1 := own[InFlight := ids];
    forall o, b | o in own && b in ids
      ensures b !in own[o]
    {
      SoleOwner(c, own1, InFlight, b);
      assert own1[o] == own[o];
    }
    assert ListOk(c, own1[InFlight]);
    FlightList(c, own1);
  }

  lemma FlightList(c: Cache, own: Owners)
    requires InFlight in own && ListOk(c, own[InFlight])
    ensures NoDup(own[InFlight])
  {
  }

  lemma FrontLonger(c: Cache, l: seq<nat>, ids: seq<nat>, rows: seq<Row>)
    requires Front(c, l, rows) && Covers(c.kv, l + ids, c.bs, |rows|)
    ensures Front(c, l + ids, rows)
  {
    FlatAgree(c.kv, c.kv, l, l + ids, c.bs, |rows|);
  }

  /** Growing a table: new private pages at its end, all promises kept. */
  lemma GrowOk(c: Cache, own: Owners, kept: Promises, k: Owner, n: nat)
    requires Inv(c, own) && Held(c) && Fronts(c, own, kept) && Families(own, kept)
    requires k in own && InFlight !in own && Victim !in own && c.bs > 0
    ensures match Grow(c, own[k], n)
      case Got(c', l) =>
        && Inv(c', own[k := l]) && Held(c') && Fronts(c', own[k := l], kept) && Families(own[k := l], kept)
        && Covers(c'.kv, l, c'.bs, n) && c'.bs == c.bs
      case Oom(c') => Inv(c', own) && Held(c') && Fronts(c', own, kept) && c'.bs == c.bs
  {
    hide Shape, ListsOk, Counted, Keeps, Calm, Held, Fronts, Families, Private;
    if Pages(n, c.bs) <= |own[k]| {
      assert own[k := own[k]] == own;
      TableCovers(c, own, k, n);
    } else {
      var count := Pages(n, c.bs) - |own[k]|;
      AllocBlocksOk(c, own, count);
      HeldAlloc(c, own, count);
      KeepsSize(c, AllocBlocks(c, count).c, own);
      InvShape(AllocBlocks(c, count).c,
               if AllocBlocks(c, count).Got? then own[InFlight := AllocBlocks(c, count).ids] else own);
      assert own.Keys == kept.Keys by { FrontKeys(c, own, kept); }
      FrontsKept(c, AllocBlocks(c, count).c, own, kept, own, kept);
      match AllocBlocks(c, count) {
        case Oom(c1) =>
        case Got(c1, ids) =>
          AttachPages(c1, own, kept, k, ids);
          TableCovers(c1, own[k := own[k] + ids], k, n);
      }
    }
  }

  lemma AttachPages(c: Cache, own: Owners, kept: Promises, k: Owner, ids: seq<nat>)
    requires k in own && InFlight !in own && Inv(c, own[InFlight := ids]) && Private(c, ids)
    requires Fronts(c, own, kept) && Families(own, kept)
    ensures Inv(c, own[k := own[k] + ids]) && Fronts(c, own[k := own[k] + ids], kept)
    ensures Families(own[k := own[k] + ids], kept)
  {
    hide Shape, ListsOk, Counted, Families, Private, Front;
    var own1, l := own[InFlight := ids], own[k] + ids;
    PrivateToFlight(c, own, ids);
    Append(c, own1, k, InFlight);
    assert (own1 - {InFlight})[k := own1[k] + own1[InFlight]] == own[k := l];
    OwnedList(c, own[k := l], k);
    assert own[k := l][k] == l;
    ListsLess(c, own1, own);
    assert kept[k := kept[k]] == kept;
    FamiliesGrown(c, own, kept, k, ids, kept[k]);
    GrownCovers(c, own[k := l], k, own[k], kept[k]);
    FrontLonger(c, own[k], ids, kept[k]);
  }

  lemma ListsLess(c: Cache, own: Owners, own': Owners)
    requires ListsOk(c, own) && forall o :: o in own' ==> o in own && own'[o] == own[o]
    ensures ListsOk(c, own')
  {
  }

  lemma GrownCovers(c: Cache, own: Owners, k: Owner, l: seq<nat>, rows: seq<Row>)
    requires Inv(c, own) && k in own && |l| <= |own[k]| && Front(c, l, rows)
    ensures Covers(c.kv, own[k], c.bs, |rows|)
  {
    hide Counted;
    InvTable(c, own, k);
  }

  lemma InvTable(c: Cache, own: Owners, k: Owner)
    requires Shape(c) && ListsOk(c, own) && k in own
    ensures TableOk(c.kv, own[k])
  {
    hide TreeOk;
    assert ListOk(c, own[k]);
    forall i | 0 <= i < |own[k]|
      ensures own[k][i] < |c.kv|
    {
      assert own[k][i] in own[k];
    }
  }

  lemma TableCovers(c: Cache, own: Owners, k: Owner, n: nat)
    requires Inv(c, own) && k in own && c.bs > 0 && Pages(n, c.bs) <= |own[k]|
    ensures Covers(c.kv, own[k], c.bs, n)
  {
    hide Counted;
    InvTable(c, own, k);
  }

  lemma KeepsSize(c: Cache, c': Cache, own: Owners)
    requires Keeps(c, c', own)
    ensures c'.bs == c.bs && |c'.kv| == |c.kv|
  {
  }

  lemma InvShape(c: Cache, own: Owners)
    requires Inv(c, own)
    ensures Shape(c)
  {
  }

  lemma FrontKeys(c: Cache, own: Owners, kept: Promises)
    requires Fronts(c, own, kept)
    ensures own.Keys == kept.Keys
  {
  }

  lemma ExtendOk(st: State, id: nat, pos: nat, row: Row)
    requires Sound(st) && id in st.handles && pos >= st.handles[id].n
    ensures Sound(Apply(st, Extend(id, pos, row)))
  {
    hide Inv, Shape, Keeps, Owning, Fronts, Families, Held, Write, Grow;
    var c, own, k, h := st.s.c, OwningIn(st), Handle(id), st.handles[id];
    GoodShape(st.s, st.handles);
    OwningOf(st.s.entries, st.handles, id);
    Strangers(st.s.entries, st.handles);
    KeptKeys(st);
    assert k in st.kept;
    GrowOk(c, own, st.kept, k, pos + 1);
    match Grow(c, h.swa, pos + 1) {
      case Oom(c1) =>
        assert st.handles[id := h] == st.handles;
      case Got(c1, l) =>
        var own1 := own[k := l];
        assert own1[k] == l && pos + |[row]| == pos + 1;
        AppendSpares(c1, own1, st.kept, k, pos, [row]);
        WriteInv(c1, own1, l, pos, [row]);
        HeldRows(c1, Write(c1.kv, l, c1.bs, pos, [row]));
        OwningHandle(st.s.entries, st.handles, id, DualHandle(l, l, if h.n > pos then h.n else pos + 1));
    }
  }

  lemma HeldRows(c: Cache, kv: Grid)
    requires Held(c)
    ensures Held(c.(kv := kv))
  {
  }

  // ---------------------------------------------------------------- saves

  /** Entries after an insert: the new one, and old ones under other keys. */
  lemma InsertEntries(s: Store, e: V4Entry)
    requires UniqueKeys(s.entries)
    ensures forall x :: x in Insert(s, e).entries ==>
      x == Owned(e) || (x in s.entries && (x.key != e.key || Rejected(e)))
  {
    hide ReleaseEntry, ForkTables;
    if !Rejected(e) {
      var i := IndexOf(s.entries, e.key);
      if i < |s.entries| {
        assert forall x :: x in s.entries[i := Owned(e)] ==> x == Owned(e) || (x in s.entries && x.key != e.key);
      } else {
        TrimEntries(s.(c := ForkTables(s.c, e.swa, e.comp), entries := s.entries + [Owned(e)]));
      }
    }
  }

  lemma {:induction false} TrimEntries(s: Store)
    ensures forall x :: x in Trim(s).entries ==> x in s.entries
    decreases |s.entries|
  {
    hide ReleaseEntry;
    if |s.entries| > s.cap {
      TrimEntries(s.(c := ReleaseEntry(s.c, s.entries[0]), entries := s.entries[1..]));
    }
  }

  lemma {:induction false} TrimTail(s: Store)
    ensures |Trim(s).entries| <= |s.entries|
    ensures Trim(s).entries == s.entries[|s.entries| - |Trim(s).entries|..]
    decreases |s.entries|
  {
    hide ReleaseEntry;
    if |s.entries| > s.cap {
      TrimTail(s.(c := ReleaseEntry(s.c, s.entries[0]), entries := s.entries[1..]));
    }
  }

  /** Owners after an insert: the key's entry with the new pages, all others as before. */
  lemma InsertOwners(s: Store, handles: Handles, e: V4Entry)
    requires UniqueKeys(s.entries) && !Rejected(e)
    ensures var own, own' := Owning(s.entries, handles), Owning(Insert(s, e).entries, handles);
      forall o :: o in own' ==> (if o == Entry(e.key) then own'[o] == e.swa else o in own && own'[o] == own[o])
  {
    hide ReleaseEntry, ForkTables, Owning, Trim;
    var i := IndexOf(s.entries, e.key);
    if i < |s.entries| {
      OwningReplace(s.entries, handles, i, Owned(e));
    } else {
      var s1 := s.(c := ForkTables(s.c, e.swa, e.comp), entries := s.entries + [Owned(e)]);
      OwningSnoc(s.entries, handles, Owned(e));
      TrimTail(s1);
      OwningTail(s1.entries, Trim(s1).entries, handles);
    }
  }

  /** The pages of the new entry are those of owner `h`, or none. */
  ghost predicate Backed(own: Owners, kept: Promises, e: V4Entry, rows: seq<Row>, h: Owner) {
    if e.swa == [] then rows == []
    else h in own && h in kept && h.Handle? && own[h] == e.swa && kept[h] == rows
  }

  /** An insert whose pages are backed keeps every remaining promise. */
  lemma InsertFronts(s: Store, handles: Handles, kept: Promises, e: V4Entry, rows: seq<Row>, h: Owner)
    requires Good(s, handles) && ListOk(s.c, e.swa) && (e.comp == [] || e.comp == e.swa) && !Rejected(e)
    requires Fronts(s.c, Owning(s.entries, handles), kept) && Families(Owning(s.entries, handles), kept)
    requires Backed(Owning(s.entries, handles), kept, e, rows, h)
    ensures var s' := Insert(s, e);
      var kept' := Remaining(s'.entries, handles, kept[Entry(e.key) := rows]);
      && Good(s', handles)
      && Fronts(s'.c, Owning(s'.entries, handles), kept')
      && Families(Owning(s'.entries, handles), kept')
  {
    hide Inv, Shape, Keeps, Owning, Fronts, Families, Held, Insert, Twins, ListOk, UniqueKeys;
    var k, s' := Entry(e.key), Insert(s, e);
    var own, own' := Owning(s.entries, handles), Owning(s'.entries, handles);
    var kept' := Remaining(s'.entries, handles, kept[k := rows]);
    InsertOk(s, handles, e);
    InsertOwners(s, handles, e);
    FrontKeys(s.c, own, kept);
    assert kept'.Keys == own'.Keys by { RemainingIs(s'.entries, handles, kept[k := rows]); }
    RemainingAt(s'.entries, handles, kept[k := rows]);
    InvShape(s'.c, own');
    FrontsKept(s.c, s'.c, own, kept, own' - {k}, kept' - {k});
    FamiliesEntry(own, kept, k, e.swa, rows, h);
    FamiliesLess(own[k := e.swa], kept[k := rows], own', kept');
    if e.swa != [] {
      HandleStays(s, handles, e, h);
    }
    InvEmpty(s'.c, own');
    FrontsWith(s'.c, own', kept', k, h);
  }

  lemma RemainingAt(entries: seq<V4Entry>, handles: Handles, kept: Promises)
    ensures forall o :: o in Remaining(entries, handles, kept) ==>
              o in Owning(entries, handles) && o in kept && Remaining(entries, handles, kept)[o] == kept[o]
  {
  }

  lemma InvEmpty(c: Cache, own: Owners)
    requires Inv(c, own)
    ensures GridOk(c.kv, c.bs) && c.bs > 0
  {
  }

  lemma HandleStays(s: Store, handles: Handles, e: V4Entry, h: Owner)
    requires h.Handle? && h in Owning(s.entries, handles)
    ensures h in Owning(Insert(s, e).entries, handles)
  {
    hide Insert, IndexOf;
  }

  lemma FrontsWith(c: Cache, own: Owners, kept: Promises, k: Owner, h: Owner)
    requires GridOk(c.kv, c.bs) && Fronts(c, own - {k}, kept - {k}) && kept.Keys == own.Keys
    requires k in own ==>
      if own[k] == [] then kept[k] == [] else h != k && h in own && own[h] == own[k] && kept[h] == kept[k]
    ensures Fronts(c, own, kept)
  {
    forall o | o in own
      ensures Front(c, own[o], kept[o])
    {
      if o == k && own[k] != [] {
        assert h in own - {k};
      } else if o != k {
        assert o in own - {k};
      }
    }
  }

  lemma FamiliesEntry(own: Owners, kept: Promises, k: Owner, l: seq<nat>, rows: seq<Row>, h: Owner)
    requires Families(own, kept)
    requires if l == [] then true else h in own && own[h] == l && kept[h] == rows
    ensures Families(own[k := l], kept[k := rows])
  {
    if l != [] {
      FamiliesShared(own, kept, k, h);
    }
  }

  /** Fresh pages for a prompt, written and promised to the new handle. */
  lemma SavedOk(c: Cache, own: Owners, kept: Promises, k: Owner, n: nat, rows: seq<Row>, c1: Cache, ids: seq<nat>)
    requires Inv(c, own) && Held(c) && Fronts(c, own, kept) && Families(own, kept)
    requires k !in own && InFlight !in own && Victim !in own && k != InFlight && c.bs > 0 && |rows| <= n
    requires AllocBlocks(c, Pages(n, c.bs)) == Got(c1, ids)
    ensures var c2 := SavedCache(c1, ids, rows);
      var saved := RowsOf(c2, ids, n);
      && |saved| == n && saved[..|rows|] == rows && |ids| == Pages(n, c.bs) && c2.bs == c.bs
      && Inv(c2, own[k := ids]) && Held(c2)
      && Fronts(c2, own[k := ids], kept[k := saved]) && Families(own[k := ids], kept[k := saved])
  {
    hide Shape, ListsOk, Counted, Keeps, Calm, Held, Fronts, Families, Private, Front, Write;
    var own1, own2 := own[InFlight := ids], own[k := ids];
    AllocBlocksOk(c, own, Pages(n, c.bs));
    HeldAlloc(c, own, Pages(n, c.bs));
    KeepsSize(c, c1, own);
    PrivateToFlight(c1, own, ids);
    InvShape(c1, own1);
    FrontKeys(c, own, kept);
    FrontsKept(c, c1, own, kept, own, kept);
    Rename(c1, own1, InFlight, k);
    assert (own1 - {InFlight})[k := ids] == own2;
    TableCovers(c1, own2, k, n);
    ListsLess(c1, own1, own);
    assert [] + ids == ids;
    FamiliesGrown(c1, own, kept, k, ids, []);
    FrontsNew(c1, own, kept, k, ids);
    PagesMono(|rows|, n, c.bs);
    AppendSpares(c1, own2, kept[k := []], k, 0, rows);
    var c2 := SavedCache(c1, ids, rows);
    assert c2 == c1.(kv := Write(c1.kv, ids, c1.bs, 0, rows));
    WriteInv(c1, own2, ids, 0, rows);
    HeldRows(c1, c2.kv);
    TableCovers(c2, own2, k, n);
    var saved := RowsOf(c2, ids, n);
    SavedRows(c1, ids, rows, n);
    FamiliesGrown(c1, own, kept, k, ids, saved);
    FrontsPromise(c2, own2, kept, k, saved);
  }

  lemma FrontsNew(c: Cache, own: Owners, kept: Promises, k: Owner, ids: seq<nat>)
    requires Fronts(c, own, kept) && Covers(c.kv, ids, c.bs, 0)
    ensures Fronts(c, own[k := ids], kept[k := []])
  {
  }

  lemma FrontsPromise(c: Cache, own: Owners, kept: Promises, k: Owner, rows: seq<Row>)
    requires Fronts(c, own, kept[k := []]) && k in own && Front(c, own[k], rows)
    ensures Fronts(c, own, kept[k := rows])
  {
    hide Front;
  }

  /** The saved rows start with the rows that were written. */
  lemma SavedRows(c: Cache, ids: seq<nat>, rows: seq<Row>, n: nat)
    requires Covers(c.kv, ids, c.bs, n) && |rows| <= n && NoDup(ids)
    ensures Covers(c.kv, ids, c.bs, |rows|)
    ensures var c2 := SavedCache(c, ids, rows);
      RowsOf(c2, ids, n)[..|rows|] == rows && Front(c2, ids, RowsOf(c2, ids, n)) && |RowsOf(c2, ids, n)| == n
  {
    hide Write;
    PagesMono(|rows|, n, c.bs);
    WriteThenRead(c.kv, ids, c.bs, 0, rows, n);
  }

  lemma SavePagesOk(st: State, step: Step, c: Cache, ids: seq<nat>)
    requires Sound(st) && step.Save? && step.id !in st.handles && step.key != [] && step.full != map[]
    requires |step.rows| <= |step.key|
    requires st.s.c.bs > 0 && AllocBlocks(st.s.c, Pages(|step.key|, st.s.c.bs)) == Got(c, ids)
    ensures Sound(SavePages(st, step, c, ids))
  {
    hide Inv, Shape, Keeps, Owning, Fronts, Families, Held, Twins, ListOk, SavedCache, RowsOf, UniqueKeys, Insert;
    var own, k, n := OwningIn(st), Handle(step.id), |step.key|;
    var c1 := SavedCache(c, ids, step.rows);
    var saved := RowsOf(c1, ids, n);
    var h := DualHandle(ids, ids, n);
    var hs := st.handles[step.id := h];
    var e := V4Entry(step.key, step.logits, if step.primary then step.slim else step.full, ids, ids, n, step.primary);
    Strangers(st.s.entries, st.handles);
    OwningHandle(st.s.entries, st.handles, step.id, h);
    SavedOk(st.s.c, own, st.kept, k, n, step.rows, c, ids);
    TwinsSet(st.s.entries, st.handles, step.id, h);
    var s1 := st.s.(c := c1);
    assert Good(s1, hs);
    InvLists(c1, own[k := ids]);
    OwnedList(c1, own[k := ids], k);
    PagesPositive(n, st.s.c.bs);
    InsertFronts(s1, hs, st.kept[k := saved], e, saved, k);
    InsertEntries(s1, e);
    SaveLevels(st, hs, s1, e, saved, step.id);
  }

  lemma InvLists(c: Cache, own: Owners)
    requires Inv(c, own)
    ensures ListsOk(c, own)
  {
  }

  lemma TwinsSet(entries: seq<V4Entry>, handles: Handles, id: nat, h: DualHandle)
    requires Twins(entries, handles) && h.comp == h.swa
    ensures Twins(entries, handles[id := h])
  {
  }

  lemma SaveLevels(st: State, hs: Handles, s1: Store, e: V4Entry, saved: seq<Row>, id: nat)
    requires Levels(st) && |saved| == e.tokens && (e.swa != [] ==> e.tokens > 0) && !Rejected(e)
    requires s1.entries == st.s.entries
    requires hs != st.handles ==>
      && hs.Keys == st.handles.Keys + {id} && hs[id].n == |saved|
      && forall j :: j in st.handles && j != id ==> hs[j] == st.handles[j]
    requires forall x :: x in Insert(s1, e).entries ==> x == Owned(e) || (x in s1.entries && x.key != e.key)
    ensures hs == st.handles ==> Levels(State(Insert(s1, e), hs,
                                              Remaining(Insert(s1, e).entries, hs, st.kept[Entry(e.key) := saved])))
    ensures hs != st.handles ==>
      var kept := st.kept[Handle(id) := saved][Entry(e.key) := saved];
      Levels(State(Insert(s1, e), hs, Remaining(Insert(s1, e).entries, hs, kept)))
  {
    hide Insert, Owning, Rejected;
    RemainingAt(Insert(s1, e).entries, hs, st.kept[Entry(e.key) := saved]);
    RemainingAt(Insert(s1, e).entries, hs, st.kept[Handle(id) := saved][Entry(e.key) := saved]);
  }

  lemma SavePlainOk(st: State, step: Step, c: Cache)
    requires Sound(st) && step.Save? && step.key != [] && step.full != map[]
    requires st.s.c.bs > 0 && AllocBlocks(st.s.c, Pages(|step.key|, st.s.c.bs)) == Oom(c)
    ensures Sound(SavePlain(st, step, c))
  {
    hide Inv, Shape, Keeps, Owning, Fronts, Families, Held, Twins, UniqueKeys, Insert, Calm;
    var own, n := OwningIn(st), Pages(|step.key|, st.s.c.bs);
    var e := V4Entry(step.key, step.logits, step.full, [], [], 0, false);
    Strangers(st.s.entries, st.handles);
    AllocBlocksOk(st.s.c, own, n);
    HeldAlloc(st.s.c, own, n);
    InvShape(c, own);
    KeptKeys(st);
    FrontsKept(st.s.c, c, own, st.kept, own, st.kept);
    var s1 := st.s.(c := c);
    assert Good(s1, st.handles);
    InsertFronts(s1, st.handles, st.kept, e, [], Handle(0));
    InsertEntries(s1, e);
    SaveLevels(st, st.handles, s1, e, [], 0);
  }

  // ---------------------------------------------------------------- runs

  lemma ApplyOk(st: State, step: Step)
    requires Sound(st) && Safe(st, step)
    ensures Sound(Apply(st, step))
  {
    hide Sound, SavePlain, SavePages, ExtendTo, Clear, ForkForHit, ReleaseHandle, AllocBlocks, Pages;
    match step {
      case Save(id, key, rows, _, full, slim, primary) =>
        if !(id in st.handles || key == [] || full == map[] || |rows| > |key| || st.s.c.bs == 0) {
          match AllocBlocks(st.s.c, Pages(|key|, st.s.c.bs)) {
            case Oom(c) => SavePlainOk(st, step, c);
            case Got(c, ids) => SavePagesOk(st, step, c, ids);
          }
        }
      case Hit(id, tokens) => HitStepOk(st, id, tokens);
      case Extend(id, pos, row) => if id in st.handles { ExtendOk(st, id, pos, row); }
      case Drop(id) => if id in st.handles { DropOk(st, id); }
      case Flush => FlushOk(st);
    }
  }

  /** A pool without owners and an empty store. */
  lemma StartOk(c: Cache, cap: nat)
    requires Inv(c, map[]) && Held(c)
    ensures Sound(State(Store(c, [], cap), map[], map[]))
  {
    assert Owning([], map[]) == map[];
  }

  ghost function Run(st: State, steps: seq<Step>): State
    decreases |steps|
  {
    if steps == [] then st else Apply(Run(st, steps[..|steps| - 1]), steps[|steps| - 1])
  }

  ghost predicate SafeRun(st: State, steps: seq<Step>)
    decreases |steps|
  {
    steps == [] ||
    var n := |steps| - 1;
    SafeRun(st, steps[..n]) && Safe(Run(st, steps[..n]), steps[n])
  }

  lemma {:induction false} RunOk(st: State, steps: seq<Step>)
    requires Sound(st) && SafeRun(st, steps)
    ensures Sound(Run(st, steps))
    decreases |steps|
  {
    hide Sound, Apply, Safe;
    if steps != [] {
      RunOk(st, steps[..|steps| - 1]);
      ApplyOk(Run(st, steps[..|steps| - 1]), steps[|steps| - 1]);
    }
  }

  ghost predicate Saves(step: Step, key: Path) {
    step.Save? && step.key == key
  }

  /** What is promised for a stored prompt changes only when the prompt is saved again. */
  lemma PromiseStable(st: State, step: Step, key: Path)
    requires !Saves(step, key) && Entry(key) in Apply(st, step).kept
    ensures Entry(key) in st.kept && Apply(st, step).kept[Entry(key)] == st.kept[Entry(key)]
  {
    hide Owning, Insert, Clear, ReleaseHandle, ForkForHit, Grow, AllocBlocks, SavedCache, RowsOf, Best;
  }

  lemma {:induction false} PromiseStays(st: State, steps: seq<Step>, key: Path)
    requires Entry(key) in Run(st, steps).kept && forall x :: x in steps ==> !Saves(x, key)
    ensures Entry(key) in st.kept && Run(st, steps).kept[Entry(key)] == st.kept[Entry(key)]
    decreases |steps|
  {
    hide Apply, Saves;
    if steps != [] {
      PromiseStable(Run(st, steps[..|steps| - 1]), steps[|steps| - 1], key);
      PromiseStays(st, steps[..|steps| - 1], key);
    }
  }

  lemma HandleStable(st: State, step: Step, id: nat)
    requires id in st.handles && Handle(id) in st.kept && step != Drop(id)
    ensures var st' := Apply(st, step);
      id in st'.handles && Handle(id) in st'.kept && st'.kept[Handle(id)] == st.kept[Handle(id)]
  {
    hide Insert, Clear, ReleaseHandle, ForkForHit, Grow, AllocBlocks, SavedCache, RowsOf, Best, IndexOf, Write;
  }

  /**
   Until its handle is released, a sequence finds the rows it was given, whatever is evicted,
   replaced or appended meanwhile.
   */
  lemma {:induction false} HandleKeepsRows(st: State, steps: seq<Step>, id: nat)
    requires Sound(st) && SafeRun(st, steps) && id in st.handles && Handle(id) in st.kept && Drop(id) !in steps
    ensures var st' := Run(st, steps);
      && id in st'.handles && Handle(id) in st'.kept && st'.kept[Handle(id)] == st.kept[Handle(id)]
      && RowsOf(st'.s.c, st'.handles[id].swa, |st.kept[Handle(id)]|) == st.kept[Handle(id)]
    decreases |steps|
  {
    hide Apply, Good, Families, Owning, Front;
    RunOk(st, steps);
    if steps != [] {
      HandleKeepsRows(st, steps[..|steps| - 1], id);
      HandleStable(Run(st, steps[..|steps| - 1]), steps[|steps| - 1], id);
    }
    var st' := Run(st, steps);
    OwningOf(st'.s.entries, st'.handles, id);
    FrontReads(st'.s.c, st'.handles[id].swa, st'.kept[Handle(id)]);
  }

  /** Restore: the first `n` rows of the pages overwrite the front of the buffer, as far as it reaches. */
  ghost function Restored(c: Cache, l: seq<nat>, n: nat, buf: seq<Row>): seq<Row> {
    var rows := RowsOf(c, l, n);
    var m := Min(|rows|, |buf|);
    rows[..m] + buf[m..]
  }

  /** A hit on a stored prompt hands out pages whose front is what was promised for it. */
  lemma HitReads(st: State, id: nat, tokens: Path, e: V4Entry)
    requires Sound(st) && id !in st.handles && Best(st.s.entries, tokens) == Some(e) && e.swa != []
    ensures Entry(e.key) in st.kept
    ensures var st' := Apply(st, Hit(id, tokens));
      && id in st'.handles && st'.handles[id].n == e.tokens && st'.handles[id].comp == st'.handles[id].swa
      && RowsOf(st'.s.c, st'.handles[id].swa, e.tokens) == st.kept[Entry(e.key)]
  {
    hide Good, Front, Families, Owning, ForkForHit;
    var st' := Apply(st, Hit(id, tokens));
    var i :| 0 <= i < |st.s.entries| && st.s.entries[i] == e;
    assert UniqueKeys(st.s.entries) by { GoodKeys(st.s, st.handles); }
    EntryList(st.s.entries, st.handles, i);
    HitHandle(st.s.c, e);
    HitStepOk(st, id, tokens);
    OwningOf(st'.s.entries, st'.handles, id);
    GoodTwin(st'.s, st'.handles, id);
    FrontReads(st'.s.c, st'.handles[id].swa, st'.kept[Handle(id)]);
  }

  lemma GoodKeys(s: Store, handles: Handles)
    requires Good(s, handles)
    ensures UniqueKeys(s.entries)
  {
  }

  lemma GoodTwin(s: Store, handles: Handles, id: nat)
    requires Good(s, handles) && id in handles
    ensures handles[id].comp == handles[id].swa
  {
    assert Twin(handles[id].swa, handles[id].comp);
  }

  lemma FrontReads(c: Cache, l: seq<nat>, rows: seq<Row>)
    requires Front(c, l, rows)
    ensures RowsOf(c, l, |rows|) == rows
  {
  }

  /** What a save promises for its prompt: the written rows first. */
  lemma SaveRecords(st: State, step: Step, c: Cache, ids: seq<nat>)
    requires Sound(st) && step.Save? && step.id !in st.handles && step.key != [] && step.full != map[]
    requires |step.rows| <= |step.key| && AllocBlocks(st.s.c, Pages(|step.key|, st.s.c.bs)) == Got(c, ids)
    requires st.s.c.bs > 0 && Entry(step.key) in Apply(st, step).kept
    ensures var saved := Apply(st, step).kept[Entry(step.key)];
      |saved| == |step.key| && saved[..|step.rows|] == step.rows
  {
    hide Good, Fronts, Families, Owning, Insert;
    Strangers(st.s.entries, st.handles);
    OwningHandle(st.s.entries, st.handles, step.id, DualHandle([], [], 0));
    assert Inv(st.s.c, OwningIn(st)) && Held(st.s.c) by { GoodInv(st.s, st.handles); }
    SavedOk(st.s.c, OwningIn(st), st.kept, Handle(step.id), |step.key|, step.rows, c, ids);
  }

  lemma GoodInv(s: Store, handles: Handles)
    requires Good(s, handles)
    ensures Inv(s.c, Owning(s.entries, handles)) && Held(s.c)
  {
  }

  /**
   A prompt saved with pages, then any run of saves of other prompts, hits, appends, releases
   and flushes, then a hit on it: the restore writes exactly the rows that were saved over the
   front of the buffer, up to the buffer's length.
   */
  lemma HitRestoresSaved(st: State, save: Step, c: Cache, ids: seq<nat>, steps: seq<Step>, id: nat, tokens: Path,
                         e: V4Entry, buf: seq<Row>)
    requires Sound(st) && save.Save? && save.id !in st.handles && save.key != [] && save.full != map[] && st.s.c.bs > 0
    requires |save.rows| == |save.key| && AllocBlocks(st.s.c, Pages(|save.key|, st.s.c.bs)) == Got(c, ids)
    requires SafeRun(Apply(st, save), steps) && forall x :: x in steps ==> !Saves(x, save.key)
    requires id !in Run(Apply(st, save), steps).handles
    requires Best(Run(Apply(st, save), steps).s.entries, tokens) == Some(e) && e.key == save.key && e.swa != []
    ensures var st' := Apply(Run(Apply(st, save), steps), Hit(id, tokens));
      && id in st'.handles
      && var m := Min(|save.rows|, |buf|);
         Restored(st'.s.c, st'.handles[id].swa, e.tokens, buf) == save.rows[..m] + buf[m..]
  {
    hide Sound, Apply, AllocBlocks, Safe, Saves, RowsOf;
    var st1 := Apply(st, save);
    var st2 := Run(st1, steps);
    ApplyOk(st, save) by { SaveIsSafe(st, save); }
    RunOk(st1, steps);
    HitReads(st2, id, tokens, e);
    PromiseStays(st1, steps, save.key);
    SaveRecords(st, save, c, ids);
    assert save.rows[..|save.rows|] == save.rows;
  }

  /** A new store over a pool without owners. */
  ghost function NewStore(c: Cache, cap: nat): State {
    State(Store(c, [], cap), map[], map[])
  }

  /** Every run from a new store keeps every promise. */
  lemma RunFromStart(c: Cache, cap: nat, steps: seq<Step>)
    requires Inv(c, map[]) && Held(c) && SafeRun(NewStore(c, cap), steps)
    ensures Sound(Run(NewStore(c, cap), steps))
  {
    hide Inv, Held, Sound, Run, SafeRun;
    StartOk(c, cap);
    RunOk(NewStore(c, cap), steps);
  }

  /**
   From a new store: any run, a save, any run that does not save the same prompt, a hit on it.
   The restore writes exactly the saved rows, up to the buffer's length.
   */
  lemma HitRestoresFromStart(c: Cache, cap: nat, before: seq<Step>, save: Step, c1: Cache, ids: seq<nat>,
                             steps: seq<Step>, id: nat, tokens: Path, e: V4Entry, buf: seq<Row>)
    requires Inv(c, map[]) && Held(c) && SafeRun(NewStore(c, cap), before)
    requires var st := Run(NewStore(c, cap), before);
      && save.Save? && save.id !in st.handles && save.key != [] && save.full != map[] && st.s.c.bs > 0
      && |save.rows| == |save.key| && AllocBlocks(st.s.c, Pages(|save.key|, st.s.c.bs)) == Got(c1, ids)
      && SafeRun(Apply(st, save), steps) && (forall x :: x in steps ==> !Saves(x, save.key))
      && id !in Run(Apply(st, save), steps).handles
      && Best(Run(Apply(st, save), steps).s.entries, tokens) == Some(e) && e.key == save.key && e.swa != []
    ensures var st' := Apply(Run(Apply(Run(NewStore(c, cap), before), save), steps), Hit(id, tokens));
      && id in st'.handles
      && var m := Min(|save.rows|, |buf|);
         Restored(st'.s.c, st'.handles[id].swa, e.tokens, buf) == save.rows[..m] + buf[m..]
  {
    hide Inv, Held, Sound, Apply, Run, SafeRun, Saves, AllocBlocks, Best, Restored, Pages;
    RunFromStart(c, cap, before);
    HitRestoresSaved(Run(NewStore(c, cap), before), save, c1, ids, steps, id, tokens, e, buf);
  }

  lemma SaveIsSafe(st: State, step: Step)
    requires step.Save?
    ensures Safe(st, step)
  {
  }

  // ---------------------------------------------------------------- appends out of turn

  /**
   An append inside a table leaves all promises intact exactly when it goes beyond the promised
   rows or rewrites the promised row itself.
   */
  lemma AppendSparesExactly(c: Cache, own: Owners, kept: Promises, k: Owner, pos: nat, row: Row)
    requires Fronts(c, own, kept) && Families(own, kept) && k in own && NoDup(own[k])
    requires Covers(c.kv, own[k], c.bs, pos + 1)
    ensures Fronts(c.(kv := Write(c.kv, own[k], c.bs, pos, [row])), own, kept)
       <==> pos >= |kept[k]| || row == kept[k][pos]
  {
    hide Families, Write, PageOf, SlotOf, Pages, Front;
    var l, rows := own[k], kept[k];
    var c' := c.(kv := Write(c.kv, l, c.bs, pos, [row]));
    if pos >= |rows| {
      AppendSpares(c, own, kept, k, pos, [row]);
    } else {
      PageInRange(pos, pos + 1, c.bs);
      assert Front(c, l, rows);
      if row == rows[pos] {
        FrontCell(c, l, rows, pos);
        SameCellWrite(c.kv, l, c.bs, pos, row);
      } else {
        WriteAt(c.kv, l, c.bs, pos, [row], pos);
        if Front(c', l, rows) {
          FrontCell(c', l, rows, pos);
        }
      }
    }
  }

  lemma FrontCell(c: Cache, l: seq<nat>, rows: seq<Row>, pos: nat)
    requires Front(c, l, rows) && pos < |rows|
    ensures Covers(c.kv, l, c.bs, pos + 1) && Cell(c.kv, l, c.bs, pos) == rows[pos]
  {
    PagesMono(pos + 1, |rows|, c.bs);
  }

  lemma SameCellWrite(kv: Grid, l: seq<nat>, bs: nat, pos: nat, row: Row)
    requires Covers(kv, l, bs, pos + 1) && PageOf(pos, bs) < |l| && kv[l[PageOf(pos, bs)]][SlotOf(pos, bs)] == row
    ensures Write(kv, l, bs, pos, [row]) == kv
  {
    hide PageOf, SlotOf, Pages;
    PagesMono(pos, pos + 1, bs);
    WriteSnoc(kv, l, bs, pos, [row], 0);
    assert [row][..0] == [] && [row][..1] == [row];
    var b, s := l[PageOf(pos, bs)], SlotOf(pos, bs);
    assert kv[b][s := row] == kv[b];
    assert SetCell(kv, b, s, row) == kv;
  }

  /**
   Beyond the promised rows nothing is protected: after two handles append at the same position,
   the first still reads its own row exactly when the tables differ there or the rows agree.
   */
  lemma LaterAppendWinsExactly(kv: Grid, l: seq<nat>, m: seq<nat>, bs: nat, pos: nat, r1: Row, r2: Row)
    requires Covers(kv, l, bs, pos + 1) && Covers(kv, m, bs, pos + 1) && NoDup(l) && NoDup(m)
    requires PageOf(pos, bs) < |l| && PageOf(pos, bs) < |m|
    ensures var kv1 := Write(kv, l, bs, pos, [r1]);
      Cell(Write(kv1, m, bs, pos, [r2]), l, bs, pos) == r1
      <==> l[PageOf(pos, bs)] != m[PageOf(pos, bs)] || r1 == r2
  {
    hide PageOf, SlotOf, Pages, Write;
    var kv1 := Write(kv, l, bs, pos, [r1]);
    var kv2 := Write(kv1, m, bs, pos, [r2]);
    WriteAt(kv, l, bs, pos, [r1], pos);
    WriteAt(kv1, m, bs, pos, [r2], pos);
    if l[PageOf(pos, bs)] != m[PageOf(pos, bs)] {
      WriteOtherCells(kv1, m, bs, pos, [r2], l[PageOf(pos, bs)], SlotOf(pos, bs));
    }
  }
}
