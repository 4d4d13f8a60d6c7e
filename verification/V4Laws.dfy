/**
 What the hybrid prefix store holds after an insert and what a lookup answers, in both
 directions: the entry just stored is the one found for its own prompt, and every other entry
 stays unless it was the oldest of a full store.
 */
module V4Laws {
  import opened Prelude
  import opened Paging
  import opened PagePool
  import opened Allocator
  import opened Supply
  import opened Preparing
  import opened V4Prefix
  import opened V4Rows

  /** The stored form of an entry: its own fields, with the second table filled in. */
  ghost predicate StoredAs(e: V4Entry, f: V4Entry) {
    && f.key == e.key && f.logits == e.logits && f.buffers == e.buffers && f.swa == e.swa
    && f.tokens == e.tokens && f.primary == e.primary
    && f.comp == if e.swa != [] && e.comp == [] then e.swa else e.comp
  }

  lemma OwnedIs(e: V4Entry)
    ensures StoredAs(e, Owned(e))
  {
  }

  /** The lists with their oldest entries dropped until at most `cap` are left. */
  ghost function Newest(entries: seq<V4Entry>, cap: nat): (r: seq<V4Entry>)
    ensures |r| <= cap && |r| <= |entries|
  {
    if |entries| <= cap then entries else entries[|entries| - cap..]
  }

  lemma {:induction false} TrimNewest(s: Store)
    ensures Trim(s).entries == Newest(s.entries, s.cap) && Trim(s).cap == s.cap
    decreases |s.entries|
  {
    hide ReleaseEntry;
    if |s.entries| > s.cap {
      TrimNewest(s.(c := ReleaseEntry(s.c, s.entries[0]), entries := s.entries[1..]));
    }
  }

  /** `f` takes the place of the entry with its prompt, or comes last while the oldest leave. */
  ghost predicate Joins(s: Store, s': Store, f: V4Entry) {
    if exists i :: 0 <= i < |s.entries| && s.entries[i].key == f.key then
      exists i :: 0 <= i < |s.entries| && s.entries[i].key == f.key && s'.entries == s.entries[i := f]
    else
      s'.entries == Newest(s.entries + [f], s.cap)
  }

  /**
   An insert is refused exactly for a prompt without tokens or one with neither buffers nor pages
   that stand for them.  Otherwise it takes the place of the entry with the same prompt, or joins
   as the newest while the oldest leave.
   */
  lemma InsertStoresExactly(s: Store, e: V4Entry)
    requires UniqueKeys(s.entries) && |s.entries| <= s.cap
    ensures var s' := Insert(s, e);
      var refused := e.key == [] || (e.buffers == map[] && (e.swa == [] || !e.primary));
      && s'.cap == s.cap
      && (refused ==> s' == s)
      && (!refused ==> exists f :: StoredAs(e, f) && Joins(s, s', f))
  {
    hide ReleaseEntry, ForkTables, Trim, Newest;
    if !Rejected(e) {
      var f, i := Owned(e), IndexOf(s.entries, e.key);
      OwnedIs(e);
      assert forall j :: 0 <= j < i ==> s.entries[j].key != e.key;
      if i < |s.entries| {
        assert s.entries[i].key == e.key && Insert(s, e).entries == s.entries[i := f];
      } else {
        TrimNewest(s.(c := ForkTables(s.c, e.swa, e.comp), entries := s.entries + [f]));
      }
    }
  }

  /** The match is the one longest stored prompt that begins the tokens, and there is none without. */
  lemma BestExactly(entries: seq<V4Entry>, tokens: Path, e: V4Entry)
    requires UniqueKeys(entries)
    ensures Best(entries, tokens) == Some(e) <==>
      && e in entries && e.key != [] && e.key <= tokens
      && forall f :: f in entries && f.key != [] && f.key <= tokens ==> |f.key| <= |e.key|
    ensures Best(entries, tokens) == None <==> forall f :: f in entries && f.key != [] ==> !(f.key <= tokens)
  {
    hide Best, UniqueKeys;
    BestIsLongest(entries, tokens);
    forall f: V4Entry
      ensures IsPrefix(f, tokens) <==> f.key != [] && f.key <= tokens
    {
    }
    var r := Best(entries, tokens);
    if e in entries && IsPrefix(e, tokens) && forall f :: f in entries && IsPrefix(f, tokens) ==> |f.key| <= |e.key| {
      assert r.value in entries && IsPrefix(r.value, tokens);
      assert r.value.key == e.key;
      KeyDetermines(entries, r.value, e);
    }
  }

  lemma KeyDetermines(entries: seq<V4Entry>, e: V4Entry, f: V4Entry)
    requires UniqueKeys(entries) && e in entries && f in entries && e.key == f.key
    ensures e == f
  {
  }

  /** What was just stored is what its own prompt finds. */
  lemma StoredIsFound(s: Store, handles: Handles, e: V4Entry)
    requires Good(s, handles) && s.cap > 0 && ListOk(s.c, e.swa) && (e.comp == [] || e.comp == e.swa)
    requires !Rejected(e)
    ensures var r := Best(Insert(s, e).entries, e.key);
      r.Some? && StoredAs(e, r.value)
  {
    hide PagePool.Inv, Best, Insert, Held, Owning, Twins, UniqueKeys, Keeps, Newest;
    InsertOk(s, handles, e);
    InsertStoresExactly(s, e);
    var es := Insert(s, e).entries;
    var f :| StoredAs(e, f) && Joins(s, Insert(s, e), f);
    JoinedIn(s, Insert(s, e), f);
    BestExactly(es, e.key, f);
  }

  lemma JoinedIn(s: Store, s': Store, f: V4Entry)
    requires Joins(s, s', f) && s.cap > 0
    ensures f in s'.entries
  {
    NewestHasLast(s.entries, f, s.cap);
    if i :| 0 <= i < |s.entries| && s.entries[i].key == f.key && s'.entries == s.entries[i := f] {
      assert s'.entries[i] == f;
    }
  }

  lemma NewestHasLast(entries: seq<V4Entry>, f: V4Entry, cap: nat)
    requires cap > 0
    ensures f in Newest(entries + [f], cap)
  {
    var all := entries + [f];
    var r := Newest(all, cap);
    assert r[|r| - 1] == f;
  }

  /**
   An entry other than the one stored stays exactly as it was, unless the store was full, the
   prompt is new, and it is the oldest.
   */
  lemma OthersStayExactly(s: Store, handles: Handles, e: V4Entry, k: nat)
    requires Good(s, handles) && s.cap > 0 && !Rejected(e) && k < |s.entries| && s.entries[k].key != e.key
    ensures s.entries[k] in Insert(s, e).entries <==>
      !(k == 0 && |s.entries| == s.cap && forall g :: g in s.entries ==> g.key != e.key)
  {
    hide PagePool.Inv, Held, Owning, Twins, Insert, IndexOf, Newest;
    InsertStoresExactly(s, e);
    var es := Insert(s, e).entries;
    var f :| StoredAs(e, f) && Joins(s, Insert(s, e), f);
    if exists i :: 0 <= i < |s.entries| && s.entries[i].key == f.key {
      var i :| 0 <= i < |s.entries| && s.entries[i].key == f.key && es == s.entries[i := f];
      assert s.entries[i] in s.entries;
      assert es[k] == s.entries[k];
    } else {
      NewestOthers(s.entries, f, s.cap, k);
    }
  }

  lemma NewestOthers(entries: seq<V4Entry>, f: V4Entry, cap: nat, k: nat)
    requires UniqueKeys(entries) && |entries| <= cap && k < |entries| && entries[k].key != f.key
    ensures entries[k] in Newest(entries + [f], cap) <==> !(k == 0 && |entries| == cap)
  {
    var all := entries + [f];
    var r := Newest(all, cap);
    if |entries| < cap {
      assert r == all && all[k] == entries[k];
    } else {
      assert r == all[1..];
      if k > 0 {
        assert r[k - 1] == entries[k];
      }
    }
  }

  /** A hit hands out pages exactly when the entry has a first table, and counts its tokens. */
  lemma HitGivesExactly(s: Store, handles: Handles, i: nat)
    requires Good(s, handles) && i < |s.entries|
    ensures var e, h := s.entries[i], ForkForHit(s.c, s.entries[i]).1;
      && (h.Some? <==> e.swa != [])
      && (h.Some? ==> h.value.swa == e.swa && h.value.comp == e.swa)
      && (h.Some? ==> h.value.n == if e.tokens == 0 then |e.key| else e.tokens)
      && (h.None? ==> ForkForHit(s.c, e).0 == s.c)
  {
    hide PagePool.Inv, Held, Owning;
    assert s.entries[i] in s.entries;
    assert Twin(s.entries[i].swa, s.entries[i].comp);
  }

  // ---------------------------------------------------------------- appends

  /**
   A table grows to exactly the pages of its positions, its own pages first, and it can grow
   exactly when the missing pages can be given.
   */
  lemma GrowsExactly(c: Cache, own: Owners, k: Owner, n: nat)
    requires PagePool.Inv(c, own) && k in own && InFlight !in own && Victim !in own && c.bs > 0
    ensures var r, need := Grow(c, own[k], n), Pages(n, c.bs);
      && (r.Got? <==> CanGive(c, need - |own[k]|))
      && (r.Got? ==>
            && |r.ids| == (if need <= |own[k]| then |own[k]| else need) && r.ids[..|own[k]|] == own[k]
            && Covers(r.c.kv, r.ids, c.bs, n) && r.c.bs == c.bs && SameRows(c, r.c, own[k])
            && NoDup(r.ids))
      && (need <= |own[k]| ==> r.c == c)
  {
    hide PagePool.Inv, CanGive, AllocBlocks, Pages, Keeps, Calm, Private;
    var need := Pages(n, c.bs);
    if need <= |own[k]| {
      InvIsShape(c, own);
      GivesNothing(c, need - |own[k]|);
      TableCovers(c, own, k, n);
      KeepsRefl(c, own);
      KeptTable(c, c, own, k);
      OwnDistinct(c, own, k);
    } else {
      var count := need - |own[k]|;
      AllocSucceedsExactly(c, own, count);
      AllocBlocksOk(c, own, count);
      match AllocBlocks(c, count) {
        case Oom(c1) =>
        case Got(c1, ids) =>
          KeptTable(c, c1, own, k);
          Joined(c1, own, k, ids);
          TableCovers(c1, own[k := own[k] + ids], k, n);
          OwnDistinct(c1, own[k := own[k] + ids], k);
      }
    }
  }

  lemma Joined(c: Cache, own: Owners, k: Owner, ids: seq<nat>)
    requires k in own && InFlight !in own && PagePool.Inv(c, own[InFlight := ids]) && Private(c, ids)
    ensures PagePool.Inv(c, own[k := own[k] + ids])
  {
    hide Shape, ListsOk, Counted;
    var own1 := own[InFlight := ids];
    forall b | b in ids
      ensures b !in own[k]
    {
      OneHolder(c, own1, k, b);
    }
    assert own1[k] == own[k];
    Append(c, own1, k, InFlight);
    assert (own1 - {InFlight})[k := own[k] + ids] == own[k := own[k] + ids];
  }

  lemma OneHolder(c: Cache, own: Owners, k: Owner, b: nat)
    requires PagePool.Inv(c, own) && InFlight in own && k in own && k != InFlight
    requires b in own[InFlight] && Private(c, own[InFlight])
    ensures b !in own[k]
  {
    SoleOwner(c, own, InFlight, b);
  }

  lemma InvIsShape(c: Cache, own: Owners)
    requires PagePool.Inv(c, own)
    ensures Shape(c)
  {
  }

  lemma OwnDistinct(c: Cache, own: Owners, k: Owner)
    requires PagePool.Inv(c, own) && k in own
    ensures NoDup(own[k])
  {
    assert ListOk(c, own[k]);
  }

  lemma KeptTable(c: Cache, c': Cache, own: Owners, k: Owner)
    requires Keeps(c, c', own) && k in own
    ensures c'.bs == c.bs && SameRows(c, c', own[k])
  {
  }

  /**
   An append writes its row exactly when the pages for it can be given.  Read through the table,
   the position then holds the row and every position the table had keeps what it held; otherwise
   the handle is as it was.
   */
  lemma AppendExactly(c: Cache, own: Owners, k: Owner, h: DualHandle, pos: nat, row: Row, n: nat)
    requires PagePool.Inv(c, own) && k in own && own[k] == h.swa && h.comp == h.swa
    requires InFlight !in own && Victim !in own && c.bs > 0 && Pages(n, c.bs) <= |h.swa|
    ensures var (c', h') := AppendRow(c, h, pos, row);
      if CanGive(c, Pages(pos + 1, c.bs) - |h.swa|) then
        && h'.comp == h'.swa && h'.n == (if pos < h.n then h.n else pos + 1)
        && |h.swa| <= |h'.swa| && h'.swa[..|h.swa|] == h.swa
        && Covers(c'.kv, h'.swa, c'.bs, pos + 1) && Cell(c'.kv, h'.swa, c'.bs, pos) == row
        && Covers(c.kv, h.swa, c.bs, n) && Covers(c'.kv, h'.swa, c'.bs, n)
        && (forall i :: 0 <= i < n && i != pos ==>
              Flat(c'.kv, h'.swa, c'.bs, n)[i] == Flat(c.kv, h.swa, c.bs, n)[i])
      else h' == h
  {
    hide PagePool.Inv, CanGive, Grow, Pages, PageOf, SlotOf, Write, Flat, Cell;
    GrowsExactly(c, own, k, pos + 1);
    TableCovers(c, own, k, n);
    var r := Grow(c, h.swa, pos + 1);
    if r.Got? {
      LongerTable(c, r.c, h.swa, r.ids, n);
      RowLands(r.c, r.ids, pos, row, n);
    }
  }

  /** A longer table over the same rows reads what the shorter one read. */
  lemma LongerTable(c: Cache, c': Cache, l: seq<nat>, m: seq<nat>, n: nat)
    requires c.bs > 0 && c'.bs == c.bs && Covers(c.kv, l, c.bs, n) && GridOk(c'.kv, c'.bs) && TableOk(c'.kv, m)
    requires |l| <= |m| && m[..|l|] == l && SameRows(c, c', l)
    ensures Covers(c'.kv, m, c'.bs, n) && Flat(c'.kv, m, c'.bs, n) == Flat(c.kv, l, c.bs, n)
  {
    hide PageOf, SlotOf, Flat;
    forall j | 0 <= j < Pages(n, c.bs)
      ensures c'.kv[m[j]] == c.kv[l[j]]
    {
      assert m[j] == l[j] && l[j] in l;
    }
    FlatAgree(c.kv, c'.kv, l, m, c.bs, n);
  }

  lemma RowLands(c: Cache, l: seq<nat>, pos: nat, row: Row, n: nat)
    requires Covers(c.kv, l, c.bs, pos + 1) && Covers(c.kv, l, c.bs, n) && NoDup(l)
    ensures var kv' := Write(c.kv, l, c.bs, pos, [row]);
      && Covers(kv', l, c.bs, pos + 1) && Cell(kv', l, c.bs, pos) == row && Covers(kv', l, c.bs, n)
      && forall i :: 0 <= i < n && i != pos ==> Flat(kv', l, c.bs, n)[i] == Flat(c.kv, l, c.bs, n)[i]
  {
    hide PageOf, SlotOf, Write, NoDup;
    WriteAt(c.kv, l, c.bs, pos, [row], pos);
    forall i | 0 <= i < n && i != pos
      ensures Covers(Write(c.kv, l, c.bs, pos, [row]), l, c.bs, n)
      ensures Flat(Write(c.kv, l, c.bs, pos, [row]), l, c.bs, n)[i] == Flat(c.kv, l, c.bs, n)[i]
    {
      PagesMono(i + 1, n, c.bs);
      WriteAt(c.kv, l, c.bs, pos, [row], i);
    }
  }

  // ---------------------------------------------------------------- a saved prompt is hit

  /** Entries of a prompt that is not saved again are the ones there were. */
  lemma OldEntry(st: State, step: Step, e: V4Entry)
    requires UniqueKeys(st.s.entries) && !Saves(step, e.key) && e in Apply(st, step).s.entries
    ensures e in st.s.entries
  {
    hide ForkForHit, ReleaseHandle, AllocBlocks, Insert, ExtendTo, Remaining, SavedCache, RowsOf, UniqueKeys;
    match step {
      case Save(id, key, rows, logits, full, slim, primary) =>
        if !(id in st.handles || key == [] || full == map[] || |rows| > |key| || st.s.c.bs == 0) {
          match AllocBlocks(st.s.c, Pages(|key|, st.s.c.bs)) {
            case Oom(c) =>
              InsertEntries(st.s.(c := c), V4Entry(key, logits, full, [], [], 0, false));
            case Got(c, ids) =>
              var x := V4Entry(key, logits, if primary then slim else full, ids, ids, |key|, primary);
              InsertEntries(st.s.(c := SavedCache(c, ids, rows)), x);
          }
        }
      case Hit(_, _) =>
      case Extend(id, pos, row) =>
        if id in st.handles && st.s.c.bs > 0 {
          ExtendEntries(st, id, pos, row);
        }
      case Drop(_) =>
      case Flush => NothingLeft(st.s);
    }
  }

  lemma ExtendEntries(st: State, id: nat, pos: nat, row: Row)
    requires id in st.handles && st.s.c.bs > 0
    ensures ExtendTo(st, id, pos, row).s.entries == st.s.entries
  {
  }

  lemma {:induction false} NothingLeft(s: Store)
    ensures Clear(s).entries == []
    decreases |s.entries|
  {
    hide ReleaseEntry;
    if s.entries != [] {
      NothingLeft(s.(c := ReleaseEntry(s.c, s.entries[0]), entries := s.entries[1..]));
    }
  }

  lemma {:induction false} OldEntries(st: State, steps: seq<Step>, e: V4Entry)
    requires Sound(st) && SafeRun(st, steps) && (forall x :: x in steps ==> !Saves(x, e.key))
    requires e in V4Rows.Run(st, steps).s.entries
    ensures e in st.s.entries
    decreases |steps|
  {
    hide Sound, Apply, Safe, Saves;
    if steps != [] {
      var n := |steps| - 1;
      RunOk(st, steps[..n]);
      SoundKeys(V4Rows.Run(st, steps[..n]));
      assert steps[n] in steps;
      OldEntry(V4Rows.Run(st, steps[..n]), steps[n], e);
      OldEntries(st, steps[..n], e);
    }
  }

  lemma SoundKeys(st: State)
    requires Sound(st)
    ensures UniqueKeys(st.s.entries)
  {
  }

  /** The entry a save leaves under its prompt. */
  lemma SavedEntry(st: State, save: Step, c: Cache, ids: seq<nat>, e: V4Entry)
    requires UniqueKeys(st.s.entries) && save.Save? && save.id !in st.handles && save.key != [] && save.full != map[]
    requires |save.rows| == |save.key| && st.s.c.bs > 0 && ids != []
    requires AllocBlocks(st.s.c, Pages(|save.key|, st.s.c.bs)) == Got(c, ids)
    requires e in Apply(st, save).s.entries && e.key == save.key
    ensures e.swa == ids && e.logits == save.logits && e.tokens == |save.key|
  {
    hide AllocBlocks, Insert, Remaining, SavedCache, RowsOf, UniqueKeys;
    var x := V4Entry(save.key, save.logits, if save.primary then save.slim else save.full, ids, ids, |save.key|,
                     save.primary);
    InsertEntries(st.s.(c := SavedCache(c, ids, save.rows)), x);
  }

  /**
   A saved prompt is hit for as long as its entry is in the store: any tokens that go on from it,
   and from no longer stored prompt, get its logits, and the restore writes its rows.
   */
  lemma SavedIsHit(st: State, save: Step, c: Cache, ids: seq<nat>, steps: seq<Step>, id: nat, tokens: Path,
                   buf: seq<Row>)
    requires Sound(st) && save.Save? && save.id !in st.handles && save.key != [] && save.full != map[] && st.s.c.bs > 0
    requires |save.rows| == |save.key| && AllocBlocks(st.s.c, Pages(|save.key|, st.s.c.bs)) == Got(c, ids)
    requires SafeRun(Apply(st, save), steps) && forall x :: x in steps ==> !Saves(x, save.key)
    requires var st2 := V4Rows.Run(Apply(st, save), steps);
      && id !in st2.handles && save.key <= tokens && (exists e :: e in st2.s.entries && e.key == save.key)
      && forall f :: f in st2.s.entries && f.key <= tokens ==> |f.key| <= |save.key|
    ensures var st2 := V4Rows.Run(Apply(st, save), steps);
      var r, st' := Best(st2.s.entries, tokens), Apply(st2, Hit(id, tokens));
      && r.Some? && r.value.key == save.key && r.value.logits == save.logits
      && id in st'.handles
      && var m := Min(|save.rows|, |buf|);
         Restored(st'.s.c, st'.handles[id].swa, r.value.tokens, buf) == save.rows[..m] + buf[m..]
  {
    hide Sound, Apply, AllocBlocks, Safe, Saves, RowsOf, Best, Restored, Pages, SafeRun;
    var st1 := Apply(st, save);
    var st2 := V4Rows.Run(st1, steps);
    var e :| e in st2.s.entries && e.key == save.key;
    ApplyOk(st, save) by { SaveIsSafe(st, save); }
    RunOk(st1, steps);
    OldEntries(st1, steps, e);
    SoundKeys(st);
    SoundKeys(st2);
    SomePages(st, |save.key|, c, ids);
    SavedEntry(st, save, c, ids, e);
    BestExactly(st2.s.entries, tokens, e);
    HitRestoresSaved(st, save, c, ids, steps, id, tokens, e, buf);
  }

  lemma SomePages(st: State, n: nat, c: Cache, ids: seq<nat>)
    requires Sound(st) && n > 0 && st.s.c.bs > 0 && AllocBlocks(st.s.c, Pages(n, st.s.c.bs)) == Got(c, ids)
    ensures ids != []
  {
    hide PagePool.Inv, Held, Owning, Twins, Fronts, Families, Levels, AllocBlocks;
    Strangers(st.s.entries, st.handles);
    AllocBlocksOk(st.s.c, Owning(st.s.entries, st.handles), Pages(n, st.s.c.bs));
    PagesPositive(n, st.s.c.bs);
  }
}
