/**
 The prefix store and the dual-pool handles as objects over a RadixCache, proved against the
 value functions of V4Prefix and V4Rows.
 */
module V4PrefixCacheImpl {
  import opened Prelude
  import opened Paging
  import opened PagePool
  import opened Allocator
  import opened RadixCacheImpl
  import opened V4Prefix
  import opened V4Rows

  // ---------------------------------------------------------------- handles

  /** Page tables of one sequence. */
  class DualPoolHandle {
    var swa: seq<nat>
    var comp: seq<nat>
    var n: nat

    ghost function View(): DualHandle
      reads this
    {
      DualHandle(swa, comp, n)
    }

    constructor (swa: seq<nat>, comp: seq<nat>, n: nat)
      ensures View() == DualHandle(swa, comp, n)
    {
      this.swa, this.comp, this.n := swa, comp, n;
    }
  }

  /** Pages for `n` tokens, one id list for both tables; none are needed for an empty prompt. */
  method AllocateDualPages(radix: RadixCache, n: nat) returns (ok: bool, h: DualPoolHandle)
    requires radix.Valid()
    modifies radix, radix.kv
    ensures radix.Valid() && fresh(h)
    ensures radix.bs > 0
    ensures AllocBlocks(old(radix.View()), Pages(n, radix.bs))
         == if ok then Got(radix.View(), h.swa) else Oom(radix.View())
    ensures ok ==> h.View() == DualHandle(h.swa, h.swa, n)
  {
    hide Shape, AllocBlocks, Rows2;
    ShapeSize(radix.View());
    PagesIsCeilDiv(n, radix.bs);
    var count := (n + radix.bs - 1) / radix.bs;
    var ids: seq<nat>;
    ok, ids := radix.AllocateBlocks(count);
    h := new DualPoolHandle(ids, ids, n);
  }

  /** Releases a handle once, through its first non-empty table, and empties it. */
  method ReleaseDualPages(radix: RadixCache, h: DualPoolHandle?)
    requires radix.Valid()
    modifies radix, radix.kv, h
    ensures radix.Valid()
    ensures radix.View() == if h == null then old(radix.View()) else ReleaseHandle(old(radix.View()), old(h.View()))
    ensures h != null ==> h.View() == DualHandle([], [], 0)
  {
    hide Shape, Release, Rows2;
    if h == null {
      return;
    }
    var ids := if h.swa != [] then h.swa else h.comp;
    if ids != [] {
      radix.ReleaseBlocks(ids);
    } else {
      ReleaseNothing(radix.View());
    }
    h.swa, h.comp, h.n := [], [], 0;
  }

  /** First write of a prompt: fresh pages for all its tokens, the given rows at their front. */
  method WritePrompt(radix: RadixCache, n: nat, rows: seq<Row>, ghost own: Owners) returns (ok: bool, h: DualPoolHandle)
    requires radix.Valid() && 0 < n && |rows| <= n
    requires Inv(radix.View(), own) && InFlight !in own && Victim !in own
    modifies radix, radix.kv
    ensures radix.Valid() && fresh(h) && radix.bs > 0
    ensures match AllocBlocks(old(radix.View()), Pages(n, radix.bs))
      case Oom(c) => !ok && radix.View() == c
      case Got(c, ids) =>
        && ok && h.View() == DualHandle(ids, ids, n)
        && Covers(c.kv, ids, c.bs, |rows|) && radix.View() == SavedCache(c, ids, rows)
  {
    hide Shape, AllocBlocks, Rows2, Write, Pages, Inv;
    ghost var c0 := radix.View();
    ok, h := AllocateDualPages(radix, n);
    if ok {
      ghost var c := radix.View();
      PagesMono(|rows|, n, radix.bs);
      ShapeGrid(c);
      PagesPositive(n, radix.bs);
      FreshCover(c0, own, n, c, h.swa);
      var wrote := radix.WriteKv(h.swa, 0, rows);
    }
  }

  /** Pages just allocated are pages of the pool, as many as asked. */
  lemma FreshCover(c0: Cache, own: Owners, n: nat, c: Cache, ids: seq<nat>)
    requires Inv(c0, own) && InFlight !in own && Victim !in own && c0.bs > 0
    requires AllocBlocks(c0, Pages(n, c0.bs)) == Got(c, ids)
    ensures TableOk(c.kv, ids) && |ids| == Pages(n, c0.bs)
  {
    hide Shape, ListsOk, Counted, Keeps, Calm, AllocBlocks, Pages;
    AllocBlocksOk(c0, own, Pages(n, c0.bs));
    InvTable(c, own[InFlight := ids], InFlight);
  }

  lemma ShapeGrid(c: Cache)
    requires Shape(c)
    ensures GridOk(c.kv, c.bs)
  {
  }

  /** Grows a handle's tables so that they cover `n` positions. */
  method EnsureCapacity(radix: RadixCache, h: DualPoolHandle, n: nat) returns (ok: bool)
    requires radix.Valid()
    modifies radix, radix.kv, h
    ensures radix.Valid() && radix.bs > 0 && old(radix.View()).bs > 0
    ensures (ok, radix.View(), h.View()) == GrowTables(old(radix.View()), old(h.View()), n)
  {
    hide Shape, AllocBlocks, Rows2, Pages;
    ShapeSize(radix.View());
    PagesIsCeilDiv(n, radix.bs);
    var need := (n + radix.bs - 1) / radix.bs;
    if need <= |h.swa| {
      return true;
    }
    var shared := h.comp == [] || h.comp == h.swa;
    var extra: seq<nat>;
    ok, extra := radix.AllocateBlocks(need - |h.swa|);
    if !ok {
      return;
    }
    h.swa := h.swa + extra;
    if shared {
      h.comp := h.swa;
    } else if |h.comp| < need {
      var more: seq<nat>;
      ok, more := radix.AllocateBlocks(need - |h.comp|);
      if ok {
        h.comp := h.comp + more;
      }
    }
  }

  /** Appends the row of position `pos`, taken from what the model holds, into the handle's pages. */
  method AppendFromModel(radix: RadixCache, h: DualPoolHandle, pos: int, rows: seq<Row>, ghost own: Owners,
                         ghost k: Owner)
    returns (wrote: bool)
    requires radix.Valid() && h.comp == h.swa
    requires Inv(radix.View(), own) && k in own && own[k] == h.swa && InFlight !in own && Victim !in own
    modifies radix, radix.kv, h
    ensures radix.Valid()
    ensures pos < 0 || rows == [] ==> !wrote && radix.View() == old(radix.View()) && h.View() == old(h.View())
    ensures pos >= 0 && rows != [] ==>
      && old(radix.View()).bs > 0
      && (radix.View(), h.View())
         == AppendRow(old(radix.View()), old(h.View()), pos, if |rows| <= pos then rows[|rows| - 1] else rows[pos])
      && (wrote <==> Grow(old(radix.View()), old(h.swa), pos + 1).Got?)
  {
    hide Shape, AllocBlocks, Rows2, Write, Pages, Inv, SlotOf, PageOf;
    if pos < 0 || rows == [] {
      return false;
    }
    ghost var c0 := radix.View();
    ShapeSize(c0);
    TwinsGrow(c0, h.View(), pos + 1);
    var ok := EnsureCapacity(radix, h, pos + 1);
    if !ok {
      return false;
    }
    ghost var c := radix.View();
    GrowCovers(c0, own, k, pos + 1);
    PagesPositive(pos + 1, radix.bs);
    var row := if |rows| <= pos then rows[|rows| - 1] else rows[pos];
    var done := radix.WriteKv(h.swa, pos, [row]);
    assert pos + |[row]| == pos + 1;
    assert done;
    if h.n < pos + 1 {
      h.n := pos + 1;
    }
    wrote := true;
  }

  /** After growing, the table of owner `k` covers the position. */
  lemma GrowCovers(c: Cache, own: Owners, k: Owner, n: nat)
    requires Inv(c, own) && k in own && InFlight !in own && Victim !in own && c.bs > 0 && Grow(c, own[k], n).Got?
    ensures var r := Grow(c, own[k], n); Covers(r.c.kv, r.ids, r.c.bs, n) && r.c.bs == c.bs
  {
    hide Shape, ListsOk, Counted, Keeps, Calm, AllocBlocks, Pages;
    if Pages(n, c.bs) <= |own[k]| {
      TableCovers(c, own, k, n);
    } else {
      var count := Pages(n, c.bs) - |own[k]|;
      AllocBlocksOk(c, own, count);
      var r := AllocBlocks(c, count);
      var own1 := own[InFlight := r.ids];
      KeepsSize(c, r.c, own);
      InvTable(r.c, own1, InFlight);
      InvTable(r.c, own1, k);
      assert own1[k] == own[k];
      InvEmpty(r.c, own1);
    }
  }

  /** Copies the first `n` rows of the pages over the front of the model's buffer. */
  method Restore(radix: RadixCache, h: DualPoolHandle, n: nat, buf: array<Row>) returns (restored: bool)
    requires radix.Valid() && TableOk(radix.View().kv, h.swa)
    modifies buf
    ensures buf[..] == old(Restored(radix.View(), h.swa, n, buf[..]))
    ensures restored <==> n > 0 && h.swa != [] && Pages(n, radix.bs) <= |h.swa|
  {
    hide Shape, Rows2;
    ghost var c := radix.View();
    ShapeGrid(c);
    if h.swa == [] || n == 0 {
      return false;
    }
    var ok, rows := radix.ReadRows(h.swa, n);
    if !ok {
      return false;
    }
    var m := Min(|rows|, buf.Length);
    forall i | 0 <= i < m {
      buf[i] := rows[i];
    }
    restored := true;
  }

  // ---------------------------------------------------------------- the store

  class V4PrefixCache {
    const cap: nat
    const radix: RadixCache
    var entries: seq<V4Entry>

    ghost function View(): Store
      reads this, radix, radix.kv
    {
      Store(radix.View(), entries, cap)
    }

    ghost predicate Valid()
      reads this, radix, radix.kv
    {
      radix.Valid()
    }

    constructor (radix: RadixCache, cap: nat)
      requires radix.Valid()
      ensures Valid() && this.radix == radix && View().c == radix.View() && entries == [] && this.cap == cap
    {
      this.radix, this.cap, entries := radix, cap, [];
    }

    method ReleaseEntryPages(e: V4Entry)
      requires Valid()
      modifies radix, radix.kv
      ensures Valid() && radix.View() == ReleaseEntry(old(radix.View()), e)
    {
      hide Shape, Release, Rows2;
      if e.comp != [] && e.comp != e.swa {
        if e.swa != [] {
          radix.ReleaseBlocks(e.swa);
        } else {
          ReleaseNothing(radix.View());
        }
        radix.ReleaseBlocks(e.comp);
      } else if e.swa != [] {
        radix.ReleaseBlocks(e.swa);
      } else {
        ReleaseNothing(radix.View());
      }
    }

    method Insert(e: V4Entry)
      requires Valid()
      modifies this`entries, radix, radix.kv
      ensures Valid() && View() == V4Prefix.Insert(old(View()), e)
    {
      hide Shape, Rows2, Fork, ReleaseEntry, IndexOf;
      if e.key == [] {
        return;
      }
      if e.buffers == map[] && !(e.primary && e.swa != []) {
        return;
      }
      var e' := e;
      if e.swa != [] {
        var swa := radix.ForkBlocks(e.swa);
        if e.comp != [] && e.comp != e.swa {
          var comp := radix.ForkBlocks(e.comp);
        } else {
          e' := e.(comp := swa);
        }
      }
      ghost var c := radix.View();
      assert c == ForkTables(old(radix.View()), e.swa, e.comp) && e' == Owned(e);
      var i := 0;
      while i < |entries|
        invariant 0 <= i <= |entries| && Valid() && radix.View() == c && entries == old(entries)
        invariant forall j :: 0 <= j < i ==> entries[j].key != e.key
      {
        if entries[i].key == e.key {
          FirstIndex(entries, e.key, i);
          ReleaseEntryPages(entries[i]);
          entries := entries[i := e'];
          return;
        }
        i := i + 1;
      }
      FirstIndex(entries, e.key, i);
      entries := entries + [e'];
      ghost var s1 := View();
      while |entries| > cap
        invariant Valid() && Trim(View()) == Trim(s1)
        decreases |entries|
      {
        var oldest := entries[0];
        entries := entries[1..];
        ReleaseEntryPages(oldest);
      }
    }

    /** Longest stored entry that is a prefix of the prompt. */
    method Match(tokens: Path) returns (n: nat, r: Option<V4Entry>)
      ensures r == Best(entries, tokens) && n == LenOf(r)
    {
      n, r := 0, None;
      var i := 0;
      while i < |entries|
        invariant 0 <= i <= |entries|
        invariant r == Best(entries[..i], tokens) && n == LenOf(r)
      {
        var e := entries[i];
        assert entries[..i + 1][..i] == entries[..i];
        if 0 < |e.key| <= |tokens| && tokens[..|e.key|] == e.key && |e.key| > n {
          n, r := |e.key|, Some(e);
        }
        i := i + 1;
      }
      assert entries[..|entries|] == entries;
    }

    /** Pages of a hit, forked for the sequence. */
    method ForkDualPoolForHit(e: V4Entry) returns (h: DualPoolHandle?)
      requires Valid()
      modifies radix`alloc
      ensures Valid() && (h != null ==> fresh(h))
      ensures (radix.View(), if h == null then None else Some(h.View())) == ForkForHit(old(radix.View()), e)
    {
      hide Shape, Rows2, Fork;
      if e.swa == [] {
        return null;
      }
      var swa := radix.ForkBlocks(e.swa);
      var comp := swa;
      if e.comp != [] && e.comp != e.swa {
        comp := radix.ForkBlocks(e.comp);
      }
      h := new DualPoolHandle(swa, comp, if e.tokens > 0 then e.tokens else |e.key|);
    }

    method Clear()
      requires Valid()
      modifies this`entries, radix, radix.kv
      ensures Valid() && View() == V4Prefix.Clear(old(View()))
    {
      hide Shape, Rows2, ReleaseEntry;
      var i := 0;
      ghost var s0 := View();
      while i < |entries|
        invariant 0 <= i <= |entries| && Valid() && entries == old(entries)
        invariant V4Prefix.Clear(View().(entries := entries[i..])) == V4Prefix.Clear(s0)
      {
        ReleaseEntryPages(entries[i]);
        i := i + 1;
      }
      entries := [];
    }
  }

  lemma FirstIndex(entries: seq<V4Entry>, key: Path, i: nat)
    requires i <= |entries| && (i < |entries| ==> entries[i].key == key)
    requires forall j :: 0 <= j < i ==> entries[j].key != key
    ensures IndexOf(entries, key) == i
  {
  }
}
