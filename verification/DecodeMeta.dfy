/**
 Page metadata for paged attention.  The general path recomputes the index lists for every
 forward; single-token decode keeps them in fixed buffers and refreshes only what changed.
 */
module DecodeMeta {
  import opened Prelude

  /** Page lists in compressed-row form, and the fill of each last page. */
  datatype Meta = Meta(indices: seq<nat>, indptr: seq<nat>, lasts: seq<nat>)

  function LastLen(len: nat, ps: nat): nat
    requires ps > 0
  {
    if SlotOf(len, ps) == 0 then ps else SlotOf(len, ps)
  }

  /** Metadata of the first `n` sequences, or none if one is empty or has too few pages. */
  ghost function MetaOf(tables: seq<seq<nat>>, lens: seq<nat>, ps: nat, n: nat): (r: Option<Meta>)
    requires ps > 0 && n <= |tables| && n <= |lens|
  {
    if n == 0 then Some(Meta([], [0], []))
    else match MetaOf(tables, lens, ps, n - 1)
      case None => None
      case Some(m) =>
        var bt, len := tables[n - 1], lens[n - 1];
        if len == 0 || Pages(len, ps) > |bt| then None
        else
          var idx := m.indices + bt[..Pages(len, ps)];
          Some(Meta(idx, m.indptr + [|idx|], m.lasts + [LastLen(len, ps)]))
  }

  /** Row `i` of the metadata lists exactly the pages of sequence `i`. */
  ghost predicate RowIs(m: Meta, i: nat, pages: seq<nat>) {
    && i + 1 < |m.indptr| && m.indptr[i] <= m.indptr[i + 1] <= |m.indices|
    && m.indices[m.indptr[i]..m.indptr[i + 1]] == pages
  }

  lemma {:induction false} MetaRows(tables: seq<seq<nat>>, lens: seq<nat>, ps: nat, n: nat)
    requires ps > 0 && n <= |tables| && n <= |lens| && MetaOf(tables, lens, ps, n).Some?
    ensures var m := MetaOf(tables, lens, ps, n).value;
      && |m.indptr| == n + 1 && |m.lasts| == n && m.indptr[n] == |m.indices|
      && forall i :: 0 <= i < n ==>
           0 < Pages(lens[i], ps) <= |tables[i]| && RowIs(m, i, tables[i][..Pages(lens[i], ps)])
           && m.lasts[i] == LastLen(lens[i], ps)
    decreases n
  {
    if n > 0 {
      MetaRows(tables, lens, ps, n - 1);
      var m0, m := MetaOf(tables, lens, ps, n - 1).value, MetaOf(tables, lens, ps, n).value;
      forall i | 0 <= i < n
        ensures RowIs(m, i, tables[i][..Pages(lens[i], ps)])
      {
        if i < n - 1 {
          assert RowIs(m0, i, tables[i][..Pages(lens[i], ps)]);
          assert m.indptr[i] == m0.indptr[i] && m.indptr[i + 1] == m0.indptr[i + 1];
          assert m.indices[m.indptr[i]..m.indptr[i + 1]] == m0.indices[m0.indptr[i]..m0.indptr[i + 1]];
        } else {
          assert m.indices[|m0.indices|..] == tables[i][..Pages(lens[i], ps)];
        }
      }
    }
  }

  /** There is metadata exactly when every sequence has a length and pages for it. */
  lemma {:induction false} MetaExactly(tables: seq<seq<nat>>, lens: seq<nat>, ps: nat, n: nat)
    requires ps > 0 && n <= |tables| && n <= |lens|
    ensures MetaOf(tables, lens, ps, n).Some?
       <==> forall i :: 0 <= i < n ==> lens[i] > 0 && |tables[i]| >= (lens[i] + ps - 1) / ps
    decreases n
  {
    hide Pages;
    if n > 0 {
      MetaExactly(tables, lens, ps, n - 1);
      PagesIsCeilDiv(lens[n - 1], ps);
    }
  }

  /** Pages before the last are full: page count and last fill add up to the length. */
  lemma LastFill(len: nat, ps: nat)
    requires ps > 0 && len > 0
    ensures Multiple(Pages(len, ps) - 1, ps) + LastLen(len, ps) == len
    ensures 0 < LastLen(len, ps) <= ps
  {
    Recompose(len - 1, ps);
    if SlotOf(len - 1, ps) + 1 == ps {
      Decompose(PageOf(len - 1, ps) + 1, 0, ps);
    } else {
      Decompose(PageOf(len - 1, ps), SlotOf(len - 1, ps) + 1, ps);
    }
  }

  /**
   The metadata addresses every cached position: position `j` of sequence `i` is found in row
   `i` on its own page, and the row's last page is filled up to the sequence length.
   */
  lemma MetaAddresses(tables: seq<seq<nat>>, lens: seq<nat>, ps: nat, n: nat, i: nat, j: nat)
    requires ps > 0 && n <= |tables| && n <= |lens| && MetaOf(tables, lens, ps, n).Some? && i < n && j < lens[i]
    ensures var m := MetaOf(tables, lens, ps, n).value;
      && i + 1 < |m.indptr| && m.indptr[i] + PageOf(j, ps) < m.indptr[i + 1] <= |m.indices|
      && PageOf(j, ps) < |tables[i]| && m.indices[m.indptr[i] + PageOf(j, ps)] == tables[i][PageOf(j, ps)]
      && i < |m.lasts| && Multiple(m.indptr[i + 1] - m.indptr[i] - 1, ps) + m.lasts[i] == lens[i]
  {
    hide MetaOf, Pages, PageOf, SlotOf, Multiple, LastLen;
    MetaRows(tables, lens, ps, n);
    var m := MetaOf(tables, lens, ps, n).value;
    var row := tables[i][..Pages(lens[i], ps)];
    assert RowIs(m, i, row);
    PageInRange(j, lens[i], ps);
    LastFill(lens[i], ps);
    assert m.indices[m.indptr[i]..m.indptr[i + 1]][PageOf(j, ps)] == row[PageOf(j, ps)];
  }

  /** The list-building loop of the general path. */
  method PageMetadata(tables: seq<seq<nat>>, lens: seq<nat>, ps: nat) returns (ok: bool, m: Meta)
    requires ps > 0 && |tables| == |lens|
    ensures MetaOf(tables, lens, ps, |tables|) == if ok then Some(m) else None
  {
    var indices: seq<nat>, indptr: seq<nat>, lasts: seq<nat> := [], [0], [];
    var i := 0;
    while i < |tables|
      invariant 0 <= i <= |tables|
      invariant MetaOf(tables, lens, ps, i) == Some(Meta(indices, indptr, lasts))
    {
      var bt, len := tables[i], lens[i];
      PagesIsCeilDiv(len, ps);
      PageIsDiv(len, ps);
      if len == 0 || |bt| < (len + ps - 1) / ps {
        NoneStays(tables, lens, ps, i + 1, |tables|);
        return false, Meta([], [], []);
      }
      indices := indices + bt[..(len + ps - 1) / ps];
      indptr := indptr + [|indices|];
      lasts := lasts + [if len % ps == 0 then ps else len % ps];
      i := i + 1;
    }
    return true, Meta(indices, indptr, lasts);
  }

  lemma {:induction false} NoneStays(tables: seq<seq<nat>>, lens: seq<nat>, ps: nat, i: nat, n: nat)
    requires ps > 0 && i <= n <= |tables| == |lens| && MetaOf(tables, lens, ps, i) == None
    ensures MetaOf(tables, lens, ps, n) == None
    decreases n
  {
    if i < n {
      NoneStays(tables, lens, ps, i, n - 1);
    }
  }

  /** 8, 16, 32, ... */
  ghost predicate Doubled(cap: nat) {
    cap == 8 || (cap > 8 && cap % 2 == 0 && Doubled(cap / 2))
  }

  /** Capacity of new buffers: the next step of 8, 16, 32, ... that holds the request and the ceiling. */
  method NextCapacity(need: nat) returns (cap: nat)
    ensures cap >= need && cap >= 8
    ensures cap == 8 || cap < 2 * need
    ensures Doubled(cap)
  {
    cap := 8;
    while cap < need
      invariant cap >= 8 && (cap == 8 || cap < 2 * need) && Doubled(cap)
      decreases need - cap
    {
      cap := cap * 2;
    }
  }

  /** Fixed decode buffers: allocated once, refilled only when the page list changes. */
  class DecodeBuffers {
    const ceiling: nat
    var cap: nat
    var gen: nat
    var pageIndices: array<nat>
    var kvIndices: array<nat>
    var host: seq<nat>          // page list last copied into the buffers
    var nPages: nat
    var lastLen: nat
    var start: nat
    var kvLast: nat
    var fast: bool
    var general: Meta           // metadata of the last general forward

    ghost predicate Valid()
      reads this, pageIndices, kvIndices
    {
      && pageIndices.Length == cap && kvIndices.Length == cap && pageIndices != kvIndices
      && |host| <= cap && pageIndices[..|host|] == host && kvIndices[..|host|] == host
      && nPages <= |host|
    }

    /** The page view the attention kernels read after begin_forward. */
    ghost function Active(): Meta
      requires Valid()
      reads this, pageIndices, kvIndices
    {
      if fast then Meta(pageIndices[..nPages], [0, nPages], [lastLen]) else general
    }

    constructor (ceiling: nat)
      ensures Valid() && gen == 0 && cap == 0 && !fast && this.ceiling == ceiling
      ensures fresh(pageIndices) && fresh(kvIndices)
    {
      this.ceiling := ceiling;
      cap, gen, host, nPages, lastLen, start, kvLast, fast := 0, 0, [], 0, 0, 0, 0, false;
      pageIndices := new nat[0];
      kvIndices := new nat[0];
      general := Meta([], [0], []);
    }

    /** Reallocates when the capacity is too small; a new generation means new buffers. */
    method EnsureStatic(need: nat)
      requires Valid()
      modifies this
      ensures Valid() && cap >= need && general == old(general) && fast == old(fast)
      ensures gen == old(gen) <==> old(gen) > 0 && old(cap) >= need
      ensures gen == old(gen) ==>
        pageIndices == old(pageIndices) && kvIndices == old(kvIndices) && cap == old(cap) && host == old(host)
      ensures gen != old(gen) ==>
        gen == old(gen) + 1 && fresh(pageIndices) && fresh(kvIndices) && host == [] && cap >= ceiling
    {
      if gen > 0 && cap >= need {
        return;
      }
      cap := NextCapacity(if need > ceiling then need else ceiling);
      gen := gen + 1;
      host, nPages := [], 0;
      pageIndices := new nat[cap](_ => 0);
      kvIndices := new nat[cap](_ => 0);
    }

    /** Copies the page list into both buffers unless it is the one already there. */
    method Refill(pages: seq<nat>)
      requires Valid() && |pages| <= cap
      modifies this`host, this`nPages, pageIndices, kvIndices
      ensures Valid() && host == pages
    {
      nPages := 0;
      if pages != host {
        forall i | 0 <= i < |pages| {
          pageIndices[i] := pages[i];
        }
        forall i | 0 <= i < |pages| {
          kvIndices[i] := pages[i];
        }
        host := pages;
      }
    }

    /** begin_forward: whatever forwards came before, the view equals the recomputed metadata. */
    method BeginForward(tables: seq<seq<nat>>, cached: seq<nat>, qlens: seq<nat>, decode: bool, ps: nat)
      returns (ok: bool)
      requires Valid() && ps > 0 && |tables| == |cached| == |qlens|
      modifies this, pageIndices, kvIndices
      ensures Valid()
      ensures var lens := Sums(cached, qlens);
        MetaOf(tables, lens, ps, |tables|) == if ok then Some(Active()) else None
      ensures gen == old(gen) ==> pageIndices == old(pageIndices) && cap == old(cap)
      ensures gen != old(gen) ==> gen == old(gen) + 1 && fresh(pageIndices)
      ensures fast <==> decode && |tables| == 1 && qlens[0] == 1
      ensures gen == old(gen) <==> !ok || !fast || (old(gen) > 0 && |tables[0]| <= old(cap))
      ensures ok && fast ==>
        && |tables| == 1 && gen > 0 && nPages <= cap
        && 0 < nPages <= |tables[0]| && kvIndices[..nPages] == pageIndices[..nPages] == tables[0][..nPages]
        && start == cached[0] && kvLast == SlotOf(start, ps)
    {
      hide SlotOf, PageOf, Pages, MetaOf, LastLen;
      var lens := Sums(cached, qlens);
      fast := decode && |tables| == 1 && qlens[0] == 1;
      if fast {
        SingleMeta(tables, lens, ps);
        ok := PlanDecode(tables[0], cached[0], lens[0], ps);
      } else {
        ok, general := PageMetadata(tables, lens, ps);
      }
    }

    /** The single-token path: only what changed since the last forward is written. */
    method PlanDecode(bt: seq<nat>, cachedLen: nat, len: nat, ps: nat) returns (ok: bool)
      requires Valid() && ps > 0 && fast && len > 0
      modifies this, pageIndices, kvIndices
      ensures Valid() && fast
      ensures ok <==> Pages(len, ps) <= |bt|
      ensures ok ==>
        && Active() == Meta(bt[..Pages(len, ps)], [0, Pages(len, ps)], [LastLen(len, ps)])
        && gen > 0 && 0 < nPages == Pages(len, ps) <= cap
        && kvIndices[..nPages] == pageIndices[..nPages] == bt[..nPages]
        && start == cachedLen && kvLast == SlotOf(start, ps)
      ensures gen == old(gen) ==> pageIndices == old(pageIndices) && cap == old(cap)
      ensures gen != old(gen) ==> gen == old(gen) + 1 && fresh(pageIndices)
      ensures gen == old(gen) <==> !ok || (old(gen) > 0 && |bt| <= old(cap))
    {
      hide SlotOf, PageOf, Pages, LastLen;
      PagesPositive(len, ps);
      PagesIsCeilDiv(len, ps);
      PageIsDiv(cachedLen, ps);
      LastLenIs(len, ps);
      var n := (len + ps - 1) / ps;
      if |bt| < n {
        return false;
      }
      EnsureStatic(|bt|);
      Refill(bt[..n]);
      nPages := n;
      lastLen := if len % ps == 0 then ps else len % ps;
      start := cachedLen;
      kvLast := if start > 0 then start % ps else 0;
      ok := true;
    }
  }

  /** Total lengths: what is cached plus what this forward adds. */
  function Sums(cached: seq<nat>, qlens: seq<nat>): (lens: seq<nat>)
    requires |cached| == |qlens|
    ensures |lens| == |cached| && forall i :: 0 <= i < |lens| ==> lens[i] == cached[i] + qlens[i]
  {
    seq(|cached|, i requires 0 <= i < |cached| => cached[i] + qlens[i])
  }

  lemma SingleMeta(tables: seq<seq<nat>>, lens: seq<nat>, ps: nat)
    requires ps > 0 && |tables| == |lens| == 1 && lens[0] > 0
    ensures MetaOf(tables, lens, ps, 1)
         == if Pages(lens[0], ps) > |tables[0]| then None
            else Some(Meta(tables[0][..Pages(lens[0], ps)], [0, Pages(lens[0], ps)], [LastLen(lens[0], ps)]))
  {
    var p := Pages(lens[0], ps);
    assert MetaOf(tables, lens, ps, 0) == Some(Meta([], [0], []));
    if p <= |tables[0]| {
      var idx: seq<nat> := [] + tables[0][..p];
      assert idx == tables[0][..p];
      assert [0] + [p] == [0, p];
      assert [] + [LastLen(lens[0], ps)] == [LastLen(lens[0], ps)];
      assert MetaOf(tables, lens, ps, 1) == Some(Meta(idx, [0] + [|idx|], [] + [LastLen(lens[0], ps)]));
    }
  }

  lemma LastLenIs(len: nat, ps: nat)
    requires ps > 0
    ensures LastLen(len, ps) == if len % ps == 0 then ps else len % ps
  {
    PageIsDiv(len, ps);
  }
}
