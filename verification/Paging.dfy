/**
 Paged KV storage as a refinement of a flat array.

 A grid holds `|kv|` physical pages of `bs` rows; a block table maps a logical page to a
 physical page.  `Flat` is the logical view and `Write` the row-by-row meaning of a write; the
 span-by-span loops of the engine are proved against them in the class RadixCache.
 */
module Paging {
  import opened Prelude

  type Grid = seq<seq<Row>>

  ghost predicate GridOk(kv: Grid, bs: nat) {
    bs > 0 && forall b :: 0 <= b < |kv| ==> |kv[b]| == bs
  }

  ghost predicate TableOk(kv: Grid, table: seq<nat>) {
    forall k :: 0 <= k < |table| ==> table[k] < |kv|
  }

  /** `table` has a valid page for each of the first `n` positions. */
  ghost predicate Covers(kv: Grid, table: seq<nat>, bs: nat, n: nat) {
    GridOk(kv, bs) && TableOk(kv, table) && Pages(n, bs) <= |table|
  }

  ghost function Cell(kv: Grid, table: seq<nat>, bs: nat, i: nat): Row
    requires Covers(kv, table, bs, i + 1)
  {
    kv[table[PageOf(i, bs)]][SlotOf(i, bs)]
  }

  /** The first `n` logical rows addressed through `table`. */
  ghost function Flat(kv: Grid, table: seq<nat>, bs: nat, n: nat): (rows: seq<Row>)
    requires Covers(kv, table, bs, n)
    ensures |rows| == n
    ensures forall i :: 0 <= i < n ==> Pages(i + 1, bs) <= |table| && rows[i] == Cell(kv, table, bs, i)
  {
    PagesMonoAll(n, bs);
    seq(n, i requires 0 <= i < n => Cell(kv, table, bs, i))
  }

  ghost function SetCell(kv: Grid, b: nat, s: nat, r: Row): Grid
    requires b < |kv| && s < |kv[b]|
  {
    kv[b := kv[b][s := r]]
  }

  /** Writes `src` to logical positions `start, start + 1, ...`, one row after the other. */
  ghost function Write(kv: Grid, table: seq<nat>, bs: nat, start: nat, src: seq<Row>): (kv': Grid)
    requires Covers(kv, table, bs, start + |src|)
    ensures GridOk(kv', bs) && |kv'| == |kv|
    decreases |src|
  {
    if src == [] then kv
    else
      var n := |src| - 1;
      PagesMono(start + n, start + |src|, bs);
      SetCell(Write(kv, table, bs, start, src[..n]), table[PageOf(start + n, bs)], SlotOf(start + n, bs), src[n])
  }

  /** Pages that the written positions do not use keep every row. */
  lemma {:induction false} WriteFrame(kv: Grid, table: seq<nat>, bs: nat, start: nat, src: seq<Row>, b: nat)
    requires Covers(kv, table, bs, start + |src|) && b < |kv|
    requires forall k :: PageOf(start, bs) <= k < Pages(start + |src|, bs) ==> table[k] != b
    ensures Write(kv, table, bs, start, src)[b] == kv[b]
    decreases |src|
  {
    if src != [] {
      var n := |src| - 1;
      PagesMono(start + n, start + |src|, bs);
      WriteFrame(kv, table, bs, start, src[..n], b);
      PageMono(start, start + n, bs);
      PageInRange(start + n, start + |src|, bs);
    }
  }

  /** Every cell outside the written positions is unchanged, page by page and slot by slot. */
  lemma {:induction false} WriteOtherCells(kv: Grid, table: seq<nat>, bs: nat, start: nat, src: seq<Row>, b: nat,
                                           s: nat)
    requires Covers(kv, table, bs, start + |src|) && b < |kv| && s < bs
    requires forall i :: start <= i < start + |src| && PageOf(i, bs) < |table| ==>
               table[PageOf(i, bs)] != b || SlotOf(i, bs) != s
    ensures Write(kv, table, bs, start, src)[b][s] == kv[b][s]
    decreases |src|
  {
    if src != [] {
      var n := |src| - 1;
      PagesMono(start + n, start + |src|, bs);
      WriteOtherCells(kv, table, bs, start, src[..n], b, s);
    }
  }

  /** Logical positions are distinct cells when the table lists no page twice. */
  lemma CellsDistinct(table: seq<nat>, bs: nat, i: nat, j: nat)
    requires bs > 0 && NoDup(table) && i != j
    requires PageOf(i, bs) < |table| && PageOf(j, bs) < |table|
    ensures table[PageOf(i, bs)] != table[PageOf(j, bs)] || SlotOf(i, bs) != SlotOf(j, bs)
  {
    Recompose(i, bs);
    Recompose(j, bs);
  }

  lemma {:induction false} WriteAt(kv: Grid, table: seq<nat>, bs: nat, start: nat, src: seq<Row>, i: nat)
    requires Covers(kv, table, bs, start + |src|) && NoDup(table)
    requires Pages(i + 1, bs) <= |table|
    ensures Cell(Write(kv, table, bs, start, src), table, bs, i)
         == if start <= i < start + |src| then src[i - start] else Cell(kv, table, bs, i)
    decreases |src|
  {
    if src != [] {
      var n := |src| - 1;
      PagesMono(start + n, start + |src|, bs);
      WriteAt(kv, table, bs, start, src[..n], i);
      if i != start + n {
        CellsDistinct(table, bs, i, start + n);
      }
    }
  }

  /** Writing then reading through a duplicate-free table is a flat-array update. */
  lemma WriteThenRead(kv: Grid, table: seq<nat>, bs: nat, start: nat, src: seq<Row>, n: nat)
    requires Covers(kv, table, bs, n) && Covers(kv, table, bs, start + |src|)
    requires NoDup(table) && start + |src| <= n
    ensures var was := Flat(kv, table, bs, n);
            Flat(Write(kv, table, bs, start, src), table, bs, n) == was[..start] + src + was[start + |src|..]
  {
    hide Write, PageOf, SlotOf, Pages, NoDup;
    var kv' := Write(kv, table, bs, start, src);
    var was, now := Flat(kv, table, bs, n), Flat(kv', table, bs, n);
    var want := was[..start] + src + was[start + |src|..];
    forall i | 0 <= i < n
      ensures now[i] == want[i]
    {
      PagesMono(i + 1, n, bs);
      WriteAt(kv, table, bs, start, src, i);
    }
    assert now == want;
  }

  /** Two tables whose pages agree on the first `n` positions read the same rows. */
  lemma FlatAgree(kv: Grid, kv': Grid, t: seq<nat>, t': seq<nat>, bs: nat, n: nat)
    requires Covers(kv, t, bs, n) && Covers(kv', t', bs, n)
    requires forall k :: 0 <= k < Pages(n, bs) ==> kv[t[k]] == kv'[t'[k]]
    ensures Flat(kv, t, bs, n) == Flat(kv', t', bs, n)
  {
    forall i | 0 <= i < n
      ensures Flat(kv, t, bs, n)[i] == Flat(kv', t', bs, n)[i]
    {
      PageInRange(i, n, bs);
    }
  }

  lemma FlatPrefix(kv: Grid, table: seq<nat>, bs: nat, n: nat, m: nat)
    requires Covers(kv, table, bs, n) && m <= n
    ensures Covers(kv, table, bs, m)
    ensures Flat(kv, table, bs, n)[..m] == Flat(kv, table, bs, m)
  {
    PagesMono(m, n, bs);
  }

  // ---- the gather form of a read: index_select, reshape, truncate ----

  /** Concatenation of the listed pages. */
  function Gather(kv: Grid, table: seq<nat>): (rows: seq<Row>)
    requires forall k :: 0 <= k < |table| ==> table[k] < |kv|
  {
    if table == [] then [] else Gather(kv, table[..|table| - 1]) + kv[table[|table| - 1]]
  }

  lemma {:induction false} GatherAt(kv: Grid, table: seq<nat>, bs: nat)
    requires GridOk(kv, bs) && TableOk(kv, table)
    ensures |Gather(kv, table)| == Multiple(|table|, bs)
    ensures forall i :: 0 <= i < Multiple(|table|, bs) ==>
              PageOf(i, bs) < |table| && Gather(kv, table)[i] == kv[table[PageOf(i, bs)]][SlotOf(i, bs)]
  {
    if table != [] {
      var k := |table| - 1;
      GatherAt(kv, table[..k], bs);
      forall i | 0 <= i < Multiple(|table|, bs)
        ensures PageOf(i, bs) < |table| && Gather(kv, table)[i] == kv[table[PageOf(i, bs)]][SlotOf(i, bs)]
      {
        if i >= Multiple(k, bs) {
          Decompose(k, i - Multiple(k, bs), bs);
        }
      }
    }
  }

  /** Gathering whole pages and truncating reads exactly the logical rows. */
  lemma GatherIsFlat(kv: Grid, table: seq<nat>, bs: nat, n: nat)
    requires Covers(kv, table, bs, n)
    ensures n <= |Gather(kv, table)| && Gather(kv, table)[..n] == Flat(kv, table, bs, n)
  {
    GatherAt(kv, table, bs);
    if n > Multiple(|table|, bs) {
      PagesMono(Multiple(|table|, bs) + 1, n, bs);
      PagesOfStart(|table|, bs);
      Decompose(|table|, 0, bs);
    }
  }

  // ---- spans ----

  /** Fills slots `slot ..` of page `b` with `src`. */
  ghost function Fill(kv: Grid, b: nat, slot: nat, src: seq<Row>): (kv': Grid)
    requires b < |kv| && slot + |src| <= |kv[b]|
    ensures |kv'| == |kv|
  {
    kv[b := kv[b][..slot] + src + kv[b][slot + |src|..]]
  }

  lemma WriteSnoc(kv: Grid, table: seq<nat>, bs: nat, start: nat, src: seq<Row>, n: nat)
    requires n < |src| && Covers(kv, table, bs, start + n + 1)
    ensures Covers(kv, table, bs, start + n)
    ensures Write(kv, table, bs, start, src[..n + 1])
         == SetCell(Write(kv, table, bs, start, src[..n]), table[PageOf(start + n, bs)], SlotOf(start + n, bs), src[n])
  {
    PagesMono(start + n, start + n + 1, bs);
    assert src[..n + 1][..n] == src[..n];
  }

  /** One span copy is the same as writing its rows one by one. */
  lemma {:induction false} SpanIsWrite(kv: Grid, table: seq<nat>, bs: nat, start: nat, src: seq<Row>, t: nat, span: nat)
    requires Covers(kv, table, bs, start + t + span)
    requires 0 < span && t + span <= |src| && SlotOf(start + t, bs) + span <= bs
    ensures Covers(kv, table, bs, start + t) && PageOf(start + t, bs) < |table|
    ensures Write(kv, table, bs, start, src[..t + span])
         == Fill(Write(kv, table, bs, start, src[..t]), table[PageOf(start + t, bs)], SlotOf(start + t, bs),
                 src[t..t + span])
    decreases span
  {
    hide Write, PageOf, SlotOf;
    var n := t + span - 1;
    WriteSnoc(kv, table, bs, start, src, n);
    PagesMono(start + t, start + n, bs);
    SpanInPage(start + t, span - 1, bs);
    var b, slot := table[PageOf(start + t, bs)], SlotOf(start + t, bs);
    var before := Write(kv, table, bs, start, src[..t]);
    if span > 1 {
      SpanIsWrite(kv, table, bs, start, src, t, span - 1);
      assert t + (span - 1) == n;
    } else {
      assert Fill(before, b, slot, [])[b] == before[b];
      assert src[t..n] == [];
    }
    FillSnoc(before, b, slot, src[t..n], src[n]);
    assert src[t..t + span] == src[t..n] + [src[n]];
  }

  lemma FillSnoc(kv: Grid, b: nat, slot: nat, src: seq<Row>, r: Row)
    requires b < |kv| && slot + |src| < |kv[b]|
    ensures Fill(kv, b, slot, src + [r]) == SetCell(Fill(kv, b, slot, src), b, slot + |src|, r)
  {
    assert Fill(kv, b, slot, src + [r])[b] == SetCell(Fill(kv, b, slot, src), b, slot + |src|, r)[b];
  }
}
