/**
 The footer page layout of packed KV tokens, and the index remap that addresses it: data bytes
 of all tokens of a page first, their scale bytes in a footer.
 */
module FooterPages {
  import opened Prelude

  type Byte = bv8

  const DATA := 576       // nope and rope bytes of a token
  const SCALE := 8        // seven scales and one pad byte
  const PACKED := 584

  // ---------------------------------------------------------------- layout of one page

  /** Physical offset of byte `j` of token slot `slot` on a page of `s` tokens. */
  function Offset(s: nat, slot: nat, j: nat): nat {
    if j < DATA then slot * DATA + j else s * DATA + slot * SCALE + (j - DATA)
  }

  /** Token slot and byte stored at a physical offset. */
  function Locate(s: nat, o: nat): (nat, nat) {
    if o < s * DATA then (o / DATA, o % DATA)
    else ((o - s * DATA) / SCALE, DATA + (o - s * DATA) % SCALE)
  }

  /** The layout is a bijection between the (slot, byte) pairs and the bytes of a page. */
  lemma OffsetInRange(s: nat, slot: nat, j: nat)
    requires slot < s && j < PACKED
    ensures Offset(s, slot, j) < s * PACKED && Locate(s, Offset(s, slot, j)) == (slot, j)
  {
  }

  lemma LocateInRange(s: nat, o: nat)
    requires o < s * PACKED
    ensures var (slot, j) := Locate(s, o); slot < s && j < PACKED && Offset(s, slot, j) == o
  {
  }

  lemma LayoutBijection(s: nat)
    ensures forall slot, j :: 0 <= slot < s && 0 <= j < PACKED ==>
              Offset(s, slot, j) < s * PACKED && Locate(s, Offset(s, slot, j)) == (slot, j)
    ensures forall o :: 0 <= o < s * PACKED ==>
              Locate(s, o).0 < s && Locate(s, o).1 < PACKED && Offset(s, Locate(s, o).0, Locate(s, o).1) == o
  {
    forall slot: nat, j: nat | slot < s && j < PACKED
      ensures Offset(s, slot, j) < s * PACKED && Locate(s, Offset(s, slot, j)) == (slot, j)
    {
      OffsetInRange(s, slot, j);
    }
    forall o: nat | o < s * PACKED
      ensures Locate(s, o).0 < s && Locate(s, o).1 < PACKED && Offset(s, Locate(s, o).0, Locate(s, o).1) == o
    {
      LocateInRange(s, o);
    }
  }

  // ---------------------------------------------------------------- pages

  ghost predicate TokensOk(tokens: seq<seq<Byte>>) {
    forall t :: 0 <= t < |tokens| ==> |tokens[t]| == PACKED
  }

  function Zeros(n: nat): (z: seq<Byte>)
    ensures |z| == n && forall i :: 0 <= i < n ==> z[i] == 0
  {
    seq(n, _ => 0)
  }

  /** Tokens filled up with zero tokens to whole pages. */
  function Padded(tokens: seq<seq<Byte>>, s: nat): (r: seq<seq<Byte>>)
    requires s > 0
    ensures |tokens| <= |r| && r[..|tokens|] == tokens
    ensures forall t :: |tokens| <= t < |r| ==> r[t] == Zeros(PACKED)
  {
    tokens + seq((s - |tokens| % s) % s, _ => Zeros(PACKED))
  }

  /** Whole pages, fewer than one page of padding, and none when the tokens fill their pages. */
  lemma PaddedSize(tokens: seq<seq<Byte>>, s: nat)
    requires s > 0
    ensures |Padded(tokens, s)| == Multiple(Pages(|tokens|, s), s) < |tokens| + s
    ensures Pages(|tokens|, s) == |Padded(tokens, s)| / s
  {
    hide Pages, Multiple, PageOf, SlotOf;
    PadLength(|tokens|, s);
    StartDiv(Pages(|tokens|, s), s);
  }

  lemma StartDiv(k: nat, s: nat)
    requires s > 0
    ensures Multiple(k, s) / s == k
  {
    Decompose(k, 0, s);
    PageIsDiv(Multiple(k, s), s);
  }

  lemma PadLength(n: nat, s: nat)
    requires s > 0
    ensures n + (s - n % s) % s == Multiple(Pages(n, s), s) < n + s
  {
    hide Pages, PageOf, SlotOf;
    PageIsDiv(n, s);
    Recompose(n, s);
    var q, r := PageOf(n, s), SlotOf(n, s);
    if r == 0 {
      AlignedPages(n, s);
      WholeMod(s);
    } else {
      SmallMod(s - r, s);
      Decompose(q, r - 1, s);
      PagesFromPrevious(n, s);
      assert Multiple(q + 1, s) == Multiple(q, s) + s;
    }
  }

  lemma PagesFromPrevious(n: nat, s: nat)
    requires s > 0 && n > 0
    ensures Pages(n, s) == PageOf(n - 1, s) + 1
  {
  }

  lemma WholeMod(s: nat)
    requires s > 0
    ensures s % s == 0
  {
  }

  lemma SmallMod(a: nat, s: nat)
    requires a < s
    ensures a % s == a
  {
  }

  /** The physical pages hold every byte of the padded tokens at its place. */
  ghost predicate Holds(pages: seq<seq<Byte>>, tokens: seq<seq<Byte>>, s: nat) {
    && s > 0 && |tokens| == Multiple(|pages|, s)
    && (forall p :: 0 <= p < |pages| ==> |pages[p]| == s * PACKED)
    && (forall t, j :: 0 <= t < |tokens| && 0 <= j < PACKED ==> ByteAt(pages, s, t, j) == Get(tokens, t, j))
  }

  ghost function Get(tokens: seq<seq<Byte>>, t: nat, j: nat): Byte {
    if t < |tokens| && j < |tokens[t]| then tokens[t][j] else 0
  }

  /** Byte `j` of token `t`, read through the layout. */
  ghost function ByteAt(pages: seq<seq<Byte>>, s: nat, t: nat, j: nat): Byte
    requires s > 0
  {
    var p, o := PageOf(t, s), Offset(s, SlotOf(t, s), j);
    if p < |pages| && o < |pages[p]| then pages[p][o] else 0
  }

  datatype PagesResult = Paged(pages: seq<seq<Byte>>) | ShapeError

  /** One page: data of all its tokens, then their scales. */
  method FillPage(rows: seq<seq<Byte>>) returns (page: seq<Byte>)
    requires TokensOk(rows)
    ensures |page| == |rows| * PACKED
    ensures forall slot, j :: 0 <= slot < |rows| && 0 <= j < PACKED ==>
              Offset(|rows|, slot, j) < |page| && page[Offset(|rows|, slot, j)] == rows[slot][j]
  {
    var s := |rows|;
    var physical := new Byte[s * PACKED];
    forall o | 0 <= o < s * DATA {
      physical[o] := rows[o / DATA][o % DATA];
    }
    forall o | s * DATA <= o < s * PACKED {
      physical[o] := rows[(o - s * DATA) / SCALE][DATA + (o - s * DATA) % SCALE];
    }
    page := physical[..];
    forall slot: nat, j: nat | slot < s && j < PACKED
      ensures Offset(s, slot, j) < s * PACKED && page[Offset(s, slot, j)] == rows[slot][j]
    {
      OffsetInRange(s, slot, j);
    }
  }

  /** Packed tokens to footer pages; a token of another width is refused. */
  method ToPagedHnd(tokens: seq<seq<Byte>>, s: nat) returns (r: PagesResult)
    requires s > 0
    ensures r.Paged? <==> TokensOk(tokens)
    ensures r.Paged? ==> |r.pages| == Pages(|tokens|, s) && Holds(r.pages, Padded(tokens, s), s)
  {
    if t :| 0 <= t < |tokens| && |tokens[t]| != PACKED {
      return ShapeError;
    }
    var padded := Padded(tokens, s);
    PaddedSize(tokens, s);
    var n := |padded| / s;
    var pages: seq<seq<Byte>> := [];
    var p, at := 0, 0;
    while p < n
      invariant 0 <= p <= n && |pages| == p && at == Multiple(p, s) <= |padded|
      invariant Holds(pages, padded[..at], s)
    {
      StartMono(p + 1, n, s);
      var page := FillPage(padded[at..at + s]);
      HoldsNext(pages, padded, s, p, page);
      pages := pages + [page];
      p, at := p + 1, at + s;
    }
    assert padded[..at] == padded;
    r := Paged(pages);
  }

  lemma HoldsNext(pages: seq<seq<Byte>>, padded: seq<seq<Byte>>, s: nat, p: nat, page: seq<Byte>)
    requires s > 0 && |pages| == p && Multiple(p + 1, s) <= |padded|
    requires Holds(pages, padded[..Multiple(p, s)], s) && |page| == s * PACKED
    requires forall slot, j :: 0 <= slot < s && 0 <= j < PACKED ==>
               Offset(s, slot, j) < |page| && page[Offset(s, slot, j)] == Get(padded, Multiple(p, s) + slot, j)
    ensures Holds(pages + [page], padded[..Multiple(p + 1, s)], s)
  {
    var at := Multiple(p, s);
    forall t: nat, j: nat | t < at + s && j < PACKED
      ensures ByteAt(pages + [page], s, t, j) == Get(padded[..at + s], t, j)
    {
      if t < at {
        assert ByteAt(pages, s, t, j) == Get(padded[..at], t, j);
        PageBelow(t, p, s);
      } else {
        Decompose(p, t - at, s);
      }
    }
  }

  lemma PageBelow(t: nat, p: nat, s: nat)
    requires s > 0 && t < Multiple(p, s)
    ensures PageOf(t, s) < p
  {
    PageInRange(t, Multiple(p, s), s);
    PagesOfStart(p, s);
  }

  /**
   What a page looks like: the data bytes of its tokens one after the other, then, behind the last
   of them, the scale bytes of its tokens one after the other.
   */
  lemma FooterBehindData(pages: seq<seq<Byte>>, tokens: seq<seq<Byte>>, s: nat, p: nat, slot: nat)
    requires Holds(pages, tokens, s) && TokensOk(tokens) && p < |pages| && slot < s
    ensures Multiple(p, s) + slot < |tokens|
    ensures (slot + 1) * 576 <= s * 576 && s * 576 + (slot + 1) * 8 <= |pages[p]|
    ensures pages[p][slot * 576..(slot + 1) * 576] == tokens[Multiple(p, s) + slot][..576]
    ensures pages[p][s * 576 + slot * 8..s * 576 + (slot + 1) * 8] == tokens[Multiple(p, s) + slot][576..584]
  {
    var t := Multiple(p, s) + slot;
    StartMono(p + 1, |pages|, s);
    Decompose(p, slot, s);
    var page, tok := pages[p], tokens[t];
    assert (slot + 1) * 576 <= s * 576 && (slot + 1) * 8 <= s * 8;
    var data, scales := page[slot * 576..(slot + 1) * 576], page[s * 576 + slot * 8..s * 576 + (slot + 1) * 8];
    forall j | 0 <= j < 576
      ensures data[j] == tok[..576][j]
    {
      assert ByteAt(pages, s, t, j) == Get(tokens, t, j);
    }
    forall j | 0 <= j < 8
      ensures scales[j] == tok[576..584][j]
    {
      assert ByteAt(pages, s, t, 576 + j) == Get(tokens, t, 576 + j);
    }
  }

  /** The inverse: reading every token back gives the tokens and the zero padding, exactly. */
  ghost function FromPages(pages: seq<seq<Byte>>, s: nat): seq<seq<Byte>>
    requires s > 0
  {
    seq(Multiple(|pages|, s), t requires t >= 0 => seq(PACKED, j requires j >= 0 => ByteAt(pages, s, t, j)))
  }

  lemma PagesDetermineTokens(pages: seq<seq<Byte>>, tokens: seq<seq<Byte>>, s: nat)
    requires TokensOk(tokens) && s > 0 && Holds(pages, Padded(tokens, s), s)
    ensures FromPages(pages, s) == Padded(tokens, s)
    ensures |tokens| <= |FromPages(pages, s)| && FromPages(pages, s)[..|tokens|] == tokens
  {
    var l, r := FromPages(pages, s), Padded(tokens, s);
    forall t | 0 <= t < |r|
      ensures l[t] == r[t]
    {
      forall j | 0 <= j < PACKED
        ensures l[t][j] == r[t][j]
      {
        assert ByteAt(pages, s, t, j) == Get(r, t, j);
      }
    }
  }

  /** Pages are determined by their tokens: every physical byte belongs to some token byte. */
  lemma TokensDeterminePages(pages: seq<seq<Byte>>, pages': seq<seq<Byte>>, tokens: seq<seq<Byte>>, s: nat)
    requires Holds(pages, tokens, s) && Holds(pages', tokens, s) && |pages| == |pages'|
    ensures pages == pages'
  {
    forall p | 0 <= p < |pages|
      ensures pages[p] == pages'[p]
    {
      forall o | 0 <= o < s * PACKED
        ensures pages[p][o] == pages'[p][o]
      {
        LocateInRange(s, o);
        var (slot, j) := Locate(s, o);
        var t := Multiple(p, s) + slot;
        Decompose(p, slot, s);
        StartMono(p + 1, |pages|, s);
        assert ByteAt(pages, s, t, j) == Get(tokens, t, j) == ByteAt(pages', s, t, j);
      }
    }
  }

  // ---------------------------------------------------------------- index split

  function Count(row: seq<int>): nat {
    if row == [] then 0 else Count(row[..|row| - 1]) + if row[|row| - 1] >= 0 then 1 else 0
  }

  /** Window columns as they are, compressed columns relative to the window; negatives stay. */
  function SplitRow(row: seq<int>, win: nat): (r: (seq<int>, seq<int>))
    ensures |r.0| == Min(win, |row|) && |r.0| + |r.1| == |row|
  {
    var k := Min(win, |row|);
    (row[..k], Shifted(row[k..], win))
  }

  /** Batch offset: row `r` of `b` rows starts at `r * len` in the flattened pool. */
  function Offsetted(idxs: seq<int>, r: nat, len: nat): (o: seq<int>)
    ensures |o| == |idxs|
  {
    seq(|idxs|, i requires 0 <= i < |idxs| => if idxs[i] >= 0 then idxs[i] + Multiple(r, len) else idxs[i])
  }

  /** Indices as they reach the kernel; a single row needs no offset. */
  function Remap(row: seq<int>, r: nat, batch: nat, t: nat, window: nat): (seq<int>, seq<int>) {
    var win := Min(window, t);
    var (swa, comp) := SplitRow(row, win);
    if batch > 1 then (Offsetted(swa, r, win), Offsetted(comp, r, if t - win > 1 then t - win else 1)) else (swa, comp)
  }

  // ---------------------------------------------------------------- pools

  /** Rows `[lo, hi)` of every batch entry, batch-major. */
  ghost function Pool(kv: seq<seq<seq<Byte>>>, lo: nat, hi: nat): (r: seq<seq<Byte>>)
    requires lo <= hi && forall b :: 0 <= b < |kv| ==> hi <= |kv[b]|
    ensures |r| == Multiple(|kv|, hi - lo)
  {
    if kv == [] then [] else Pool(kv[..|kv| - 1], lo, hi) + kv[|kv| - 1][lo..hi]
  }

  lemma {:induction false} PoolAt(kv: seq<seq<seq<Byte>>>, lo: nat, hi: nat, r: nat, i: nat)
    requires lo <= hi && (forall b :: 0 <= b < |kv| ==> hi <= |kv[b]|) && r < |kv| && i < hi - lo
    ensures Multiple(r, hi - lo) + i < |Pool(kv, lo, hi)|
    ensures Pool(kv, lo, hi)[Multiple(r, hi - lo) + i] == kv[r][lo + i]
    decreases |kv|
  {
    var n := |kv| - 1;
    if r < n {
      PoolAt(kv[..n], lo, hi, r, i);
    }
  }

  ghost predicate Rect(kv: seq<seq<seq<Byte>>>, t: nat) {
    forall b :: 0 <= b < |kv| ==> |kv[b]| == t && TokensOk(kv[b])
  }

  /** Row `lo + i` of batch entry `r` is read at its place in the pool. */
  lemma PoolReads(kv: seq<seq<seq<Byte>>>, t: nat, lo: nat, hi: nat, pages: seq<seq<Byte>>, s: nat, r: nat, i: nat,
                  j: nat)
    requires Rect(kv, t) && r < |kv| && s > 0 && j < PACKED && lo <= hi <= t && i < hi - lo
    requires Holds(pages, Padded(Pool(kv, lo, hi), s), s)
    ensures |kv[r]| == t && |kv[r][lo + i]| == PACKED
    ensures ByteAt(pages, s, Multiple(r, hi - lo) + i, j) == kv[r][lo + i][j]
  {
    hide ByteAt, Pool;
    PoolAt(kv, lo, hi, r, i);
    var a := Multiple(r, hi - lo) + i;
    assert Padded(Pool(kv, lo, hi), s)[a] == Pool(kv, lo, hi)[a];
    assert ByteAt(pages, s, a, j) == Get(Padded(Pool(kv, lo, hi), s), a, j);
  }

  /** Where the remap sends a valid index. */
  lemma RemapAt(row: seq<int>, r: nat, batch: nat, t: nat, window: nat, k: nat)
    requires r < batch && k < |row| && row[k] >= 0
    ensures var win := Min(window, t);
      var (swa, comp) := Remap(row, r, batch, t, window);
      && |swa| + |comp| == |row| && |swa| == Min(win, |row|)
      && (k < win ==> swa[k] == Multiple(r, win) + row[k])
      && (k >= win && win <= row[k] < t ==> comp[k - win] == Multiple(r, t - win) + (row[k] - win))
  {
  }

  /**
   What the kernel reads through a remapped window index is byte for byte the packed row the
   original index names, for indices inside the window.
   */
  lemma WindowReads(kv: seq<seq<seq<Byte>>>, t: nat, window: nat, pages: seq<seq<Byte>>, s: nat, r: nat, row: seq<int>,
                    k: nat, j: nat)
    requires Rect(kv, t) && r < |kv| && s > 0 && j < PACKED
    requires Holds(pages, Padded(Pool(kv, 0, Min(window, t)), s), s)
    requires k < |row| && k < Min(window, t) && 0 <= row[k] < Min(window, t)
    ensures |kv[r]| == t && |kv[r][row[k]]| == PACKED && k < |Remap(row, r, |kv|, t, window).0|
    ensures var a := Remap(row, r, |kv|, t, window).0[k]; a >= 0 && ByteAt(pages, s, a, j) == kv[r][row[k]][j]
  {
    hide Rect, Holds, Padded, Pool, ByteAt, Remap;
    RemapAt(row, r, |kv|, t, window, k);
    PoolReads(kv, t, 0, Min(window, t), pages, s, r, row[k], j);
  }

  /** The same for compressed columns, whose indices count from the end of the window. */
  lemma CompressedReads(kv: seq<seq<seq<Byte>>>, t: nat, window: nat, pages: seq<seq<Byte>>, s: nat, r: nat,
                        row: seq<int>, k: nat, j: nat)
    requires Rect(kv, t) && r < |kv| && s > 0 && j < PACKED
    requires Holds(pages, Padded(Pool(kv, Min(window, t), t), s), s)
    requires Min(window, t) <= k < |row| && Min(window, t) <= row[k] < t
    ensures |kv[r]| == t && |kv[r][row[k]]| == PACKED
    ensures k - Min(window, t) < |Remap(row, r, |kv|, t, window).1|
    ensures var a := Remap(row, r, |kv|, t, window).1[k - Min(window, t)];
      a >= 0 && ByteAt(pages, s, a, j) == kv[r][row[k]][j]
  {
    hide Rect, Holds, Padded, Pool, ByteAt, Remap;
    RemapAt(row, r, |kv|, t, window, k);
    PoolReads(kv, t, Min(window, t), t, pages, s, r, row[k] - Min(window, t), j);
  }

  /** Length vectors: valid entries of each part, counted before the window is subtracted. */
  function Lens(row: seq<int>, win: nat): (nat, nat) {
    (Count(row[..Min(win, |row|)]), Count(row[Min(win, |row|)..]))
  }

  lemma {:induction false} CountConcat(a: seq<int>, b: seq<int>)
    ensures Count(a + b) == Count(a) + Count(b)
    decreases |b|
  {
    if b == [] {
      assert a + b == a;
    } else {
      var n := |b| - 1;
      CountConcat(a, b[..n]);
      assert (a + b)[..|a + b| - 1] == a + b[..n];
    }
  }

  /** No valid entry lies below the window. */
  ghost predicate PastWindow(idxs: seq<int>, win: nat) {
    forall i :: 0 <= i < |idxs| && idxs[i] >= 0 ==> idxs[i] >= win
  }

  /**
   The two lengths add up to the valid entries of the row.  The compressed length still counts
   the entries that stay valid after the subtraction exactly when no valid one lies below the
   window.
   */
  lemma SplitCounts(row: seq<int>, win: nat)
    ensures Lens(row, win).0 + Lens(row, win).1 == Count(row)
    ensures Lens(row, win).0 == Count(SplitRow(row, win).0)
    ensures Lens(row, win).1 == Count(SplitRow(row, win).1) <==> PastWindow(row[Min(win, |row|)..], win)
  {
    hide Count, Shifted, PastWindow;
    var k := Min(win, |row|);
    assert row == row[..k] + row[k..];
    CountConcat(row[..k], row[k..]);
    ShiftCounts(row[k..], win);
  }

  function Shifted(idxs: seq<int>, win: nat): (r: seq<int>)
    ensures |r| == |idxs|
  {
    seq(|idxs|, i requires 0 <= i < |idxs| => if idxs[i] >= 0 then idxs[i] - win else idxs[i])
  }

  lemma {:induction false} ShiftCounts(idxs: seq<int>, win: nat)
    ensures Count(Shifted(idxs, win)) <= Count(idxs)
    ensures Count(Shifted(idxs, win)) == Count(idxs) <==> PastWindow(idxs, win)
    decreases |idxs|
  {
    if idxs != [] {
      var n := |idxs| - 1;
      ShiftCounts(idxs[..n], win);
      assert Shifted(idxs, win)[..n] == Shifted(idxs[..n], win);
      if PastWindow(idxs, win) {
        assert PastWindow(idxs[..n], win);
      } else if PastWindow(idxs[..n], win) {
        assert 0 <= idxs[n] < win;
      }
    }
  }
}
