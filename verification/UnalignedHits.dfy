/**
 Suffix prefill writes from the hit length without copying the shared last page.  When the hit
 is neither exact nor page-aligned this can overwrite rows another reader needs; here is when.
 */
module UnalignedHits {
  import opened Prelude
  import opened Paging
  import opened Generation

  /** Position `i'` of reader table `l` is the cell that position `i` of `table` writes. */
  ghost predicate SameCell(table: seq<nat>, l: seq<nat>, bs: nat, i: nat, i': nat) {
    && bs > 0 && PageOf(i, bs) < |table| && PageOf(i', bs) < |l|
    && table[PageOf(i, bs)] == l[PageOf(i', bs)] && SlotOf(i, bs) == SlotOf(i', bs)
  }

  /** Wherever the prefill overwrites a row of the reader, it writes the row that was there. */
  ghost predicate SameRowsThere(m: Model, table: seq<nat>, prompt: seq<Token>, start: nat, l: seq<nat>, h: seq<Token>,
                                bs: nat) {
    forall i, i' :: start <= i < |prompt| && 0 <= i' < |h| && SameCell(table, l, bs, i, i') ==>
      KV(m, prompt)[i] == KV(m, h)[i']
  }

  /** Wherever the prefill overwrites a row of the reader, both have read the same tokens so far. */
  ghost predicate Agrees(table: seq<nat>, prompt: seq<Token>, start: nat, l: seq<nat>, h: seq<Token>, bs: nat) {
    forall i, i' :: start <= i < |prompt| && 0 <= i' < |h| && SameCell(table, l, bs, i, i') ==>
      prompt[..i + 1] == h[..i' + 1]
  }

  lemma LastOf(m: Model, h: seq<Token>, i: nat)
    requires i < |h|
    ensures KV(m, h)[i] == KV(m, h[..i + 1])[i]
  {
    KVPrefix(m, h, i + 1);
  }

  /** What the prefill leaves at one position of the reader. */
  lemma ReaderCell(kv: Grid, table: seq<nat>, bs: nat, start: nat, rows: seq<Row>, l: seq<nat>, i': nat, i: nat)
    requires Covers(kv, table, bs, start + |rows|) && NoDup(table) && Covers(kv, l, bs, i' + 1)
    requires start <= i < start + |rows| && SameCell(table, l, bs, i, i')
    ensures Cell(Write(kv, table, bs, start, rows), l, bs, i') == rows[i - start]
  {
    PagesMono(i + 1, start + |rows|, bs);
    WriteAt(kv, table, bs, start, rows, i);
  }

  lemma ReaderOtherCell(kv: Grid, table: seq<nat>, bs: nat, start: nat, rows: seq<Row>, l: seq<nat>, i': nat)
    requires Covers(kv, table, bs, start + |rows|) && Covers(kv, l, bs, i' + 1)
    requires forall i :: start <= i < start + |rows| ==> !SameCell(table, l, bs, i, i')
    ensures Cell(Write(kv, table, bs, start, rows), l, bs, i') == Cell(kv, l, bs, i')
  {
    forall i | start <= i < start + |rows| && PageOf(i, bs) < |table|
      ensures table[PageOf(i, bs)] != l[PageOf(i', bs)] || SlotOf(i, bs) != SlotOf(i', bs)
    {
      assert !SameCell(table, l, bs, i, i');
    }
    WriteOtherCells(kv, table, bs, start, rows, l[PageOf(i', bs)], SlotOf(i', bs));
  }

  /** The request's table covers its prompt and holds the rows of the first `start` tokens. */
  ghost predicate Prefilling(m: Model, kv: Grid, table: seq<nat>, bs: nat, prompt: seq<Token>, start: nat) {
    && Covers(kv, table, bs, |prompt|) && NoDup(table) && start <= |prompt|
    && Covers(kv, table, bs, start) && Flat(kv, table, bs, start) == KV(m, prompt[..start])
  }

  /** The reader with page list `l` sees the rows of history `h`. */
  ghost predicate Sees(m: Model, kv: Grid, l: seq<nat>, bs: nat, h: seq<Token>) {
    Covers(kv, l, bs, |h|) && Flat(kv, l, bs, |h|) == KV(m, h)
  }

  /** Pages after the prefill wrote the rows of the remaining prompt. */
  ghost function Prefilled(m: Model, kv: Grid, table: seq<nat>, bs: nat, prompt: seq<Token>, start: nat): Grid
    requires Prefilling(m, kv, table, bs, prompt, start)
  {
    Write(kv, table, bs, start, Extend(m, Flat(kv, table, bs, start), prompt[start..]))
  }

  lemma PrefillRow(m: Model, kv: Grid, table: seq<nat>, bs: nat, prompt: seq<Token>, start: nat, i: nat)
    requires Prefilling(m, kv, table, bs, prompt, start) && start <= i < |prompt|
    ensures Extend(m, Flat(kv, table, bs, start), prompt[start..])[i - start] == KV(m, prompt)[i]
  {
    ExtendIsKV(m, prompt[..start], prompt[start..]);
    assert prompt[..start] + prompt[start..] == prompt;
  }

  /** One shared cell: the reader then finds the prompt's row there. */
  lemma SharedCell(m: Model, kv: Grid, table: seq<nat>, bs: nat, prompt: seq<Token>, start: nat,
                   l: seq<nat>, h: seq<Token>, i: nat, i': nat)
    requires Prefilling(m, kv, table, bs, prompt, start) && Sees(m, kv, l, bs, h)
    requires start <= i < |prompt| && i' < |h| && SameCell(table, l, bs, i, i')
    ensures Covers(kv, l, bs, i' + 1)
    ensures Cell(Prefilled(m, kv, table, bs, prompt, start), l, bs, i') == KV(m, prompt)[i]
  {
    hide Flat, Write, Extend, KV, PageOf, SlotOf, NoDup;
    var rows := Extend(m, Flat(kv, table, bs, start), prompt[start..]);
    PagesMono(i' + 1, |h|, bs);
    ReaderCell(kv, table, bs, start, rows, l, i', i);
    PrefillRow(m, kv, table, bs, prompt, start, i);
  }

  lemma UnsharedCell(m: Model, kv: Grid, table: seq<nat>, bs: nat, prompt: seq<Token>, start: nat,
                     l: seq<nat>, h: seq<Token>, i': nat)
    requires Prefilling(m, kv, table, bs, prompt, start) && Sees(m, kv, l, bs, h) && i' < |h|
    requires forall i :: start <= i < |prompt| ==> !SameCell(table, l, bs, i, i')
    ensures Covers(kv, l, bs, i' + 1)
    ensures Cell(Prefilled(m, kv, table, bs, prompt, start), l, bs, i') == KV(m, h)[i']
  {
    var rows := Extend(m, Flat(kv, table, bs, start), prompt[start..]);
    PagesMono(i' + 1, |h|, bs);
    ReaderOtherCell(kv, table, bs, start, rows, l, i');
    assert Flat(kv, l, bs, |h|)[i'] == Cell(kv, l, bs, i');
  }

  /**
   A reader (tree node or request with page list `l` and history `h`) survives the prefill of
   `prompt` from `start` exactly when the prefill puts the same row into every cell they share.
   */
  lemma PrefillSparesExactly(m: Model, kv: Grid, table: seq<nat>, bs: nat, prompt: seq<Token>, start: nat,
                             l: seq<nat>, h: seq<Token>)
    requires Prefilling(m, kv, table, bs, prompt, start) && Sees(m, kv, l, bs, h)
    ensures Sees(m, Prefilled(m, kv, table, bs, prompt, start), l, bs, h) <==> SameRowsThere(m, table, prompt, start, l,
                                                                                             h, bs)
  {
    hide Prefilling, Prefilled, SameCell, PageOf, KV;
    var kv' := Prefilled(m, kv, table, bs, prompt, start);
    PrefilledCovers(m, kv, table, bs, prompt, start, l, |h|);
    var now := Flat(kv', l, bs, |h|);
    if SameRowsThere(m, table, prompt, start, l, h, bs) {
      forall i' | 0 <= i' < |h|
        ensures now[i'] == KV(m, h)[i']
      {
        if i :| start <= i < |prompt| && SameCell(table, l, bs, i, i') {
          SharedCell(m, kv, table, bs, prompt, start, l, h, i, i');
        } else {
          UnsharedCell(m, kv, table, bs, prompt, start, l, h, i');
        }
      }
      assert now == KV(m, h);
    } else {
      var i, i' :|
        start <= i < |prompt| && 0 <= i' < |h| && SameCell(table, l, bs, i, i') && KV(m, prompt)[i] != KV(m, h)[i'];
      SharedCell(m, kv, table, bs, prompt, start, l, h, i, i');
      assert now[i'] != KV(m, h)[i'];
    }
  }

  /** Equal tokens up to every shared cell are enough, for any model. */
  lemma AgreementSpares(m: Model, kv: Grid, table: seq<nat>, bs: nat, prompt: seq<Token>, start: nat,
                        l: seq<nat>, h: seq<Token>)
    requires Prefilling(m, kv, table, bs, prompt, start) && Sees(m, kv, l, bs, h)
    requires Agrees(table, prompt, start, l, h, bs)
    ensures Sees(m, Prefilled(m, kv, table, bs, prompt, start), l, bs, h)
  {
    hide Prefilling, Prefilled, Sees, SameCell, KV;
    forall i, i' | start <= i < |prompt| && 0 <= i' < |h| && SameCell(table, l, bs, i, i')
      ensures KV(m, prompt)[i] == KV(m, h)[i']
    {
      SameRowAt(m, prompt, i, h, i');
    }
    PrefillSparesExactly(m, kv, table, bs, prompt, start, l, h);
  }

  lemma SameRowAt(m: Model, a: seq<Token>, i: nat, b: seq<Token>, j: nat)
    requires i < |a| && j < |b| && a[..i + 1] == b[..j + 1]
    ensures KV(m, a)[i] == KV(m, b)[j]
  {
    hide KV;
    LastOf(m, a, i);
    LastOf(m, b, j);
    assert |a[..i + 1]| == |b[..j + 1]|;
  }

  /** The prefixes compared have distinct last rows when their tokens differ. */
  ghost predicate TellsApart(m: Model, table: seq<nat>, prompt: seq<Token>, start: nat, l: seq<nat>, h: seq<Token>,
                             bs: nat) {
    forall i, i' :: start <= i < |prompt| && 0 <= i' < |h| && SameCell(table, l, bs, i, i') ==>
      (KV(m, prompt)[i] == KV(m, h)[i'] ==> prompt[..i + 1] == h[..i' + 1])
  }

  /** Where the model tells the compared prefixes apart, agreement of tokens is the exact condition. */
  lemma AgreementExactly(m: Model, kv: Grid, table: seq<nat>, bs: nat, prompt: seq<Token>, start: nat,
                         l: seq<nat>, h: seq<Token>)
    requires Prefilling(m, kv, table, bs, prompt, start) && Sees(m, kv, l, bs, h)
    requires TellsApart(m, table, prompt, start, l, h, bs)
    ensures Sees(m, Prefilled(m, kv, table, bs, prompt, start), l, bs, h) <==> Agrees(table, prompt, start, l, h, bs)
  {
    hide Prefilling, Prefilled, Sees, SameCell, KV;
    PrefillSparesExactly(m, kv, table, bs, prompt, start, l, h);
    if Agrees(table, prompt, start, l, h, bs) {
      AgreementSpares(m, kv, table, bs, prompt, start, l, h);
    }
  }

  lemma PrefilledCovers(m: Model, kv: Grid, table: seq<nat>, bs: nat, prompt: seq<Token>, start: nat, l: seq<nat>,
                        n: nat)
    requires Prefilling(m, kv, table, bs, prompt, start) && Covers(kv, l, bs, n)
    ensures Covers(Prefilled(m, kv, table, bs, prompt, start), l, bs, n)
  {
    assert |Extend(m, Flat(kv, table, bs, start), prompt[start..])| == |prompt| - start;
  }
}
