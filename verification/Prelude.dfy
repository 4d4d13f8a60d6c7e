/**
 Shared vocabulary: tokens, opaque KV rows and logits, duplicate-free lists and the page
 arithmetic used by every component that addresses a logical position through a block table.
 */
module Prelude {
  type Token = int

  // One KV row stands for the K and V vectors of every layer at one position.
  type Row(==, 0, !new)
  type Logits(==, 0, !new)

  datatype Option<+T> = None | Some(value: T)

  ghost predicate NoDup<T(!new)>(s: seq<T>) {
    forall i, j :: 0 <= i < j < |s| ==> s[i] != s[j]
  }

  /** The list without any occurrence of `x`. */
  function Without<T(==, !new)>(l: seq<T>, x: T): (r: seq<T>)
    ensures forall y :: y in r <==> y in l && y != x
    ensures |r| <= |l|
    ensures NoDup(l) ==> NoDup(r)
  {
    if l == [] then []
    else
      var rest := Without(l[1..], x);
      assert NoDup(l) ==> NoDup(l[1..]) && l[0] !in l[1..];
      if l[0] == x then rest else [l[0]] + rest
  }

  function Min(a: nat, b: nat): nat {
    if a <= b then a else b
  }

  // Quotient and remainder by repeated subtraction: proofs stay linear, and `PageIsDiv` ties
  // them to the `//` and `%` of the engine.

  function PageOf(pos: nat, bs: nat): nat
    requires bs > 0
  {
    if pos < bs then 0 else 1 + PageOf(pos - bs, bs)
  }

  function SlotOf(pos: nat, bs: nat): (s: nat)
    requires bs > 0
    ensures s < bs
  {
    if pos < bs then pos else SlotOf(pos - bs, bs)
  }

  /** `k` times `bs`: the first position of logical page `k`. */
  function Multiple(k: nat, bs: nat): nat {
    if k == 0 then 0 else Multiple(k - 1, bs) + bs
  }

  /** Number of pages that hold `n` positions. */
  function Pages(n: nat, bs: nat): nat
    requires bs > 0
  {
    if n == 0 then 0 else PageOf(n - 1, bs) + 1
  }

  lemma {:induction false} PageIsDiv(pos: nat, bs: nat)
    requires bs > 0
    ensures PageOf(pos, bs) == pos / bs
    ensures SlotOf(pos, bs) == pos % bs
    decreases pos
  {
    if pos >= bs {
      PageIsDiv(pos - bs, bs);
      DivStep(pos, bs);
    }
  }

  lemma MulMono(a: nat, b: nat, c: nat)
    requires a <= b
    ensures a * c <= b * c
  {
  }

  /** Quotient and remainder are determined by any decomposition with a small remainder. */
  lemma DivUnique(pos: nat, bs: nat, q: nat, r: nat)
    requires r < bs && pos == q * bs + r
    ensures pos / bs == q && pos % bs == r
  {
    var q' := pos / bs;
    if q' < q {
      MulMono(q' + 1, q, bs);
      assert false;
    } else if q < q' {
      MulMono(q + 1, q', bs);
      assert false;
    }
  }

  lemma DivStep(pos: nat, bs: nat)
    requires 0 < bs <= pos
    ensures pos / bs == (pos - bs) / bs + 1
    ensures pos % bs == (pos - bs) % bs
  {
    var q, r := (pos - bs) / bs, (pos - bs) % bs;
    DivUnique(pos, bs, q + 1, r);
  }

  /** The rounding-up division of the engine counts pages. */
  lemma PagesIsCeilDiv(n: nat, bs: nat)
    requires bs > 0
    ensures Pages(n, bs) == (n + bs - 1) / bs
  {
    PageIsDiv(n + bs - 1, bs);
    if n > 0 {
      assert PageOf(n + bs - 1, bs) == 1 + PageOf(n - 1, bs);
    }
  }

  lemma {:induction false} PageMono(a: nat, b: nat, bs: nat)
    requires bs > 0 && a <= b
    ensures PageOf(a, bs) <= PageOf(b, bs)
    decreases b
  {
    if a >= bs {
      PageMono(a - bs, b - bs, bs);
    }
  }

  lemma PagesMono(a: nat, b: nat, bs: nat)
    requires bs > 0 && a <= b
    ensures Pages(a, bs) <= Pages(b, bs)
  {
    if a > 0 {
      PageMono(a - 1, b - 1, bs);
    }
  }

  lemma PagesMonoAll(n: nat, bs: nat)
    requires bs > 0
    ensures forall i :: 0 <= i <= n ==> Pages(i, bs) <= Pages(n, bs)
  {
    forall i | 0 <= i <= n
      ensures Pages(i, bs) <= Pages(n, bs)
    {
      PagesMono(i, n, bs);
    }
  }

  /** A position below `n` lies on one of the `Pages(n)` pages. */
  lemma PageInRange(i: nat, n: nat, bs: nat)
    requires bs > 0 && i < n
    ensures PageOf(i, bs) < Pages(n, bs)
  {
    PageMono(i, n - 1, bs);
  }

  /** Page and slot together determine the position. */
  lemma {:induction false} Recompose(pos: nat, bs: nat)
    requires bs > 0
    ensures pos == Multiple(PageOf(pos, bs), bs) + SlotOf(pos, bs)
    decreases pos
  {
    if pos >= bs {
      Recompose(pos - bs, bs);
    }
  }

  lemma {:induction false} Decompose(k: nat, s: nat, bs: nat)
    requires s < bs
    ensures PageOf(Multiple(k, bs) + s, bs) == k && SlotOf(Multiple(k, bs) + s, bs) == s
    decreases k
  {
    if k > 0 {
      Decompose(k - 1, s, bs);
      var p := Multiple(k - 1, bs) + s;
      assert PageOf(p + bs, bs) == 1 + PageOf(p, bs);
    }
  }

  /** Positions of one span stay inside one page. */
  lemma SpanInPage(pos: nat, j: nat, bs: nat)
    requires bs > 0 && SlotOf(pos, bs) + j < bs
    ensures PageOf(pos + j, bs) == PageOf(pos, bs) && SlotOf(pos + j, bs) == SlotOf(pos, bs) + j
  {
    Recompose(pos, bs);
    Decompose(PageOf(pos, bs), SlotOf(pos, bs) + j, bs);
  }

  /** Whole pages: `Multiple(k)` positions need exactly `k` pages. */
  lemma PagesOfStart(k: nat, bs: nat)
    requires bs > 0
    ensures Pages(Multiple(k, bs), bs) == k
  {
    if k > 0 {
      Decompose(k - 1, bs - 1, bs);
    }
  }

  /** A page-aligned length uses exactly the pages before its own page index. */
  lemma AlignedPages(n: nat, bs: nat)
    requires bs > 0 && SlotOf(n, bs) == 0
    ensures Pages(n, bs) == PageOf(n, bs)
  {
    Recompose(n, bs);
    PagesOfStart(PageOf(n, bs), bs);
  }

  /** Moving one position on stays on the page unless it lands on a page boundary. */
  lemma NextOnPage(n: nat, bs: nat)
    requires bs > 0 && SlotOf(n + 1, bs) != 0
    ensures PageOf(n + 1, bs) == PageOf(n, bs)
  {
    if SlotOf(n, bs) + 1 == bs {
      Recompose(n, bs);
      Decompose(PageOf(n, bs) + 1, 0, bs);
    } else {
      SpanInPage(n, 1, bs);
    }
  }

  lemma PagesPositive(n: nat, bs: nat)
    requires bs > 0 && n > 0
    ensures Pages(n, bs) > 0
  {
  }

  lemma {:induction false} StartMono(a: nat, b: nat, bs: nat)
    requires a <= b
    ensures Multiple(a, bs) <= Multiple(b, bs)
    decreases b
  {
    if a < b {
      StartMono(a, b - 1, bs);
    }
  }
}
