/**
 The stop rules as the loop applies them, and what stop strings let through: cutting the output at
 one stop string can leave another in it, but not while tokens are judged one at a time.
 */
module StopRules {
  import opened Prelude
  import opened Limits

  /** Pops tokens until the text is no longer than `n`. */
  method PopTo(text: seq<Token> -> string, out: seq<Token>, n: nat) returns (kept: seq<Token>)
    ensures kept == Trim(text, out, n)
  {
    kept := out;
    while kept != [] && |text(kept)| > n
      invariant Trim(text, kept, n) == Trim(text, out, n)
      decreases |kept|
    {
      kept := kept[..|kept| - 1];
    }
  }

  /** The rules for one token: the limit, then the stop token, then the stop strings in their order. */
  method ApplyStops(p: Params, out: seq<Token>, tok: Token) returns (v: Verdict)
    ensures v == Judge(p, out, tok)
  {
    if p.maxTokens == 0 {
      return Stop(Length, []);
    }
    if |out| > p.maxTokens {
      return Stop(Length, out[..|out| - 1]);
    }
    if |out| >= p.maxTokens {
      return Stop(Length, out);
    }
    if tok in StopIds(p) {
      return Stop(Stopped, if out != [] && out[|out| - 1] == tok then out[..|out| - 1] else out);
    }
    var i := 0;
    while i < |p.stops|
      invariant 0 <= i <= |p.stops| && Scan(p.stops[i..], p.text, out) == Scan(p.stops, p.text, out)
    {
      var f := Find(p.text(out), p.stops[i]);
      if p.stops[i] != "" && f.Some? {
        var kept := PopTo(p.text, out, f.value);
        return Stop(Stopped, kept);
      }
      i := i + 1;
    }
    v := Go;
  }

  // ---------------------------------------------------------------- what gets through

  /** More tokens only add text, and no tokens have none. */
  ghost predicate Grows(text: seq<Token> -> string) {
    text([]) == "" && forall a, b :: text(a) <= text(a + b)
  }

  lemma FrontText(text: seq<Token> -> string, front: seq<Token>, out: seq<Token>)
    requires Grows(text) && front <= out
    ensures text(front) <= text(out)
  {
    assert out == front + out[|front|..];
  }

  lemma OccursInFront(t: string, u: string, s: string, i: int)
    requires t <= u && OccursAt(t, s, i)
    ensures OccursAt(u, s, i)
  {
    assert u[i..i + |s|] == t[i..i + |s|];
  }

  lemma OccursInside(t: string, u: string, s: string, i: int)
    requires t <= u && OccursAt(u, s, i) && i + |s| <= |t|
    ensures OccursAt(t, s, i)
  {
    assert u[i..i + |s|] == t[i..i + |s|];
  }

  /** Stop `h` occurs in the output's text at `j` and ends inside the text that is kept. */
  ghost predicate Inside(p: Params, out: seq<Token>, kept: seq<Token>, h: int, j: int) {
    && 0 <= h < |p.stops| && p.stops[h] != "" && OccursAt(p.text(out), p.stops[h], j)
    && j + |p.stops[h]| <= |p.text(kept)|
  }

  /**
   What is kept still contains a stop string exactly when another one, listed after the one that
   was found first, ends inside the text that is kept.
   */
  lemma LeaksExactly(p: Params, out: seq<Token>, kept: seq<Token>)
    requires Grows(p.text) && CutAtStop(p, out, kept)
    ensures Contains(p, kept) <==> exists h, j :: 0 < h && Inside(p, out, kept, h, j)
  {
    var k, i :| CutAt(p, out, kept, k, i);
    if Contains(p, kept) {
      var s, j :| s in p.stops && s != "" && OccursAt(p.text(kept), s, j);
      FrontText(p.text, kept, out);
      OccursInFront(p.text(kept), p.text(out), s, j);
      var h :| 0 <= h < |p.stops| && p.stops[h] == s;
      assert h > k;
      assert Inside(p, out, kept, h, j);
    }
    if h, j :| 0 < h && Inside(p, out, kept, h, j) {
      FrontText(p.text, kept, out);
      OccursInside(p.text(kept), p.text(out), p.stops[h], j);
      assert p.stops[h] in p.stops;
    }
  }

  /** With one stop string nothing gets through. */
  lemma OneStopIsEnough(p: Params, out: seq<Token>, kept: seq<Token>)
    requires Grows(p.text) && CutAtStop(p, out, kept) && |p.stops| == 1
    ensures !Contains(p, kept)
  {
    LeaksExactly(p, out, kept);
  }

  /** Nor when every token was judged before the next: the output before the last one had no stop string. */
  lemma SingleStepsLeakNothing(p: Params, out: seq<Token>, kept: seq<Token>)
    requires Grows(p.text) && CutAtStop(p, out, kept) && out != [] && !Contains(p, out[..|out| - 1])
    ensures kept < out && !Contains(p, kept)
  {
    var front := out[..|out| - 1];
    CutShortens(p, out, kept);
    if Contains(p, kept) {
      FrontText(p.text, kept, front);
      var s, j :| s in p.stops && s != "" && OccursAt(p.text(kept), s, j);
      OccursInFront(p.text(kept), p.text(front), s, j);
    }
  }

  lemma CutShortens(p: Params, out: seq<Token>, kept: seq<Token>)
    requires Grows(p.text) && CutAtStop(p, out, kept) && out != []
    ensures kept < out && kept <= out[..|out| - 1]
  {
    var k, i :| CutAt(p, out, kept, k, i);
    assert |p.text(out)| > i;
    assert kept != out;
  }

  /** One letter a token. */
  function Letters(out: seq<Token>): string {
    seq(|out|, i requires 0 <= i < |out| => if out[i] == 1 then 'a' else 'b')
  }

  const TwoStops := Params(10, None, false, ["b", "a"], Letters)

  /**
   A burst judges its tokens over the whole output: "ab" in one burst is cut at "b" and answered as
   "a", which is a stop string too; single steps stop at "a" and answer nothing.
   */
  lemma BurstLeaksStop()
    ensures JudgeAll(TwoStops, [1, 2], [1, 2]) == Stop(Stopped, [1]) && Contains(TwoStops, [1])
    ensures Judge(TwoStops, [1], 1) == Stop(Stopped, []) && !Contains(TwoStops, [])
  {
    var p := TwoStops;
    assert Letters([1, 2]) == "ab" && Letters([1]) == "a" && Letters([]) == "";
    assert "ab"[0..1] == "a" && "ab"[1..2] == "b" && "a"[0..1] == "a" && "a" != "b" by {
      assert "a"[0] != "b"[0];
    }
    assert !OccursAt("ab", "b", 0) && OccursAt("ab", "b", 1) && OccursAt("a", "a", 0) && !OccursAt("a", "b", 0);
    assert FindFrom("ab", "b", 1) == Some(1) && Find("ab", "b") == Some(1);
    assert Find("a", "a") == Some(0) && FindFrom("a", "b", 2) == None && FindFrom("a", "b", 1) == None;
    assert Find("a", "b") == None;
    assert [1, 2][..1] == [1] && [1][..0] == [];
    assert Trim(Letters, [1], 1) == [1] && Trim(Letters, [1, 2], 1) == [1];
    assert Trim(Letters, [], 0) == [] && Trim(Letters, [1], 0) == [];
    assert p.stops[0] == "b" && p.stops[1..] == ["a"];
    assert Scan(["b", "a"], Letters, [1, 2]) == Some([1]);
    assert Scan(["a"], Letters, [1]) == Some([]) && Scan(["b", "a"], Letters, [1]) == Some([]);
    assert "a" in p.stops;
  }
}
