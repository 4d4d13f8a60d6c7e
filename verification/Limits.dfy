/** Stop and length rules applied to a request after tokens were appended to its output. */
module Limits {
  import opened Prelude

  datatype Params = Params(
    maxTokens: nat,
    eos: Option<Token>,                       // end-of-sequence token of the model
    ignoreEos: bool,
    stops: seq<string>,                       // stop strings
    text: seq<Token> -> string)               // text of an output

  datatype Reason = Length | Stopped | Cancelled | TimedOut | Failed

  datatype Verdict = Go | Stop(reason: Reason, output: seq<Token>)

  /** Stop tokens of a request: the end-of-sequence token unless it is ignored. */
  function StopIds(p: Params): seq<Token> {
    if p.eos.Some? && !p.ignoreEos then [p.eos.value] else []
  }

  // ---------------------------------------------------------------- stop strings

  predicate OccursAt(t: string, s: string, i: int) {
    0 <= i <= i + |s| <= |t| && t[i..i + |s|] == s
  }

  /** First occurrence of `s` in `t` from position `i` on. */
  function FindFrom(t: string, s: string, i: nat): (r: Option<nat>)
    ensures r.Some? ==> r.value >= i && OccursAt(t, s, r.value) && forall j :: i <= j < r.value ==> !OccursAt(t, s, j)
    ensures r.None? ==> forall j :: i <= j ==> !OccursAt(t, s, j)
    decreases |t| - i
  {
    if i > |t| then None else if OccursAt(t, s, i) then Some(i) else FindFrom(t, s, i + 1)
  }

  function Find(t: string, s: string): Option<nat> {
    FindFrom(t, s, 0)
  }

  /** Drops tokens from the end until the text is no longer than `n`. */
  function Trim(text: seq<Token> -> string, out: seq<Token>, n: nat): (r: seq<Token>)
    ensures r <= out
    decreases |out|
  {
    if out == [] || |text(out)| <= n then out else Trim(text, out[..|out| - 1], n)
  }

  /** The output up to the first listed stop string that its text contains, if one does. */
  function Scan(stops: seq<string>, text: seq<Token> -> string, out: seq<Token>): (r: Option<seq<Token>>)
    ensures r.Some? ==> r.value <= out
    decreases |stops|
  {
    if stops == [] then None
    else if stops[0] != "" && Find(text(out), stops[0]).Some? then
      Some(Trim(text, out, Find(text(out), stops[0]).value))
    else Scan(stops[1..], text, out)
  }

  /** _apply_stop_and_limits for `tok`, with `out` the whole output appended so far. */
  function Judge(p: Params, out: seq<Token>, tok: Token): (v: Verdict)
    ensures v.Go? ==> |out| < p.maxTokens
    ensures v.Stop? ==> v.output <= out
  {
    if p.maxTokens == 0 then Stop(Length, [])
    else if |out| > p.maxTokens then Stop(Length, out[..|out| - 1])
    else if |out| >= p.maxTokens then Stop(Length, out)
    else if tok in StopIds(p) then
      Stop(Stopped, if out != [] && out[|out| - 1] == tok then out[..|out| - 1] else out)
    else match Scan(p.stops, p.text, out)
      case None => Go
      case Some(kept) => Stop(Stopped, kept)
  }

  /** The rules for every token of a burst, in order, until one stops. */
  function JudgeAll(p: Params, out: seq<Token>, toks: seq<Token>): (v: Verdict)
    ensures v.Stop? ==> v.output <= out
    ensures v.Go? && toks != [] ==> |out| < p.maxTokens
    decreases |toks|
  {
    if toks == [] then Go
    else match Judge(p, out, toks[0])
      case Stop(r, o) => Stop(r, o)
      case Go =>
        if !p.ignoreEos && p.eos == Some(toks[0]) then Stop(Stopped, out)
        else JudgeAll(p, out, toks[1..])
  }

  /** The second end-of-sequence test of the burst never fires: the stop tokens caught it. */
  lemma EosAlreadyStopped(p: Params, out: seq<Token>, tok: Token)
    requires !p.ignoreEos && p.eos == Some(tok)
    ensures Judge(p, out, tok).Stop?
  {
  }

  // ---------------------------------------------------------------- the rules

  /** The token ends a request that does not ignore the end of the sequence. */
  predicate Ends(p: Params, tok: Token) {
    p.eos == Some(tok) && !p.ignoreEos
  }

  /** The text of the output contains a stop string. */
  ghost predicate Contains(p: Params, out: seq<Token>) {
    exists s, i :: s in p.stops && s != "" && OccursAt(p.text(out), s, i)
  }

  lemma {:induction false} ScanExactly(stops: seq<string>, text: seq<Token> -> string, out: seq<Token>)
    ensures Scan(stops, text, out).Some? <==> exists s, i :: s in stops && s != "" && OccursAt(text(out), s, i)
    decreases |stops|
  {
    if stops != [] {
      ScanExactly(stops[1..], text, out);
      var s := stops[0];
      if s != "" && Find(text(out), s).Some? {
        assert s in stops && OccursAt(text(out), s, Find(text(out), s).value);
      } else if s', i :| s' in stops && s' != "" && OccursAt(text(out), s', i) {
        assert s' in stops[1..];
      }
      if s', i :| s' in stops[1..] && s' != "" && OccursAt(text(out), s', i) {
        assert s' in stops;
      }
    }
  }

  /**
   A request goes on exactly when its output is below the limit, the token is not its stop token
   and the text contains no stop string.
   */
  lemma GoesOnExactly(p: Params, out: seq<Token>, tok: Token)
    ensures Judge(p, out, tok).Go? <==> |out| < p.maxTokens && !Ends(p, tok) && !Contains(p, out)
  {
    hide Scan;
    ScanExactly(p.stops, p.text, out);
  }

  /** What is kept, and the reason, when it does not: the limit comes first, then the token, then the strings. */
  lemma StopsWith(p: Params, out: seq<Token>, tok: Token)
    ensures |out| >= p.maxTokens ==> Judge(p, out, tok).Stop? && Judge(p, out, tok).reason == Length
    ensures |out| >= p.maxTokens && |out| <= p.maxTokens + 1 ==> Judge(p, out, tok).output == out[..p.maxTokens]
    ensures |out| < p.maxTokens && Ends(p, tok) ==>
      && Judge(p, out, tok).Stop? && Judge(p, out, tok).reason == Stopped
      && (out != [] && out[|out| - 1] == tok ==> Judge(p, out, tok).output + [tok] == out)
      && (out == [] || out[|out| - 1] != tok ==> Judge(p, out, tok).output == out)
    ensures |out| < p.maxTokens && !Ends(p, tok) && Contains(p, out) ==>
      && Judge(p, out, tok).Stop? && Judge(p, out, tok).reason == Stopped
      && CutAtStop(p, out, Judge(p, out, tok).output)
  {
    hide Scan, CutAtStop;
    ScanExactly(p.stops, p.text, out);
    if Contains(p, out) {
      ScanCuts(p, out, p.stops);
    }
    if |out| == p.maxTokens {
      assert out[..p.maxTokens] == out;
    }
  }

  /**
   `kept` is the longest front of the output whose text is not longer than what precedes the first
   occurrence of the first listed stop string that occurs.
   */
  ghost predicate CutAtStop(p: Params, out: seq<Token>, kept: seq<Token>) {
    exists k, i :: CutAt(p, out, kept, k, i)
  }

  /** Stop `k` is the first listed one that occurs, first at `i`, and the output is cut there. */
  ghost predicate CutAt(p: Params, out: seq<Token>, kept: seq<Token>, k: int, i: int) {
    && 0 <= k < |p.stops| && p.stops[k] != "" && OccursAt(p.text(out), p.stops[k], i)
    && (forall j :: 0 <= j < i ==> !OccursAt(p.text(out), p.stops[k], j))
    && (forall h, j :: 0 <= h < k && p.stops[h] != "" ==> !OccursAt(p.text(out), p.stops[h], j))
    && kept <= out && (kept == [] || |p.text(kept)| <= i)
    && forall n :: |kept| < n <= |out| ==> |p.text(out[..n])| > i
  }

  lemma {:induction false} TrimIsLongest(text: seq<Token> -> string, out: seq<Token>, n: nat)
    ensures var r := Trim(text, out, n);
      && (r == [] || |text(r)| <= n)
      && forall j :: |r| < j <= |out| ==> |text(out[..j])| > n
    decreases |out|
  {
    assert out[..|out|] == out;
    if out != [] && |text(out)| > n {
      var front := out[..|out| - 1];
      TrimIsLongest(text, front, n);
      forall j | |Trim(text, out, n)| < j <= |out|
        ensures |text(out[..j])| > n
      {
        if j < |out| {
          assert front[..j] == out[..j];
        }
      }
    }
  }

  lemma {:induction false} ScanCuts(p: Params, out: seq<Token>, stops: seq<string>)
    requires Scan(stops, p.text, out).Some? && |stops| <= |p.stops| && p.stops[|p.stops| - |stops|..] == stops
    requires forall h, j :: 0 <= h < |p.stops| - |stops| && p.stops[h] != "" ==> !OccursAt(p.text(out), p.stops[h], j)
    ensures CutAtStop(p, out, Scan(stops, p.text, out).value)
    decreases |stops|
  {
    var k := |p.stops| - |stops|;
    assert p.stops[k] == stops[0];
    var f := Find(p.text(out), stops[0]);
    if stops[0] != "" && f.Some? {
      TrimIsLongest(p.text, out, f.value);
      assert CutAt(p, out, Trim(p.text, out, f.value), k, f.value);
    } else {
      assert p.stops[|p.stops| - |stops[1..]|..] == stops[1..];
      forall h, j | 0 <= h < |p.stops| - |stops[1..]| && p.stops[h] != ""
        ensures !OccursAt(p.text(out), p.stops[h], j)
      {
        assert h == k ==> f.None?;
      }
      ScanCuts(p, out, stops[1..]);
    }
  }

  /** The first stop token among the tokens of a burst, or their number. */
  function FirstEnd(p: Params, toks: seq<Token>): (i: nat)
    ensures i <= |toks| && (i < |toks| ==> Ends(p, toks[i])) && forall j :: 0 <= j < i ==> !Ends(p, toks[j])
  {
    if toks == [] || Ends(p, toks[0]) then 0 else 1 + FirstEnd(p, toks[1..])
  }

  /**
   The rules over all tokens of a burst, whose output is complete before the first is judged: the
   limit decides; then a stop token in front; then a stop string anywhere in the output; then the
   first stop token further on.
   */
  lemma {:induction false} JudgedTogether(p: Params, out: seq<Token>, toks: seq<Token>)
    requires toks != []
    ensures var v, i := JudgeAll(p, out, toks), FirstEnd(p, toks);
      && (v.Go? <==> |out| < p.maxTokens && i == |toks| && !Contains(p, out))
      && (|out| >= p.maxTokens ==> v == Judge(p, out, toks[0]))
      && (|out| < p.maxTokens && i > 0 && Contains(p, out) ==> v == Judge(p, out, toks[0]))
      && (|out| < p.maxTokens && i < |toks| && (i == 0 || !Contains(p, out)) ==> v == Judge(p, out, toks[i]))
    decreases |toks|
  {
    hide Judge, Contains;
    GoesOnExactly(p, out, toks[0]);
    if |toks| > 1 && Judge(p, out, toks[0]).Go? {
      JudgedTogether(p, out, toks[1..]);
    } else if Judge(p, out, toks[0]).Go? {
      assert JudgeAll(p, out, toks[1..]) == Go;
    }
  }
}
