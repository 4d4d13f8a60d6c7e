/**
 Decode bursts as a fast form of single stepping: several tokens are produced before the stop
 rules run once over all of them.
 */
module Bursts {
  import opened Prelude
  import opened Limits

  /** One running request; `next` is the greedy token after a history. */
  datatype Run = Run(prompt: seq<Token>, output: seq<Token>, cached: nat, params: Params, done: Option<Reason>)

  type Next = seq<Token> -> Token

  ghost predicate Running(r: Run) {
    && r.done == None && r.output != [] && |r.output| < r.params.maxTokens
    && r.cached == |r.prompt| + |r.output| - 1
  }

  function Settle(r: Run, v: Verdict, out: seq<Token>, forwards: nat): Run {
    match v
    case Go => r.(output := out, cached := r.cached + forwards)
    case Stop(reason, o) => r.(output := o, cached := r.cached + forwards, done := Some(reason))
  }

  /** One decode step: forward, append, apply the rules. */
  function Single(next: Next, r: Run): Run {
    if r.done.Some? then r
    else
      var tok := next(r.prompt + r.output);
      var out := r.output + [tok];
      Settle(r, Judge(r.params, out, tok), out, 1)
  }

  function Singles(next: Next, r: Run, k: nat): Run {
    if k == 0 then r else Single(next, Singles(next, r, k - 1))
  }

  /** Tokens a burst produces after history `h`: at most `n`, cut after the break token if any. */
  function Produce(next: Next, h: seq<Token>, n: nat, brk: Option<Token>): (toks: seq<Token>)
    ensures |toks| <= n && (n > 0 ==> toks != [])
    decreases n
  {
    if n == 0 then []
    else
      var t := next(h);
      if brk == Some(t) then [t] else [t] + Produce(next, h + [t], n - 1, brk)
  }

  function Extra(r: Run, burst: nat): nat {
    var left: nat := if r.params.maxTokens > |r.output| then r.params.maxTokens - |r.output| - 1 else 0;
    if burst <= 1 then 0 else if left < burst - 1 then left else burst - 1
  }

  /** One pump of a lone decode whose burst finds its pages: first token, burst, then the rules over all of them. */
  function Burst(next: Next, r: Run, burst: nat, brk: Option<Token>): Run {
    if r.done.Some? then r
    else
      var first := next(r.prompt + r.output);
      var toks := [first] + Produce(next, r.prompt + r.output + [first], Extra(r, burst), brk);
      Settle(r, JudgeAll(r.params, r.output + toks, toks), r.output + toks, |toks|)
  }

  /** No stop strings. */
  ghost predicate NoStrings(p: Params) {
    forall s :: s in p.stops ==> s == ""
  }

  lemma NoScans(p: Params)
    requires NoStrings(p)
    ensures forall out :: Scan(p.stops, p.text, out) == None
  {
    forall out
      ensures Scan(p.stops, p.text, out) == None
    {
      ScanExactly(p.stops, p.text, out);
    }
  }

  /** The break token of the burst loops: the end-of-sequence token, unless it is ignored. */
  ghost predicate BreakOk(p: Params, brk: Option<Token>) {
    if p.ignoreEos || p.eos == None then brk == None || brk == p.eos else brk == p.eos
  }

  // ---------------------------------------------------------------- greedy chains

  /** `toks` are the greedy tokens after `h`, one after the other. */
  ghost predicate Chain(next: Next, h: seq<Token>, toks: seq<Token>) {
    forall i :: 0 <= i < |toks| ==> toks[i] == next(h + toks[..i])
  }

  /** Only the last token can be the break token. */
  ghost predicate Unbroken(toks: seq<Token>, brk: Option<Token>) {
    forall i :: 0 <= i < |toks| - 1 ==> brk != Some(toks[i])
  }

  lemma {:induction false} ProduceIsChain(next: Next, h: seq<Token>, n: nat, brk: Option<Token>)
    ensures Chain(next, h, Produce(next, h, n, brk))
    ensures Unbroken(Produce(next, h, n, brk), brk)
    decreases n
  {
    if n > 0 {
      var t := next(h);
      assert h + [] == h;
      if brk != Some(t) {
        ProduceIsChain(next, h + [t], n - 1, brk);
        var rest, toks := Produce(next, h + [t], n - 1, brk), Produce(next, h, n, brk);
        assert toks == [t] + rest;
        ChainCons(next, h, rest);
        forall i | 0 <= i < |toks| - 1
          ensures brk != Some(toks[i])
        {
          if i == 0 {
            assert toks[0] == t;
          } else {
            assert toks[i] == rest[i - 1] && 0 <= i - 1 < |rest| - 1;
          }
        }
      }
    }
  }

  lemma ChainCons(next: Next, h: seq<Token>, toks: seq<Token>)
    requires Chain(next, h + [next(h)], toks)
    ensures Chain(next, h, [next(h)] + toks)
  {
    var all := [next(h)] + toks;
    forall i | 0 <= i < |all|
      ensures all[i] == next(h + all[..i])
    {
      if i == 0 {
        assert h + all[..0] == h;
      } else {
        assert h + all[..i] == h + [next(h)] + toks[..i - 1];
        assert toks[i - 1] == next(h + [next(h)] + toks[..i - 1]);
      }
    }
  }

  // ---------------------------------------------------------------- single stepping a chain

  ghost predicate StopsOn(p: Params, t: Token) {
    t in StopIds(p)
  }

  /** A chain without stop tokens that stays below the limit is just appended. */
  lemma {:induction false} SinglesGo(next: Next, r: Run, toks: seq<Token>, k: nat)
    requires Running(r) && NoStrings(r.params) && Chain(next, r.prompt + r.output, toks) && k <= |toks|
    requires |r.output| + k < r.params.maxTokens
    requires forall i :: 0 <= i < k ==> !StopsOn(r.params, toks[i])
    ensures Singles(next, r, k) == r.(output := r.output + toks[..k], cached := r.cached + k)
    decreases k
  {
    hide Scan;
    NoScans(r.params);
    if k == 0 {
      assert r.output + toks[..0] == r.output;
    } else {
      SinglesGo(next, r, toks, k - 1);
      var q := r.(output := r.output + toks[..k - 1], cached := r.cached + (k - 1));
      assert toks[k - 1] == next(r.prompt + r.output + toks[..k - 1]);
      assert toks[..k][..k - 1] == toks[..k - 1];
      StepFrom(next, r, q, toks[..k], k - 1);
    }
  }

  /** The last token of a chain decides alone. */
  lemma SinglesChain(next: Next, r: Run, toks: seq<Token>)
    requires Running(r) && NoStrings(r.params) && Chain(next, r.prompt + r.output, toks) && toks != []
    requires |r.output| + |toks| <= r.params.maxTokens
    requires forall i :: 0 <= i < |toks| - 1 ==> !StopsOn(r.params, toks[i])
    ensures var out, last := r.output + toks, toks[|toks| - 1];
      Singles(next, r, |toks|) == Settle(r, Judge(r.params, out, last), out, |toks|)
  {
    var k := |toks| - 1;
    SinglesGo(next, r, toks, k);
    var q := r.(output := r.output + toks[..k], cached := r.cached + k);
    assert toks[k] == next(r.prompt + r.output + toks[..k]);
    NextStep(next, r, k);
    StepFrom(next, r, q, toks, k);
  }

  lemma NextStep(next: Next, r: Run, k: nat)
    ensures Singles(next, r, k + 1) == Single(next, Singles(next, r, k))
  {
  }

  lemma StepFrom(next: Next, r: Run, q: Run, toks: seq<Token>, k: nat)
    requires k + 1 == |toks| && r.done == None && q == r.(output := r.output + toks[..k], cached := r.cached + k)
    requires toks[k] == next(r.prompt + r.output + toks[..k])
    ensures Single(next, q) == Settle(r, Judge(r.params, r.output + toks, toks[k]), r.output + toks, k + 1)
  {
    hide Judge;
    assert q.prompt + q.output == r.prompt + r.output + toks[..k];
    assert q.output + [toks[k]] == r.output + toks;
  }

  /** So does the rule scan of a burst. */
  lemma {:induction false} JudgeAllIsLast(p: Params, out: seq<Token>, toks: seq<Token>)
    requires NoStrings(p) && toks != [] && |out| <= p.maxTokens
    requires forall i :: 0 <= i < |toks| - 1 ==> !StopsOn(p, toks[i])
    requires p.maxTokens > 0
    ensures JudgeAll(p, out, toks) == Judge(p, out, toks[|toks| - 1])
    decreases |toks|
  {
    hide Scan;
    NoScans(p);
    if |toks| == 1 {
      if !p.ignoreEos && p.eos == Some(toks[0]) {
        EosAlreadyStopped(p, out, toks[0]);
      }
      assert JudgeAll(p, out, toks[1..]) == Go;
    } else {
      JudgeAllIsLast(p, out, toks[1..]);
      assert !StopsOn(p, toks[0]);
    }
  }

  lemma BurstTokens(next: Next, r: Run, burst: nat, brk: Option<Token>) returns (toks: seq<Token>)
    requires Running(r) && BreakOk(r.params, brk)
    ensures toks == [next(r.prompt + r.output)]
                  + Produce(next, r.prompt + r.output + [next(r.prompt + r.output)], Extra(r, burst), brk)
    ensures Chain(next, r.prompt + r.output, toks) && |r.output| + |toks| <= r.params.maxTokens
    ensures forall i :: 0 < i < |toks| - 1 ==> !StopsOn(r.params, toks[i])
  {
    var h := r.prompt + r.output;
    var more := Produce(next, h + [next(h)], Extra(r, burst), brk);
    ProduceIsChain(next, h + [next(h)], Extra(r, burst), brk);
    ChainCons(next, h, more);
    toks := [next(h)] + more;
  }

  /**
   A pump with any burst size, its pages found, is some number of single steps exactly when the
   first token does not stop the request with burst tokens still to come: there the burst runs
   past the stop.  `FallenIsSinglesExactly` is the same for a burst that raises.
   */
  lemma BurstIsSinglesExactly(next: Next, r: Run, burst: nat, brk: Option<Token>)
    requires Running(r) && NoStrings(r.params) && BreakOk(r.params, brk)
    ensures (exists k: nat :: Burst(next, r, burst, brk) == Singles(next, r, k))
       <==> !(StopsOn(r.params, next(r.prompt + r.output)) && Extra(r, burst) > 0)
  {
    var toks := BurstTokens(next, r, burst, brk);
    var first := toks[0];
    if StopsOn(r.params, first) && Extra(r, burst) > 0 {
      assert |toks| >= 2;
      Overrun(next, r, burst, brk);
      forall k: nat
        ensures Burst(next, r, burst, brk) != Singles(next, r, k)
      {
        StopsAtOnce(next, r, k);
      }
    } else {
      SinglesChain(next, r, toks);
      JudgeAllIsLast(r.params, r.output + toks, toks);
      assert Burst(next, r, burst, brk) == Singles(next, r, |toks|);
    }
  }

  lemma Overrun(next: Next, r: Run, burst: nat, brk: Option<Token>)
    requires Running(r) && BreakOk(r.params, brk) && StopsOn(r.params, next(r.prompt + r.output)) && Extra(r, burst) > 0
    ensures Burst(next, r, burst, brk).done.Some? && |Burst(next, r, burst, brk).output| > |r.output|
  {
    var toks := BurstTokens(next, r, burst, brk);
    var out := r.output + toks;
    assert |toks| >= 2;
    assert JudgeAll(r.params, out, toks) == Judge(r.params, out, toks[0]);
  }

  lemma {:induction false} StopsAtOnce(next: Next, r: Run, k: nat)
    requires Running(r) && StopsOn(r.params, next(r.prompt + r.output)) && |r.output| + 1 < r.params.maxTokens
    ensures k == 0 ==> Singles(next, r, k).done == None
    ensures k > 0 ==> Singles(next, r, k).output == r.output
    ensures k > 0 ==> Singles(next, r, k).done.Some?
    decreases k
  {
    if k > 0 {
      StopsAtOnce(next, r, k - 1);
      if k == 1 {
        var tok := next(r.prompt + r.output);
        assert (r.output + [tok])[..|r.output|] == r.output;
      }
    }
  }

  // ---------------------------------------------------------------- whole generations

  /** Requests that cannot stop on a token: length is their only limit. */
  ghost predicate LengthOnly(p: Params) {
    NoStrings(p) && StopIds(p) == [] && p.maxTokens > 0
  }

  function Bursts(next: Next, r: Run, sizes: seq<nat>, brk: Option<Token>): Run
    decreases |sizes|
  {
    if sizes == [] then r else Bursts(next, Burst(next, r, sizes[0], brk), sizes[1..], brk)
  }

  lemma {:induction false} SinglesAdd(next: Next, r: Run, a: nat, b: nat)
    ensures Singles(next, Singles(next, r, a), b) == Singles(next, r, a + b)
    decreases b
  {
    if b > 0 {
      SinglesAdd(next, r, a, b - 1);
    }
  }

  /** A length-only burst leaves the request running with the cached length right, or done at the limit. */
  lemma LengthBurst(next: Next, r: Run, burst: nat, brk: Option<Token>) returns (k: nat)
    requires Running(r) && LengthOnly(r.params) && BreakOk(r.params, brk)
    ensures k >= 1 && Burst(next, r, burst, brk) == Singles(next, r, k)
    ensures var q := Burst(next, r, burst, brk);
      && q.params == r.params && q.prompt == r.prompt
      && |q.output| == |r.output| + k && |q.output| <= q.params.maxTokens && r.output <= q.output
      && q.cached == |q.prompt| + |q.output| - 1
      && (q.done == if |q.output| == q.params.maxTokens then Some(Length) else None)
  {
    hide Scan, JudgeAll;
    NoScans(r.params);
    var toks := BurstTokens(next, r, burst, brk);
    SinglesChain(next, r, toks);
    JudgeAllIsLast(r.params, r.output + toks, toks);
    k := |toks|;
  }

  /**
   Any sequence of burst sizes produces the same output, finish reason and cached length as
   single stepping, and never exceeds the token limit.
   */
  lemma {:induction false} BurstsAreSingles(next: Next, r: Run, sizes: seq<nat>, brk: Option<Token>) returns (k: nat)
    requires Running(r) && LengthOnly(r.params) && BreakOk(r.params, brk)
    ensures Bursts(next, r, sizes, brk) == Singles(next, r, k)
    ensures var q := Bursts(next, r, sizes, brk);
      && |q.output| <= q.params.maxTokens && q.cached == |q.prompt| + |q.output| - 1
      && q.params == r.params && |q.output| == |r.output| + k && (q.done.Some? || |sizes| <= k)
    ensures Bursts(next, r, sizes, brk).done.Some? ==>
              Bursts(next, r, sizes, brk) == Singles(next, r, r.params.maxTokens - |r.output|)
    decreases |sizes|
  {
    hide Burst, Singles, LengthOnly, BreakOk;
    if sizes == [] {
      k := 0;
      assert Singles(next, r, 0) == r by { NoSteps(next, r); }
    } else {
      var j := LengthBurst(next, r, sizes[0], brk);
      var q := Burst(next, r, sizes[0], brk);
      if q.done.Some? {
        BurstsDone(next, q, sizes[1..], brk);
        k := j;
      } else {
        var i := BurstsAreSingles(next, q, sizes[1..], brk);
        SinglesAdd(next, r, j, i);
        SinglesAdd(next, r, j, r.params.maxTokens - |q.output|);
        k := j + i;
      }
    }
  }

  lemma NoSteps(next: Next, r: Run)
    ensures Singles(next, r, 0) == r
  {
  }

  lemma {:induction false} BurstsDone(next: Next, r: Run, sizes: seq<nat>, brk: Option<Token>)
    requires r.done.Some?
    ensures Bursts(next, r, sizes, brk) == r
    decreases |sizes|
  {
    if sizes != [] {
      BurstsDone(next, r, sizes[1..], brk);
    }
  }

  // ---------------------------------------------------------------- the burst loops

  lemma Reassociate(a: seq<Token>, t: Token, b: seq<Token>)
    ensures a + ([t] + b) == (a + [t]) + b
  {
  }

  /** Forwards beyond `room` find no page: the burst raises if it gets that far. */
  predicate Raises(next: Next, h: seq<Token>, n: nat, brk: Option<Token>, room: nat) {
    |Produce(next, h, n, brk)| > room
  }

  /**
   Per-step host loop: every token is in the output as soon as it is sampled, so a burst that
   raises has kept the tokens of the forwards that found their pages.
   */
  method BurstOnHost(next: Next, history: seq<Token>, n: nat, brk: Option<Token>, room: nat)
    returns (out: seq<Token>, raised: bool)
    ensures out == Produce(next, history, Min(n, room), brk)
    ensures raised <==> Raises(next, history, n, brk, room)
  {
    hide Produce, Raises, OnTrack;
    out, raised := [], false;
    var i := 0;
    TrackStart(next, history, n, brk);
    TrackStart(next, history, Min(n, room), brk);
    while i < n
      invariant 0 <= i <= n && i == |out| && i <= room
      invariant OnTrack(next, history, n, brk, out) && OnTrack(next, history, Min(n, room), brk, out)
    {
      if i == room {
        TrackRaises(next, history, n, brk, out);
        return out, true;
      }
      TrackNext(next, history, n, brk, out);
      TrackNext(next, history, Min(n, room), brk, out);
      var tok := next(history + out);
      out := out + [tok];
      if brk == Some(tok) {
        TrackBreaks(next, history, n, brk, room, out);
        return;
      }
      i := i + 1;
    }
    TrackEnds(next, history, n, brk, room, out);
  }

  /** `sofar` is the front of the burst, which goes on from there. */
  ghost predicate OnTrack(next: Next, h: seq<Token>, n: nat, brk: Option<Token>, sofar: seq<Token>) {
    |sofar| <= n && Produce(next, h, n, brk) == sofar + Produce(next, h + sofar, n - |sofar|, brk)
  }

  lemma TrackStart(next: Next, h: seq<Token>, n: nat, brk: Option<Token>)
    ensures OnTrack(next, h, n, brk, [])
  {
    assert h + [] == h;
  }

  lemma TrackNext(next: Next, h: seq<Token>, n: nat, brk: Option<Token>, sofar: seq<Token>)
    requires OnTrack(next, h, n, brk, sofar) && |sofar| < n
    ensures var tok := next(h + sofar);
      if brk == Some(tok) then Produce(next, h, n, brk) == sofar + [tok]
      else OnTrack(next, h, n, brk, sofar + [tok])
  {
    hide Produce;
    ProduceNext(next, h, sofar, n - |sofar|, brk);
  }

  lemma TrackRaises(next: Next, h: seq<Token>, n: nat, brk: Option<Token>, sofar: seq<Token>)
    requires OnTrack(next, h, n, brk, sofar) && |sofar| < n && OnTrack(next, h, |sofar|, brk, sofar)
    ensures Raises(next, h, n, brk, |sofar|) && sofar == Produce(next, h, |sofar|, brk)
  {
    hide Produce;
    ProduceNext(next, h, sofar, n - |sofar|, brk);
    NoneLeft(next, h + sofar, brk);
  }

  lemma TrackBreaks(next: Next, h: seq<Token>, n: nat, brk: Option<Token>, room: nat, out: seq<Token>)
    requires |out| <= room && Produce(next, h, n, brk) == out
    ensures !Raises(next, h, n, brk, room)
  {
  }

  lemma TrackEnds(next: Next, h: seq<Token>, n: nat, brk: Option<Token>, room: nat, out: seq<Token>)
    requires |out| == n <= room && OnTrack(next, h, n, brk, out)
    ensures out == Produce(next, h, n, brk) && !Raises(next, h, n, brk, room)
  {
    hide Produce;
    NoneLeft(next, h + out, brk);
  }

  /** The next token of a burst. */
  lemma ProduceNext(next: Next, history: seq<Token>, out: seq<Token>, n: nat, brk: Option<Token>)
    requires n > 0
    ensures var tok := next(history + out); var more := out + [tok];
      out + Produce(next, history + out, n, brk) ==
        if brk == Some(tok) then more else more + Produce(next, history + more, n - 1, brk)
    ensures Produce(next, history + out, n, brk) != []
  {
    var tok := next(history + out);
    assert history + out + [tok] == history + (out + [tok]);
    Reassociate(out, tok, Produce(next, history + out + [tok], n - 1, brk));
  }

  lemma NoneLeft(next: Next, h: seq<Token>, brk: Option<Token>)
    ensures Produce(next, h, 0, brk) == []
  {
  }

  /**
   Device loop: tokens go to a reused ring, fed back on the device, and are read once after the
   loop.  A burst that raises leaves them in the ring, and nobody reads them.
   */
  method BurstOnDevice(next: Next, history: seq<Token>, n: nat, ring: array<Token>, room: nat)
    returns (out: seq<Token>, raised: bool)
    requires n <= ring.Length
    modifies ring
    ensures raised <==> Raises(next, history, n, None, room)
    ensures out == if raised then [] else Produce(next, history, n, None)
    ensures ring[..Min(n, room)] == Produce(next, history, Min(n, room), None) && ring[n..] == old(ring[n..])
  {
    hide Produce, Raises, OnTrack;
    var context := history;
    var i := 0;
    out, raised := [], false;
    ghost var sofar: seq<Token> := [];
    TrackStart(next, history, n, None);
    TrackStart(next, history, Min(n, room), None);
    assert history + [] == history;
    while i < n
      invariant 0 <= i <= n && i <= room && i == |sofar| && context == history + sofar
      invariant ring[..i] == sofar && ring[n..] == old(ring[n..])
      invariant OnTrack(next, history, n, None, sofar) && OnTrack(next, history, Min(n, room), None, sofar)
    {
      if i == room {
        TrackRaises(next, history, n, None, sofar);
        return [], true;
      }
      TrackNext(next, history, n, None, sofar);
      TrackNext(next, history, Min(n, room), None, sofar);
      var tok := next(context);
      Put(ring, i, tok, n);
      sofar := sofar + [tok];
      Snoc(history, context, sofar, tok);
      context := context + [tok];
      i := i + 1;
    }
    TrackEnds(next, history, n, None, room, sofar);
    out := ring[..n];
  }

  /** The next cell of the ring. */
  method Put(ring: array<Token>, i: nat, tok: Token, ghost n: nat)
    requires i < n <= ring.Length
    modifies ring
    ensures ring[..i + 1] == old(ring[..i]) + [tok] && ring[n..] == old(ring[n..])
  {
    ring[i] := tok;
    assert ring[..i + 1] == ring[..i] + [tok];
  }

  lemma Snoc(history: seq<Token>, context: seq<Token>, sofar: seq<Token>, tok: Token)
    requires sofar != [] && sofar[|sofar| - 1] == tok && context == history + sofar[..|sofar| - 1]
    ensures context + [tok] == history + sofar
  {
    assert sofar == sofar[..|sofar| - 1] + [tok];
  }

  /** A burst is cut short only by the break token, which is its last. */
  lemma {:induction false} ProduceFull(next: Next, h: seq<Token>, n: nat, brk: Option<Token>)
    ensures var toks := Produce(next, h, n, brk);
      && (|toks| == n || (toks != [] && brk == Some(toks[|toks| - 1])))
      && forall i :: 0 <= i < |toks| - 1 ==> brk != Some(toks[i])
    decreases n
  {
    if n > 0 && brk != Some(next(h)) {
      ProduceFull(next, h + [next(h)], n - 1, brk);
    }
  }

  // ---------------------------------------------------------------- bursts that raise

  /** The request after a burst that raised: rows of every forward, tokens only if they were kept. */
  function Fallen(next: Next, r: Run, brk: Option<Token>, room: nat, device: bool): Run {
    var first := next(r.prompt + r.output);
    var toks := Produce(next, r.prompt + r.output + [first], room, brk);
    r.(output := r.output + [first] + (if device then [] else toks), cached := r.cached + 1 + |toks|)
  }

  /** A shorter burst is the front of a longer one. */
  lemma {:induction false} ProduceFront(next: Next, h: seq<Token>, n: nat, brk: Option<Token>, k: nat)
    requires k < |Produce(next, h, n, brk)|
    ensures Produce(next, h, k, brk) == Produce(next, h, n, brk)[..k]
    ensures forall i :: 0 <= i < k ==> brk != Some(Produce(next, h, n, brk)[i])
    decreases n
  {
    var t := next(h);
    if k > 0 {
      ProduceFront(next, h + [t], n - 1, brk, k - 1);
      var rest := Produce(next, h + [t], n - 1, brk);
      assert Produce(next, h, n, brk) == [t] + rest;
      assert ([t] + rest)[..k] == [t] + rest[..k - 1];
    }
  }

  /** Single steps keep rows and tokens in step until the request is done. */
  lemma {:induction false} SinglesInStep(next: Next, r: Run, k: nat)
    requires Running(r)
    ensures var q := Singles(next, r, k); q.done == None ==> q.cached - |q.output| == r.cached - |r.output|
    decreases k
  {
    if k > 0 {
      SinglesInStep(next, r, k - 1);
    }
  }

  /**
   A burst that raises leaves the state of some number of single steps exactly when its first
   token would not have stopped the request and no token was lost with the ring.
   */
  lemma FallenIsSinglesExactly(next: Next, r: Run, burst: nat, brk: Option<Token>, room: nat, device: bool)
    requires Running(r) && NoStrings(r.params) && BreakOk(r.params, brk)
    requires Raises(next, r.prompt + r.output + [next(r.prompt + r.output)], Extra(r, burst), brk, room)
    ensures (exists k: nat :: Fallen(next, r, brk, room, device) == Singles(next, r, k))
       <==> !StopsOn(r.params, next(r.prompt + r.output)) && !(device && room > 0)
  {
    hide Produce, Singles, Extra, StopsOn, BreakOk;
    var first := next(r.prompt + r.output);
    var f := Fallen(next, r, brk, room, device);
    var toks := FallenTokens(next, r, burst, brk, room);
    if StopsOn(r.params, first) {
      forall k: nat
        ensures f != Singles(next, r, k)
      {
        StopsAtOnce(next, r, k);
        NoSteps(next, r);
        assert |f.output| > |r.output|;
      }
    } else if device && room > 0 {
      forall k: nat
        ensures f != Singles(next, r, k)
      {
        SinglesInStep(next, r, k);
      }
    } else {
      FallenGo(next, r, burst, brk, room, toks);
      assert f == Singles(next, r, room + 1);
    }
  }

  /** The tokens of a burst that raised: `room` of them, and no break token. */
  lemma FallenTokens(next: Next, r: Run, burst: nat, brk: Option<Token>, room: nat) returns (toks: seq<Token>)
    requires Running(r)
    requires Raises(next, r.prompt + r.output + [next(r.prompt + r.output)], Extra(r, burst), brk, room)
    ensures toks == Produce(next, r.prompt + r.output + [next(r.prompt + r.output)], room, brk) && |toks| == room
    ensures |r.output| + room + 1 < r.params.maxTokens
    ensures forall i :: 0 <= i < room ==> brk != Some(toks[i])
  {
    var h1 := r.prompt + r.output + [next(r.prompt + r.output)];
    ProduceFront(next, h1, Extra(r, burst), brk, room);
    toks := Produce(next, h1, room, brk);
  }

  lemma FallenGo(next: Next, r: Run, burst: nat, brk: Option<Token>, room: nat, toks: seq<Token>)
    requires Running(r) && NoStrings(r.params) && BreakOk(r.params, brk)
    requires !StopsOn(r.params, next(r.prompt + r.output))
    requires toks == Produce(next, r.prompt + r.output + [next(r.prompt + r.output)], room, brk) && |toks| == room
    requires |r.output| + room + 1 < r.params.maxTokens && forall i :: 0 <= i < room ==> brk != Some(toks[i])
    ensures Singles(next, r, room + 1)
         == r.(output := r.output + [next(r.prompt + r.output)] + toks, cached := r.cached + 1 + room)
  {
    hide Produce, Singles;
    var h, first := r.prompt + r.output, next(r.prompt + r.output);
    var all := [first] + toks;
    ProduceIsChain(next, h + [first], room, brk);
    ChainCons(next, h, toks);
    SinglesGo(next, r, all, room + 1);
    assert all[..room + 1] == all && r.output + all == r.output + [first] + toks;
  }
}
