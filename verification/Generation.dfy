/**
 The model forward as a deterministic function of the KV rows it attends to, and the reference
 generation that uses no cache, no pages and no batching.
 */
module Generation {
  import opened Prelude

  datatype Model = Model(
    step: (seq<Row>, Token) -> Row,          // KV row of one token after the given rows
    out: seq<Row> -> Logits,                 // logits after the given rows
    pick: (Logits, nat, nat) -> Token)       // sample: logits, request's sampling seed, output index

  /** KV rows of a token history computed from scratch. */
  ghost function KV(m: Model, tokens: seq<Token>): (rows: seq<Row>)
    ensures |rows| == |tokens|
    decreases |tokens|
  {
    if tokens == [] then []
    else
      var n := |tokens| - 1;
      KV(m, tokens[..n]) + [m.step(KV(m, tokens[..n]), tokens[n])]
  }

  /** Rows appended by one forward over `input` tokens after the rows `past`. */
  function Extend(m: Model, past: seq<Row>, input: seq<Token>): (rows: seq<Row>)
    ensures |rows| == |input|
    decreases |input|
  {
    if input == [] then []
    else
      var n := |input| - 1;
      var front := Extend(m, past, input[..n]);
      front + [m.step(past + front, input[n])]
  }

  /** Token-by-token reference decoding of a prompt. */
  ghost function Reference(m: Model, seed: nat, prompt: seq<Token>, n: nat): (tokens: seq<Token>)
    ensures |tokens| == n
  {
    if n == 0 then []
    else
      var g := Reference(m, seed, prompt, n - 1);
      g + [m.pick(m.out(KV(m, prompt + g)), seed, n - 1)]
  }

  lemma {:induction false} KVPrefix(m: Model, tokens: seq<Token>, n: nat)
    requires n <= |tokens|
    ensures KV(m, tokens)[..n] == KV(m, tokens[..n])
    decreases |tokens|
  {
    if n == |tokens| {
      assert tokens[..n] == tokens;
    } else {
      var k := |tokens| - 1;
      KVPrefix(m, tokens[..k], n);
      assert tokens[..k][..n] == tokens[..n];
      assert KV(m, tokens)[..n] == KV(m, tokens[..k])[..n];
    }
  }

  /** Continuing from cached rows gives the rows computed from scratch. */
  lemma {:induction false} ExtendIsKV(m: Model, done: seq<Token>, input: seq<Token>)
    ensures KV(m, done) + Extend(m, KV(m, done), input) == KV(m, done + input)
    decreases |input|
  {
    if input == [] {
      assert done + input == done;
    } else {
      var n := |input| - 1;
      ExtendIsKV(m, done, input[..n]);
      assert (done + input)[..|done| + n] == done + input[..n];
    }
  }

  lemma {:induction false} ReferencePrefix(m: Model, seed: nat, prompt: seq<Token>, n: nat, k: nat)
    requires k <= n
    ensures Reference(m, seed, prompt, n)[..k] == Reference(m, seed, prompt, k)
    decreases n
  {
    if k < n {
      ReferencePrefix(m, seed, prompt, n - 1, k);
    }
  }
}
