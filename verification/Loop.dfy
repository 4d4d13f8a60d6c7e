/**
 The engine loop: submission, admission, cancellation, timeouts, pumping and delta frames, as a
 state machine over the scheduler.  The runner is an oracle that gives every batch member its
 tokens, fails the whole batch, or raises out of the burst of a lone decode.
 */
module Loop {
  import opened Prelude
  import opened Scheduling
  import opened Limits

  datatype Frame = Delta(toks: seq<Token>) | Final(reason: Reason, output: seq<Token>)

  datatype Pending = Pending(rid: nat, prompt: seq<Token>, params: Params)

  datatype Gen = Gen(rid: nat, prompt: seq<Token>, params: Params, output: seq<Token>)

  datatype State = State(
    s: Sched,
    gen: map<nat, Gen>,                 // output of each admitted request, by sequence id
    queue: seq<Pending>,                // submitted, not admitted
    cancelled: set<nat>,                // request ids cancelled so far
    open: set<nat>,                     // request ids whose delta queue is still registered
    frames: map<nat, seq<Frame>>,       // everything put on each delta queue
    draining: bool)

  /**
   What the runner makes of one batch: it fails, gives every member a token and a burst more, or
   gives the first token and raises inside the burst, with `kept` in the output by then.
   */
  datatype Outcome =
    | Crash
    | Tokens(first: nat -> Token, more: seq<Token>)
    | Raised(first: nat -> Token, kept: seq<Token>)

  // ---------------------------------------------------------------- frames

  /** _emit: only a registered queue receives the frame; a final frame unregisters it. */
  function Emit(l: State, rid: nat, f: Frame): State {
    if rid !in l.open || rid !in l.frames then l
    else l.(frames := l.frames[rid := l.frames[rid] + [f]],
            open := if f.Final? then l.open - {rid} else l.open)
  }

  /** Exactly one final frame, and it is the last one. */
  ghost predicate Closed(fs: seq<Frame>) {
    && fs != [] && fs[|fs| - 1].Final?
    && forall i :: 0 <= i < |fs| - 1 ==> fs[i].Delta?
  }

  ghost predicate AllDeltas(fs: seq<Frame>) {
    forall i :: 0 <= i < |fs| ==> fs[i].Delta?
  }

  // ---------------------------------------------------------------- requests

  predicate Admissible(l: State, prompt: seq<Token>, p: Params) {
    !l.draining && p.maxTokens > 0 && prompt != []
  }

  function DoSubmit(l: State, rid: nat, prompt: seq<Token>, p: Params): State {
    if !Admissible(l, prompt, p) then l
    else l.(queue := l.queue + [Pending(rid, prompt, p)], open := l.open + {rid}, frames := l.frames[rid := []])
  }

  /** begin_drain: new requests are refused, everything accepted is still worked on. */
  function DoDrain(l: State): State {
    l.(draining := true)
  }

  function DoCancelReq(l: State, rid: nat): State {
    Emit(l.(cancelled := l.cancelled + {rid}, s := DoCancel(l.s, rid)), rid, Final(Cancelled, []))
  }

  function DoTimeout(l: State, rid: nat): State {
    Emit(l.(s := DoCancel(l.s, rid)), rid, Final(TimedOut, []))
  }

  /** One queued request: dropped if cancelled, refused if the scheduler is full, else admitted. */
  function AdmitOne(cfg: Config, l: State, it: Pending, hit: nat): State {
    if it.rid in l.cancelled then l.(cancelled := l.cancelled - {it.rid})
    else if !Accepts(cfg, l.s, |it.prompt|) then Emit(l, it.rid, Final(Failed, []))
    else l.(s := DoAdd(cfg, l.s, it.rid, |it.prompt|, hit),
            gen := l.gen[l.s.nextId := Gen(it.rid, it.prompt, it.params, [])])
  }

  function AdmitAll(cfg: Config, l: State, hits: nat -> nat): State
    decreases |l.queue|
  {
    if l.queue == [] then l
    else
      var it := l.queue[0];
      var l1 := l.(queue := l.queue[1..]);
      AdmitAll(cfg, AdmitOne(cfg, l1, it, hits(it.rid)).(queue := l.queue[1..]), hits)
  }

  // ---------------------------------------------------------------- pumping

  function FailOne(l: State, id: nat): State {
    if id !in l.gen || id !in l.s.table then l
    else Emit(l.(s := DoFinish(l.s, id)), l.gen[id].rid, Final(Failed, l.gen[id].output))
  }

  function FailAll(l: State, ids: seq<nat>): State
    decreases |ids|
  {
    if ids == [] then l else FailAll(FailOne(l, ids[0]), ids[1..])
  }

  /** Appends the tokens of one batch member, applies the stop rules and emits the frame. */
  function DeliverOne(l: State, id: nat, toks: seq<Token>): State {
    if id !in l.gen || id !in l.s.table || l.s.table[id].finished then l
    else
      var g := l.gen[id];
      if g.rid in l.cancelled then
        Emit(l.(s := DoFinish(l.s, id)), g.rid, Final(Cancelled, []))
      else
        var out := g.output + toks;
        var s1 := DoAdvance(l.s, id, |g.prompt| + |out|);
        match JudgeAll(g.params, out, toks)
        case Go => Emit(l.(s := s1, gen := l.gen[id := g.(output := out)]), g.rid, Delta(toks))
        case Stop(r, o) =>
          Emit(l.(s := DoFinish(s1, id), gen := l.gen[id := g.(output := o)]), g.rid, Final(r, o))
  }

  /** A burst raised: its tokens stay in the output, unjudged, and no frame tells of them. */
  function KeepOne(l: State, id: nat, toks: seq<Token>): State {
    if id !in l.gen || id !in l.s.table || l.s.table[id].finished then l
    else
      var g := l.gen[id];
      var out := g.output + toks;
      l.(s := DoAdvance(l.s, id, |g.prompt| + |out|), gen := l.gen[id := g.(output := out)])
  }

  function DeliverAll(l: State, ids: seq<nat>, first: nat -> Token): State
    decreases |ids|
  {
    if ids == [] then l else DeliverAll(DeliverOne(l, ids[0], [first(ids[0])]), ids[1..], first)
  }

  /** A batch that is one decode continues with up to `burst - 1` more tokens. */
  function Extra(l: State, b: Batch, burst: nat): nat {
    if burst > 1 && |b.ids| == 1 && !Flags(l.s.table, b)[0] && b.ids[0] in l.gen then
      var g := l.gen[b.ids[0]];
      var left: nat := if g.params.maxTokens > |g.output| then g.params.maxTokens - |g.output| - 1 else 0;
      if left < burst - 1 then left else burst - 1
    else 0
  }

  /** One scheduler step on an already admitted state. */
  function PumpBatch(cfg: Config, l: State, burst: nat, o: Outcome): State {
    var b := FormBatch(cfg, l.s);
    var l1 := l.(s := DoStep(cfg, l.s));
    if b.ids == [] then l1
    else match o
      case Crash => FailAll(l1, b.ids)
      case Tokens(first, more) =>
        var n := Extra(l, b, burst);
        if n > 0 then DeliverOne(l1, b.ids[0], [first(b.ids[0])] + if n <= |more| then more[..n] else more)
        else DeliverAll(l1, b.ids, first)
      case Raised(first, kept) =>
        var n := Extra(l, b, burst);
        if n > 0 then KeepOne(l1, b.ids[0], [first(b.ids[0])] + if n - 1 <= |kept| then kept[..n - 1] else kept)
        else DeliverAll(l1, b.ids, first)
  }

  /** The pump raises: its batch is one decode that bursts, and the burst fails. */
  predicate Raises(cfg: Config, l: State, burst: nat, hits: nat -> nat, o: Outcome) {
    var l1 := AdmitAll(cfg, l, hits);
    var b := FormBatch(cfg, l1.s);
    o.Raised? && b.ids != [] && Extra(l1, b, burst) > 0
  }

  function DoPump(cfg: Config, l: State, burst: nat, hits: nat -> nat, o: Outcome): State {
    PumpBatch(cfg, AdmitAll(cfg, l, hits), burst, o)
  }

  predicate Busy(l: State) {
    l.s.waiting != [] || l.s.running != [] || l.queue != []
  }

  // ---------------------------------------------------------------- invariant

  ghost predicate InQueue(queue: seq<Pending>, rid: nat) {
    exists i :: 0 <= i < |queue| && queue[i].rid == rid
  }

  /** Live request ids and unfinished sequences are in one-to-one correspondence. */
  ghost predicate Indexed(table: map<nat, Req>, byRid: map<nat, nat>) {
    && (forall rid :: rid in byRid ==>
          byRid[rid] in table && !table[byRid[rid]].finished && table[byRid[rid]].rid == rid)
    && (forall id :: id in table && !table[id].finished ==>
          table[id].rid in byRid && byRid[table[id].rid] == id)
  }

  /** Every sequence has its generation record; a live one has room for another token. */
  ghost predicate Generating(table: map<nat, Req>, gen: map<nat, Gen>) {
    && gen.Keys == table.Keys
    && (forall id :: id in gen ==>
          && gen[id].rid == table[id].rid && |gen[id].prompt| == table[id].prompt
          && |gen[id].output| <= gen[id].params.maxTokens
          && (!table[id].finished ==> |gen[id].output| < gen[id].params.maxTokens))
  }

  ghost predicate Queued(queue: seq<Pending>, byRid: map<nat, nat>, known: set<nat>) {
    && (forall i, j :: 0 <= i < j < |queue| ==> queue[i].rid != queue[j].rid)
    && (forall i :: 0 <= i < |queue| ==>
          queue[i].rid !in byRid && queue[i].rid in known && queue[i].params.maxTokens > 0)
  }

  /** An open delta queue has no final frame yet; a closed one has exactly one, last. */
  ghost predicate FramesOk(open: set<nat>, frames: map<nat, seq<Frame>>) {
    && (forall rid :: rid in open ==> rid in frames && AllDeltas(frames[rid]))
    && (forall rid :: rid in frames && rid !in open ==> Closed(frames[rid]))
  }

  /** The request is waiting to be admitted or live in the scheduler, and not cancelled. */
  ghost predicate Attended(queue: seq<Pending>, byRid: map<nat, nat>, cancelled: set<nat>, rid: nat) {
    rid !in cancelled && (InQueue(queue, rid) || rid in byRid)
  }

  /** Every open delta queue belongs to an attended request, except possibly those of `but`. */
  ghost predicate OpenAttended(l: State, but: set<nat>) {
    forall rid :: rid in l.open && rid !in but ==> Attended(l.queue, l.s.byRid, l.cancelled, rid)
  }

  ghost predicate Core(cfg: Config, l: State) {
    && Inv(cfg, l.s) && Indexed(l.s.table, l.s.byRid) && Generating(l.s.table, l.gen)
    && Queued(l.queue, l.s.byRid, l.frames.Keys) && FramesOk(l.open, l.frames)
    && l.s.byRid.Keys <= l.frames.Keys
  }

  ghost predicate LoopInv(cfg: Config, l: State) {
    Core(cfg, l) && OpenAttended(l, {})
  }

  // ---------------------------------------------------------------- measure

  function Left(gen: map<nat, Gen>, id: nat): nat {
    if id in gen && gen[id].params.maxTokens > |gen[id].output| then gen[id].params.maxTokens - |gen[id].output| else 0
  }

  function SumLeft(gen: map<nat, Gen>, ids: seq<nat>): nat {
    if ids == [] then 0 else Left(gen, ids[0]) + SumLeft(gen, ids[1..])
  }

  function SumQueue(q: seq<Pending>): nat {
    if q == [] then 0 else 1 + q[0].params.maxTokens + SumQueue(q[1..])
  }

  /** Tokens still owed to live requests, plus the queue with its admissions. */
  function Work(l: State): nat {
    SumLeft(l.gen, l.s.waiting) + SumLeft(l.gen, l.s.running) + SumQueue(l.queue)
  }
}
