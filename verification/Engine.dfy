/**
 The engine as a state machine over requests, pages and the prefix tree: admission with a prefix
 hit, page preparation, forward passes that read and write the pages, delivery with insertion
 of the prompt into the tree, and finishing.  Steps of different requests interleave freely, so
 every batch composition and every order within a batch is covered.
 */
module Engine {
  import opened Prelude
  import opened Paging
  import opened Ledger
  import opened PagePool
  import opened Allocator
  import opened PrefixTree
  import opened Generation

  datatype Seq = Seq(
    prompt: seq<Token>, seed: nat,
    output: seq<Token>,
    cached: nat,                    // rows of the table that hold KV
    table: seq<nat>,
    logits: Option<Logits>,         // logits after the last prompt token
    ready: bool,                    // pages prepared for the next forward
    warm: bool,                     // the last forward was a decode of this request
    cold: bool,                     // a burst entered the current page without the page check
    pending: Option<Token>,         // sampled by the last forward, not delivered yet
    pre: bool,                      // the last forward was a prefill
    finished: bool)

  datatype State = State(c: Cache, seqs: map<nat, Seq>)

  datatype Step =
    | Admit(id: nat, prompt: seq<Token>, seed: nat)
    | Prepare(id: nat)
    | Burst(id: nat)
    | Forward(id: nat)
    | Deliver(id: nat)
    | Finish(id: nat, keep: nat)
    | Lose(id: nat, k: nat)

  ghost function Tables(seqs: map<nat, Seq>): Owners {
    map id | id in seqs :: Sequence(id) := seqs[id].table
  }

  // ---------------------------------------------------------------- steps

  ghost function DoAdmit(e: State, id: nat, prompt: seq<Token>, seed: nat): State
    requires e.c.bs > 0
  {
    var (h, c') := Match(e.c, prompt);
    var s := match h
      case Miss => Seq(prompt, seed, [], 0, [], None, false, false, false, None, false, false)
      case Hit(len, blocks, logits) => Seq(prompt, seed, [], len, blocks, logits, false, false, false, None, false,
                                           false);
    State(c', e.seqs[id := s])
  }

  /** _ensure_blocks: grows the table one page at a time; an allocation failure stops it. */
  ghost function Ensure(c: Cache, table: seq<nat>, need: nat): (r: (bool, Cache, seq<nat>))
    decreases need - |table|
  {
    if |table| >= need then (true, c, table)
    else match AllocBlocks(c, 1)
      case Oom(c1) => (false, c1, table)
      case Got(c1, ids) => if |ids| == 1 then Ensure(c1, table + ids, need) else (false, c1, table)
  }

  predicate NeedsPrefill(s: Seq) {
    s.cached < |s.prompt|
  }

  /** First token straight from the stored logits of an exact hit. */
  predicate FromLogits(s: Seq) {
    s.output == [] && s.logits.Some? && s.cached >= |s.prompt|
  }

  /** Page growth before a prefill; page growth and copy-on-write before a decode. */
  ghost function DoPrepare(e: State, id: nat): State
    requires id in e.seqs && e.c.bs > 0
  {
    var s := e.seqs[id];
    var total := if NeedsPrefill(s) then |s.prompt| else s.cached + 1;
    var (ok, c1, t1) := Ensure(e.c, s.table, Pages(total, e.c.bs));
    var page := PageOf(s.cached, e.c.bs);
    if !ok || NeedsPrefill(s) || page >= |t1| then
      State(c1, e.seqs[id := s.(table := t1, ready := ok)])
    else match Cow(c1, t1[page])
      case Oom(c2) => State(c2, e.seqs[id := s.(table := t1, ready := false)])
      case Got(c2, ids) =>
        if |ids| == 1 then State(c2, e.seqs[id := s.(table := Replace(t1, page, ids[0]), ready := true, cold := false)])
        else State(c2, e.seqs[id := s.(table := t1, ready := false)])
  }

  /** A step inside a decode burst looks at its pages only when it enters a new one. */
  ghost function DoBurst(e: State, id: nat): State
    requires id in e.seqs && e.c.bs > 0
  {
    var s := e.seqs[id];
    if SlotOf(s.cached, e.c.bs) == 0 || s.table == [] then DoPrepare(e, id)
    else State(e.c, e.seqs[id := s.(ready := true, cold := s.cold || !s.warm)])
  }

  function NextInput(s: Seq): seq<Token>
    requires s.prompt != []
  {
    if NeedsPrefill(s) then s.prompt[s.cached..]
    else if s.output != [] then [s.output[|s.output| - 1]]
    else [s.prompt[|s.prompt| - 1]]
  }

  /** One forward: reads the cached rows from the pages, writes the new ones, samples. */
  ghost function DoForward(m: Model, e: State, id: nat): State
    requires id in e.seqs && e.seqs[id].prompt != [] && e.c.bs > 0
  {
    var s := e.seqs[id];
    if FromLogits(s) then
      State(e.c, e.seqs[id := s.(cached := |s.prompt|, warm := false, cold := false,
                                 pending := Some(m.pick(s.logits.value, s.seed, 0)), pre := false)])
    else
      var input := NextInput(s);
      var n := s.cached + |input|;
      if !s.ready || !Covers(e.c.kv, s.table, e.c.bs, n) || !Covers(e.c.kv, s.table, e.c.bs, s.cached) then e
      else
        var past := Flat(e.c.kv, s.table, e.c.bs, s.cached);
        var rows := Extend(m, past, input);
        var logits := m.out(past + rows);
        var tok := m.pick(logits, s.seed, |s.output|);
        State(e.c.(kv := Write(e.c.kv, s.table, e.c.bs, s.cached, rows)),
              e.seqs[id := s.(cached := n, ready := false, warm := !NeedsPrefill(s),
                              cold := s.cold && !NeedsPrefill(s) && SlotOf(n, e.c.bs) != 0,
                              pending := Some(tok), pre := NeedsPrefill(s),
                              logits := if NeedsPrefill(s) then Some(logits) else s.logits)])
  }

  /** Delivery of the sampled token; after a prefill the prompt's pages enter the tree. */
  ghost function DoDeliver(e: State, id: nat): State
    requires id in e.seqs && e.seqs[id].pending.Some?
  {
    var s := e.seqs[id];
    State(if s.pre then Insert(e.c, s.prompt, s.table, s.logits) else e.c,
          e.seqs[id := s.(output := s.output + [s.pending.value], pending := None, pre := false)])
  }

  /** mark_finished, with the output trimmed to `keep` tokens by a stop rule. */
  ghost function DoFinish(e: State, id: nat, keep: nat): State
    requires id in e.seqs
  {
    var s := e.seqs[id];
    State(Release(e.c, s.table),
          e.seqs[id := s.(table := [], finished := true, ready := false, warm := false, cold := false, pending := None,
                          pre := false,
                          output := if keep <= |s.output| then s.output[..keep] else s.output)])
  }

  /** A burst that raised before its token ring was read: the rows are written, the tokens are gone. */
  ghost function DoLose(e: State, id: nat, k: nat): State
    requires id in e.seqs
  {
    var s := e.seqs[id];
    var n := if k <= |s.output| then |s.output| - k else 0;
    State(e.c, e.seqs[id := s.(output := s.output[..n])])
  }

  ghost predicate Enabled(e: State, step: Step) {
    match step
    case Admit(id, prompt, _) => id !in e.seqs && prompt != []
    case Prepare(id) => id in e.seqs && !e.seqs[id].finished && e.seqs[id].pending.None? && !FromLogits(e.seqs[id])
    case Burst(id) =>
      id in e.seqs && !e.seqs[id].finished && e.seqs[id].pending.None? && e.seqs[id].output != []
    case Forward(id) => id in e.seqs && !e.seqs[id].finished && e.seqs[id].pending.None?
    case Deliver(id) => id in e.seqs && !e.seqs[id].finished && e.seqs[id].pending.Some?
    case Finish(id, _) => id in e.seqs && !e.seqs[id].finished
    case Lose(id, _) => id in e.seqs && !e.seqs[id].finished && e.seqs[id].pending.None?
  }

  ghost function Apply(m: Model, e: State, step: Step): State {
    if !Enabled(e, step) || e.c.bs == 0 then e
    else match step
      case Admit(id, prompt, seed) => DoAdmit(e, id, prompt, seed)
      case Prepare(id) => DoPrepare(e, id)
      case Burst(id) => DoBurst(e, id)
      case Forward(id) => if e.seqs[id].prompt != [] then DoForward(m, e, id) else e
      case Deliver(id) => DoDeliver(e, id)
      case Finish(id, keep) => DoFinish(e, id, keep)
      case Lose(id, k) => DoLose(e, id, k)
  }

  ghost function Run(m: Model, e: State, steps: seq<Step>): State
    decreases |steps|
  {
    if steps == [] then e else Apply(m, Run(m, e, steps[..|steps| - 1]), steps[|steps| - 1])
  }

  /** The hit of an admission is empty, exact, or ends on a page boundary. */
  ghost predicate AlignedHit(c: Cache, prompt: seq<Token>)
    requires c.bs > 0
  {
    match Lookup(c, prompt)
    case Miss => true
    case Hit(len, _, _) => len == |prompt| || SlotOf(len, c.bs) == 0
  }

  // ---------------------------------------------------------------- cold bursts

  /** The first `n` rows read through `l` lie below slot `slot` of page `b`. */
  ghost predicate ReadsBelow(l: seq<nat>, n: nat, b: nat, slot: nat, bs: nat) {
    forall k :: 0 <= k < |l| && l[k] == b ==> n <= Multiple(k, bs) + slot
  }

  /** Page `b` is the one the request writes next. */
  ghost predicate WritesNext(s: Seq, b: nat, bs: nat)
    requires bs > 0
  {
    PageOf(s.cached, bs) < |s.table| && s.table[PageOf(s.cached, bs)] == b
  }

  /** The request neither reads page `b` from `slot` on nor writes it unchecked. */
  ghost predicate Spares(s: Seq, b: nat, slot: nat, bs: nat)
    requires bs > 0
  {
    ReadsBelow(s.table, s.cached, b, slot, bs) && (s.cold ==> !WritesNext(s, b, bs))
  }

  /**
   The cells that request `id` writes next on its current page are read by nobody else: no other
   live request reads at or past them, and no node that lists the page is longer.
   */
  ghost predicate Cleared(e: State, id: nat)
    requires id in e.seqs && e.c.bs > 0
  {
    var s := e.seqs[id];
    var page, slot := PageOf(s.cached, e.c.bs), SlotOf(s.cached, e.c.bs);
    slot != 0 ==>
      && page < |s.table|
      && (forall j :: j in e.seqs && j != id && !e.seqs[j].finished ==> Spares(e.seqs[j], s.table[page], slot, e.c.bs))
      && (forall p :: p in e.c.tree ==> ReadsBelow(e.c.tree[p].blocks, |p|, s.table[page], slot, e.c.bs))
  }

  /** Every request that bursts on an unchecked page is inside it, and its cells are cleared. */
  ghost predicate ColdOk(e: State) {
    e.c.bs > 0 &&
    forall id :: id in e.seqs && !e.seqs[id].finished && e.seqs[id].cold ==>
      SlotOf(e.seqs[id].cached, e.c.bs) != 0 && Cleared(e, id)
  }

  /**
   Hits are aligned.  A burst goes on from a decode forward of the same request, or starts where
   nobody else reads, and loses no tokens.
   */
  ghost predicate SafeStep(e: State, step: Step) {
    match step
    case Admit(_, prompt, _) => e.c.bs > 0 ==> AlignedHit(e.c, prompt)
    case Burst(id) => e.c.bs > 0 && id in e.seqs ==> e.seqs[id].warm || Cleared(e, id)
    case Lose(_, k) => k == 0
    case _ => true
  }

  ghost predicate SafeRun(m: Model, e: State, steps: seq<Step>) {
    forall i :: 0 <= i < |steps| ==> SafeStep(Run(m, e, steps[..i]), steps[i])
  }

  // ---------------------------------------------------------------- invariant

  ghost function History(s: Seq): seq<Token> {
    s.prompt + s.output
  }

  /** The pages a prefill will write are private. */
  ghost predicate PrefillPages(c: Cache, s: Seq)
    requires c.bs > 0
  {
    && SlotOf(s.cached, c.bs) == 0
    && (forall i :: PageOf(s.cached, c.bs) <= i < |s.table| ==> s.table[i] in c.alloc && c.alloc[s.table[i]] == 1)
    && (s.ready ==> Pages(|s.prompt|, c.bs) <= |s.table|)
  }

  /** The page a decode will write is private, or was entered by a burst. */
  ghost predicate DecodePage(c: Cache, s: Seq)
    requires c.bs > 0
  {
    s.ready ==>
      && Pages(s.cached + 1, c.bs) <= |s.table|
      && (s.cold || (s.table[PageOf(s.cached, c.bs)] in c.alloc && c.alloc[s.table[PageOf(s.cached, c.bs)]] == 1))
  }

  /** After a decode forward the rest of its page stays private, unless a burst entered it. */
  ghost predicate WarmPage(c: Cache, s: Seq)
    requires c.bs > 0
  {
    s.warm && SlotOf(s.cached, c.bs) != 0 ==>
      && Pages(s.cached + 1, c.bs) <= |s.table|
      && (s.cold || (s.table[PageOf(s.cached, c.bs)] in c.alloc && c.alloc[s.table[PageOf(s.cached, c.bs)]] == 1))
  }

  ghost predicate Progress(m: Model, c: Cache, s: Seq)
    requires c.bs > 0
  {
    && WarmPage(c, s)
    && if s.pending.Some? then
      && s.cached == |s.prompt| + |s.output| && !s.ready
      && s.pending.value == m.pick(m.out(KV(m, History(s))), s.seed, |s.output|)
      && (s.pre ==> s.output == [] && !s.warm && s.logits == Some(m.out(KV(m, s.prompt))))
      && (s.output == [] ==> !s.cold) && (s.output != [] ==> s.warm)
    else if s.output == [] then
      && s.cached <= |s.prompt| && !s.cold && !s.warm
      && (s.cached == |s.prompt| ==> s.logits == Some(m.out(KV(m, s.prompt))) && !s.ready)
      && (s.cached < |s.prompt| ==> PrefillPages(c, s))
    else
      s.cached == |s.prompt| + |s.output| - 1 && DecodePage(c, s) && (|s.output| > 1 ==> s.warm)
  }

  /** The rows a live request reads are the rows of its own history. */
  ghost predicate Rows(m: Model, c: Cache, s: Seq) {
    && Covers(c.kv, s.table, c.bs, s.cached)
    && s.cached <= |History(s)|
    && Flat(c.kv, s.table, c.bs, s.cached) == KV(m, History(s)[..s.cached])
  }

  ghost predicate SeqOk(m: Model, c: Cache, s: Seq)
    requires c.bs > 0
  {
    && s.prompt != []
    && s.output == Reference(m, s.seed, s.prompt, |s.output|)
    && (if s.finished then s.table == [] else Rows(m, c, s) && Progress(m, c, s))
  }

  /** A node with pages holds the rows and the logits of its own path. */
  ghost predicate NodeOk(m: Model, c: Cache, p: Path, blocks: seq<nat>, logits: Option<Logits>) {
    blocks != [] ==>
      && Covers(c.kv, blocks, c.bs, |p|)
      && Flat(c.kv, blocks, c.bs, |p|) == KV(m, p)
      && logits == Some(m.out(KV(m, p)))
  }

  ghost predicate Content(m: Model, e: State) {
    && e.c.bs > 0
    && (forall id :: id in e.seqs ==> SeqOk(m, e.c, e.seqs[id]))
    && (forall p :: p in e.c.tree ==> NodeOk(m, e.c, p, e.c.tree[p].blocks, e.c.tree[p].logits))
  }

  ghost predicate Good(m: Model, e: State) {
    Inv(e.c, Tables(e.seqs)) && Content(m, e)
  }

  /** Good, and every cold burst writes where nobody else reads. */
  ghost predicate Sound(m: Model, e: State) {
    Good(m, e) && ColdOk(e)
  }

  // ---------------------------------------------------------------- frames

  lemma TablesSet(seqs: map<nat, Seq>, id: nat, s: Seq)
    ensures Tables(seqs[id := s]) == Tables(seqs)[Sequence(id) := s.table]
  {
    var l, r := Tables(seqs[id := s]), Tables(seqs)[Sequence(id) := s.table];
    assert l.Keys == r.Keys by {
      forall k
        ensures k in l.Keys <==> k in r.Keys
      {
        if k in r.Keys && k != Sequence(id) {
          var j :| j in seqs && k == Sequence(j);
          assert j in seqs[id := s];
        }
      }
    }
  }

  ghost predicate SameSize(c: Cache, c': Cache) {
    c'.bs == c.bs && |c'.kv| == |c.kv| && GridOk(c'.kv, c.bs)
  }

  /** Private pages of the list stay private. */
  ghost predicate StillPrivate(c: Cache, c': Cache, l: seq<nat>) {
    forall b :: b in l && b in c.alloc && c.alloc[b] == 1 ==> b in c'.alloc && c'.alloc[b] == 1
  }

  lemma FlatSame(c: Cache, c': Cache, l: seq<nat>, n: nat)
    requires SameSize(c, c') && SameRows(c, c', l) && Covers(c.kv, l, c.bs, n)
    ensures Covers(c'.kv, l, c.bs, n) && Flat(c'.kv, l, c.bs, n) == Flat(c.kv, l, c.bs, n)
  {
    forall k | 0 <= k < |l|
      ensures c.kv[l[k]] == c'.kv[l[k]]
    {
      assert l[k] in l;
    }
    FlatAgree(c'.kv, c.kv, l, l, c.bs, n);
  }

  /** The first `n` rows read through `l` are the same in both states. */
  ghost predicate ReadsKept(c: Cache, c': Cache, l: seq<nat>, n: nat) {
    Covers(c.kv, l, c.bs, n) ==> Covers(c'.kv, l, c.bs, n) && Flat(c'.kv, l, c.bs, n) == Flat(c.kv, l, c.bs, n)
  }

  lemma RowsReadsKept(c: Cache, c': Cache, l: seq<nat>, n: nat)
    requires SameSize(c, c') && SameRows(c, c', l)
    ensures ReadsKept(c, c', l, n)
  {
    if Covers(c.kv, l, c.bs, n) {
      FlatSame(c, c', l, n);
    }
  }

  lemma SeqFrame(m: Model, c: Cache, c': Cache, s: Seq)
    requires c.bs > 0 && SeqOk(m, c, s) && SameSize(c, c') && ReadsKept(c, c', s.table, s.cached)
    requires StillPrivate(c, c', s.table)
    ensures SeqOk(m, c', s)
  {
    hide KV, Reference;
    if !s.finished {
      forall i | 0 <= i < |s.table|
        ensures s.table[i] in s.table
      {
      }
      PageInRange(s.cached, s.cached + 1, c.bs);
    }
  }

  lemma NodeFrame(m: Model, c: Cache, c': Cache, p: Path, blocks: seq<nat>, logits: Option<Logits>)
    requires NodeOk(m, c, p, blocks, logits) && SameSize(c, c') && ReadsKept(c, c', blocks, |p|)
    ensures NodeOk(m, c', p, blocks, logits)
  {
  }

  /** What a step must leave alone for everything but request `id` and node `node`. */
  ghost predicate Undisturbed(e: State, c': Cache, id: nat, node: Path) {
    && SameSize(e.c, c')
    && (forall j :: j in e.seqs && j != id ==>
          ReadsKept(e.c, c', e.seqs[j].table, e.seqs[j].cached) && StillPrivate(e.c, c', e.seqs[j].table))
    && (forall p :: p in c'.tree && p != node ==>
          if p in e.c.tree then
            && c'.tree[p].blocks == e.c.tree[p].blocks && c'.tree[p].logits == e.c.tree[p].logits
            && ReadsKept(e.c, c', e.c.tree[p].blocks, |p|)
          else c'.tree[p].blocks == [])
  }

  lemma ContentFrame(m: Model, e: State, c': Cache, id: nat, s: Seq, node: Path)
    requires Content(m, e) && Undisturbed(e, c', id, node) && SeqOk(m, c', s)
    requires node in c'.tree ==> NodeOk(m, c', node, c'.tree[node].blocks, c'.tree[node].logits)
    ensures Content(m, State(c', e.seqs[id := s]))
  {
    hide SeqOk, NodeOk, ReadsKept, StillPrivate;
    forall j | j in e.seqs && j != id
      ensures SeqOk(m, c', e.seqs[j])
    {
      SeqFrame(m, e.c, c', e.seqs[j]);
    }
    forall p | p in c'.tree && p != node
      ensures NodeOk(m, c', p, c'.tree[p].blocks, c'.tree[p].logits)
    {
      if p in e.c.tree {
        NodeFrame(m, e.c, c', p, e.c.tree[p].blocks, e.c.tree[p].logits);
      } else {
        EmptyNode(m, c', p, c'.tree[p].logits);
      }
    }
  }

  lemma EmptyNode(m: Model, c: Cache, p: Path, logits: Option<Logits>)
    ensures NodeOk(m, c, p, [], logits)
  {
  }
}
