/**
 A run in which a burst raises.  Five pages of one row; a request with two rows in the tree that
 finished, a repeat of it that waits with a hit on both, and between them a request for [1] with
 four tokens to produce that ignores the end-of-sequence token.  Its burst writes one row and then
 finds no page.  The drain that raised leaves its queue open; and once the repeat is cancelled the
 request goes on from a stale token and is answered with tokens that are not the reference.
 */
module LostBurst {
  import opened Prelude
  import opened Paging
  import opened PagePool
  import opened Allocator
  import opened PrefixTree
  import opened Generation
  import opened Engine
  import opened EngineSafety
  import opened EngineBalance
  import opened EngineRuns
  import opened BatchRun
  import opened BurstRun
  import opened Limits
  import opened LoopEngine
  import opened EnginePump
  import Serving
  import S = Scheduling
  import L = Loop
  import Draining

  const Cfg := S.Config(1, 8, 8, 8)

  const Repeated: Path := [9, 9]
  const Own: Path := [1]

  /** Room for one token. */
  ghost predicate Short(p: Params) {
    p.maxTokens == 1
  }

  /** Room for four tokens, and nothing but the length ends it. */
  ghost predicate Patient(p: Params) {
    p.maxTokens == 4 && p.ignoreEos && p.stops == []
  }

  ghost function Begin(z: Row): Whole {
    Whole(Draining.Empty,
          State(Cache(1, z, map[], [], 0, [[z], [z], [z], [z], [z]], map[[] := Node(0, [], None)], [[]]), map[]), [])
  }

  // ---------------------------------------------------------------- pages of one row

  lemma {:induction false} OneRowPages(n: nat)
    ensures PageOf(n, 1) == n && SlotOf(n, 1) == 0 && Pages(n, 1) == n
    decreases n
  {
    if n > 0 {
      OneRowPages(n - 1);
    }
  }

  /** Five pages of one row with these counts, lists and tree, whatever they hold. */
  ghost predicate Pool(c: Cache, alloc: map<nat, int>, free: seq<nat>, next: nat, tree: map<Path, Node>,
                       order: seq<Path>) {
    && c.bs == 1 && |c.kv| == 5 && c.alloc == alloc && c.free == free && c.next == next && c.tree == tree
    && c.order == order
  }

  /** The next page is `p`, and `c1` the pool without it. */
  ghost predicate Gives(c: Cache, c1: Cache, p: nat) {
    AllocBlocks(c, 1) == Got(c1, [p])
  }

  lemma OneIs(c: Cache)
    ensures AllocBlocks(c, 1) == match AllocOne(c, 1)
      case Got(c1, b) => if |b| == 1 then Got(c1, b) else Oom(c1)
      case Oom(c1) => Oom(Release(c1, []))
  {
    match AllocOne(c, 1) {
      case Got(c1, b) =>
        if |b| == 1 {
          assert [] + b == b;
          assert AllocLoop(c1, b, 1) == Got(c1, b);
        }
      case Oom(c1) =>
    }
  }

  lemma GivesNext(c: Cache)
    requires c.free == [] && c.next < |c.kv|
    ensures Gives(c, Bump(c), c.next)
  {
    OneIs(c);
  }

  lemma GivesFree(c: Cache)
    requires c.free != []
    ensures Gives(c, Pop(c), c.free[|c.free| - 1])
  {
    OneIs(c);
  }

  // ---------------------------------------------------------------- decoding

  /** A live decode with one page for every cached row. */
  ghost predicate Snug(e: State, id: nat) {
    Balanced(e) && Bursting(e, id) && e.c.bs == 1 && |e.seqs[id].table| == e.seqs[id].cached
  }

  /** A step that gets its page: the pool without it, and the page at the end of the table. */
  ghost predicate Extended(e: State, e': State, id: nat, c1: Cache, p: nat) {
    && Snug(e', id) && id in e.seqs
    && e'.c == c1.(kv := e'.c.kv) && |e'.c.kv| == |c1.kv| && e'.seqs.Keys == e.seqs.Keys
    && (forall j :: j in e.seqs && j != id ==> e'.seqs[j] == e.seqs[j])
    && e'.seqs[id].table == e.seqs[id].table + [p] && Grown(e.seqs[id], e'.seqs[id], 1)
  }

  lemma SnugStep(m: Model, e: State, id: nat, every: bool, c1: Cache, p: nat)
    requires Snug(e, id) && Gives(e.c, c1, p) && c1.bs == 1 && |c1.kv| == |e.c.kv|
    ensures !Wall(e, id, every) && Extended(e, BurstStep(m, e, id, every), id, c1, p)
  {
    hide Balanced, PageOf, SlotOf, Pages, Covers, Exhausted, DoForward, DoDeliver, AllocBlocks, Cow, Ensure;
    var s, e1 := e.seqs[id], Checked(e, id, every);
    OneRowPages(s.cached);
    OneRowPages(s.cached + 1);
    SnugNotExhausted(e, id, every, c1, p);
    SnugChecked(e, id, every, c1, p);
    StepKeeps(m, e, id, every);
    BurstApplied(m, e, id, every);
    BurstFrame(e, id, every);
    ForwardedIs(m, e1, id);
    ForwardAppends(m, e1, id);
    DecodeDelivers(DoForward(m, e1, id), id);
  }

  lemma DecodeDelivers(e: State, id: nat)
    requires id in e.seqs && e.seqs[id].pending.Some? && !e.seqs[id].pre
    ensures DoDeliver(e, id).c == e.c && id in DoDeliver(e, id).seqs
    ensures DoDeliver(e, id).seqs[id].table == e.seqs[id].table
  {
  }

  lemma SnugNotExhausted(e: State, id: nat, every: bool, c1: Cache, p: nat)
    requires Snug(e, id) && Gives(e.c, c1, p)
    ensures !Exhausted(e.c) && !Wall(e, id, every)
  {
    hide PagePool.Inv, AllocBlocks, Bursting, Exhausted;
    NoTemps(e.seqs);
    AllocSpare(e.c, Tables(e.seqs));
  }

  lemma SnugChecked(e: State, id: nat, every: bool, c1: Cache, p: nat)
    requires Snug(e, id) && Gives(e.c, c1, p)
    ensures var e1 := Checked(e, id, every); e1.c == c1 && id in e1.seqs && e1.seqs[id].table == e.seqs[id].table + [p]
  {
    hide PagePool.Inv, PageOf, SlotOf, Pages, Covers, AllocBlocks, Cow, Ensure, Tables;
    var s := e.seqs[id];
    OneRowPages(s.cached);
    OneRowPages(s.cached + 1);
    NoTemps(e.seqs);
    GrowOne(e.c, s.table, s.cached + 1);
    GrownPage(e.c, Tables(e.seqs));
    var t := s.table + [p];
    assert t[s.cached] == p;
    assert Replace(t, s.cached, p) == t;
    SnugDecodes(e, id);
  }

  lemma SnugDecodes(e: State, id: nat)
    requires Bursting(e, id)
    ensures id in e.seqs && !NeedsPrefill(e.seqs[id])
  {
  }

  // ---------------------------------------------------------------- prefills

  ghost function Tree0(): map<Path, Node> {
    map[[] := Node(0, [], None)]
  }

  ghost function Tree1(x: Option<Logits>): map<Path, Node> {
    map[[] := Node(0, [], None), [9] := Node(1, [], None), Repeated := Node(1, [0, 1], x)]
  }

  ghost function Tree2(x: Option<Logits>, y: Option<Logits>): map<Path, Node> {
    Tree1(x)[Own := Node(1, [2], y)]
  }

  ghost function Order1(): seq<Path> {
    [[], [9], Repeated]
  }

  ghost function Order2(): seq<Path> {
    [[], [9], Repeated, Own]
  }

  ghost function Asked(prompt: seq<Token>, seed: nat): Seq {
    Seq(prompt, seed, [], 0, [], None, false, false, false, None, false, false)
  }

  /** The forward of a prepared prefill from the start of its prompt. */
  lemma PrefillForward(m: Model, e: State, id: nat, prompt: seq<Token>, seed: nat, table: seq<nat>)
    requires Balanced(e) && e.c.bs == 1 && id in e.seqs && prompt != [] && |table| == |prompt|
    requires e.seqs[id] == Asked(prompt, seed).(table := table, ready := true)
    ensures var e' := Apply(m, e, Forward(id));
      && e'.c == e.c.(kv := e'.c.kv) && |e'.c.kv| == |e.c.kv| && id in e'.seqs && e'.seqs[id].pending.Some?
      && e'.seqs == e.seqs[id := e.seqs[id].(cached := |prompt|, ready := false, pending := e'.seqs[id].pending,
                                             pre := true,
                                           logits := e'.seqs[id].logits)]
      && e'.seqs[id].logits.Some?
  {
    hide PagePool.Inv, Tables, Write, Flat, Extend, Pages, PageOf, SlotOf;
    OneRowPages(|prompt|);
    OneRowPages(0);
    TableOf(e.seqs, id);
    OwnedTableOk(e.c, Tables(e.seqs), Sequence(id));
    InvGrid(e.c, Tables(e.seqs));
    assert NextInput(e.seqs[id]) == prompt;
  }

  /** Pages for a prompt of one token. */
  lemma PrepareOne(m: Model, e: State, id: nat, seed: nat)
    requires id in e.seqs && e.seqs[id] == Asked(Own, seed) && e.c.bs == 1 && e.c.free == [] && e.c.next < |e.c.kv|
    ensures Apply(m, e, Prepare(id)) == State(Bump(e.c),
                                              e.seqs[id := Asked(Own, seed).(table := [e.c.next], ready := true)])
  {
    hide AllocBlocks, Ensure, Cow, Pages, PageOf;
    OneRowPages(1);
    GivesNext(e.c);
    GrowOne(e.c, [], 1);
    assert [] + [e.c.next] == [e.c.next];
  }

  /** Pages for a prompt of two tokens. */
  lemma PrepareTwo(m: Model, e: State, id: nat, seed: nat)
    requires id in e.seqs && e.seqs[id] == Asked(Repeated, seed) && e.c.bs == 1 && e.c.free == []
    requires e.c.next + 1 < |e.c.kv|
    ensures Apply(m, e, Prepare(id))
         == State(Bump(Bump(e.c)),
                  e.seqs[id := Asked(Repeated, seed).(table := [e.c.next, e.c.next + 1], ready := true)])
  {
    hide AllocBlocks, Cow, Pages, PageOf;
    OneRowPages(2);
    GivesNext(e.c);
    GivesNext(Bump(e.c));
    var t1, t2 := [e.c.next], [e.c.next, e.c.next + 1];
    assert [] + [e.c.next] == t1 && t1 + [e.c.next + 1] == t2;
    assert Ensure(Bump(Bump(e.c)), t2, 2) == (true, Bump(Bump(e.c)), t2);
    assert Ensure(Bump(e.c), t1, 2) == (true, Bump(Bump(e.c)), t2);
    assert Ensure(e.c, [], 2) == (true, Bump(Bump(e.c)), t2);
  }

  lemma TouchRepeated(c: Cache)
    requires Pool(c, map[0 := 1, 1 := 1], [], 2, Tree0(), [[]])
    ensures TouchPath(c, Repeated, 2) == c.(tree := Tree1(None)[Repeated := Node(1, [], None)], order := Order1())
  {
    var p: Path := Repeated;
    assert p[..0] == [] && p[..1] == [9] && p[..2] == p;
    assert ChildSlot([[]], []) == 1;
    assert AddChild([[]], [], [9]) == [[], [9]];
    assert TouchPath(c, p, 0) == c;
    var c1 := TouchPath(c, p, 1);
    assert c1 == c.(tree := Tree0()[[9] := Node(1, [], None)], order := [[], [9]]);
    assert ChildSlot([[], [9]], [9]) == 2;
    assert AddChild([[], [9]], [9], p) == Order1();
    assert Tree1(None)[p := Node(1, [], None)] == c1.tree[p := Node(1, [], None)];
  }

  /** The tree after the first prefill. */
  lemma InsertRepeated(c: Cache, x: Option<Logits>)
    requires Pool(c, map[0 := 1, 1 := 1], [], 2, Tree0(), [[]]) && x.Some?
    ensures var c' := Insert(c, Repeated, [0, 1], x);
      c'.kv == c.kv && Pool(c', map[0 := 2, 1 := 2], [], 2, Tree1(x), Order1())
  {
    hide TouchPath;
    TouchRepeated(c);
    var c2 := TouchPath(c, Repeated, 2);
    assert Release(c2, []) == c2;
    assert Fork(c2, [0, 1]).alloc == map[0 := 2, 1 := 2];
    assert c2.tree[Repeated := Node(1, [0, 1], x)] == Tree1(x);
  }

  /** And after the prefill of [1], while the repeat holds its hit. */
  lemma InsertOwn(c: Cache, x: Option<Logits>, y: Option<Logits>)
    requires Pool(c, map[0 := 2, 1 := 2, 2 := 1], [], 3, Tree1(x), Order1()) && y.Some?
    ensures var c' := Insert(c, Own, [2], y);
      c'.kv == c.kv && Pool(c', map[0 := 2, 1 := 2, 2 := 2], [], 3, Tree2(x, y), Order2())
  {
    var p: Path := Own;
    assert p[..0] == [] && p[..1] == p;
    assert ChildSlot(Order1(), []) == 3;
    assert AddChild(Order1(), [], p) == Order2();
    assert TouchPath(c, p, 0) == c;
    var c1 := TouchPath(c, p, 1);
    assert c1 == c.(tree := Tree1(x)[p := Node(1, [], None)], order := Order2());
    assert Release(c1, []) == c1;
    assert Fork(c1, [2]).alloc == map[0 := 2, 1 := 2, 2 := 2];
    assert c1.tree[p := Node(1, [2], y)] == Tree2(x, y);
  }

  lemma NoHit(c: Cache)
    requires c.bs == 1 && [9] !in c.tree && Own !in c.tree
    ensures Lookup(c, Repeated) == Miss && Lookup(c, Own) == Miss
  {
    assert Repeated[..1] == [9] && Own[..1] == Own;
    assert Walk(c.tree, Repeated) == 0 && Walk(c.tree, Own) == 0;
  }

  lemma RepeatHits(c: Cache, x: Option<Logits>)
    requires c.bs == 1 && c.tree == Tree1(x) && x.Some?
    ensures Lookup(c, Repeated) == Hit(2, [0, 1], x) && Lookup(c, Own) == Miss
  {
    var p: Path := Repeated;
    OneRowPages(2);
    assert p[..1] == [9] && p[..2] == p && Own[..1] == Own;
    assert WalkFrom(c.tree, p, 2) == 2;
    assert WalkFrom(c.tree, p, 1) == 2;
    assert Walk(c.tree, p) == 2 && Walk(c.tree, Own) == 0;
    assert [0, 1][..2] == [0, 1];
  }

  // ---------------------------------------------------------------- walls and evictions

  /** With the repeat waiting, nothing can be evicted. */
  lemma NothingToEvict(c: Cache, x: Option<Logits>, y: Option<Logits>)
    requires Pool(c, map[0 := 2, 1 := 2, 2 := 2, 3 := 1, 4 := 1], [], 5, Tree2(x, y), Order2())
    ensures Exhausted(c)
  {
    assert !Candidate(c, []) && !Candidate(c, [9]) && !Candidate(c, Repeated) && !Candidate(c, Own);
    assert CandidatesIn(c, [Own]) == [];
    assert CandidatesIn(c, [Repeated, Own]) == [];
    assert CandidatesIn(c, [[9], Repeated, Own]) == [];
    assert Order2()[1..] == [[9], Repeated, Own];
  }

  /** Once the repeat is gone, its pages are evicted and given out. */
  lemma EvictsRepeated(c: Cache, x: Option<Logits>, y: Option<Logits>)
    requires Pool(c, map[0 := 1, 1 := 1, 2 := 2, 3 := 1, 4 := 1], [], 5, Tree2(x, y), Order2())
    ensures exists c1 :: Gives(c, c1, 1) && c1.bs == 1 && |c1.kv| == 5 && c1.free == [0]
  {
    hide Release, Candidate;
    OneIs(c);
    RepeatedIsFirst(c, x, y);
    var c1 := EvictLeaf(c, Repeated);
    ReleaseBoth(Unlinked(c, Repeated));
    assert EvictFrom(c1, [], 1 - 2) == (c1, 0);
    assert EvictFrom(c, [Repeated], 1) == (c1, 2);
    assert Gives(c, Pop(c1), 1);
  }

  lemma RepeatedIsFirst(c: Cache, x: Option<Logits>, y: Option<Logits>)
    requires Pool(c, map[0 := 1, 1 := 1, 2 := 2, 3 := 1, 4 := 1], [], 5, Tree2(x, y), Order2())
    ensures Candidates(c) == [Repeated] && c.tree[Repeated].blocks == [0, 1]
  {
    assert 0 in c.tree[Repeated].blocks;
    assert !Candidate(c, []) && !Candidate(c, [9]) && Candidate(c, Repeated) && !Candidate(c, Own);
    assert CandidatesIn(c, [Own]) == [];
    assert CandidatesIn(c, [Repeated, Own]) == [Repeated];
    assert CandidatesIn(c, [[9], Repeated, Own]) == [Repeated];
    assert Order2()[1..] == [[9], Repeated, Own];
  }

  lemma ReleaseBoth(c: Cache)
    requires c.alloc == map[0 := 1, 1 := 1, 2 := 2, 3 := 1, 4 := 1] && c.free == [] && |c.kv| == 5
    ensures var c' := Release(c, [0, 1]); c'.free == [0, 1] && |c'.kv| == 5 && c'.bs == c.bs
  {
    assert [0, 1][..1] == [0] && [0][..0] == [];
    assert Release(c, []) == c;
    assert Release(c, [0]) == ReleaseOne(c, 0);
    assert Release(c, [0, 1]) == ReleaseOne(ReleaseOne(c, 0), 1);
  }

  lemma DropBoth(c: Cache)
    requires 0 in c.alloc && 1 in c.alloc && c.alloc[0] == 2 && c.alloc[1] == 2
    ensures Release(c, [0, 1]) == c.(alloc := c.alloc[0 := 1][1 := 1])
  {
    assert [0, 1][..1] == [0] && [0][..0] == [];
    assert Release(c, []) == c;
    assert Release(c, [0]) == ReleaseOne(c, 0);
    assert Release(c, [0, 1]) == ReleaseOne(ReleaseOne(c, 0), 1);
  }

  // ---------------------------------------------------------------- acts in a row

  lemma ActsNext(cfg: S.Config, m: Model, w: Whole, acts: seq<Act>, i: nat)
    requires i < |acts|
    ensures Acts(cfg, m, w, acts[..i + 1]) == Act1(cfg, m, Acts(cfg, m, w, acts[..i]), acts[i])
  {
    hide Act1;
    assert acts[..i + 1][..i] == acts[..i];
  }

  lemma {:induction false} ActsJoin(cfg: S.Config, m: Model, w: Whole, a: seq<Act>, b: seq<Act>)
    ensures Acts(cfg, m, w, a + b) == Acts(cfg, m, Acts(cfg, m, w, a), b)
    decreases |b|
  {
    hide Act1;
    if b == [] {
      assert a + b == a;
    } else {
      var n := |b| - 1;
      ActsJoin(cfg, m, w, a, b[..n]);
      assert (a + b)[..|a + b| - 1] == a + b[..n];
    }
  }

  ghost function StepActs(id: nat, every: bool): seq<Act> {
    [RunStep(CheckStep(id, every)), RunStep(Forward(id)), RunStep(Deliver(id))]
  }

  lemma ThreeActs(m: Model, w: Whole, a: Act, b: Act, c: Act)
    ensures Acts(Cfg, m, w, [a, b, c]) == Act1(Cfg, m, Act1(Cfg, m, Act1(Cfg, m, w, a), b), c)
  {
    hide Act1;
    var acts := [a, b, c];
    ActsNext(Cfg, m, w, acts, 0);
    ActsNext(Cfg, m, w, acts, 1);
    ActsNext(Cfg, m, w, acts, 2);
    assert acts[..0] == [] && acts[..3] == acts;
  }

  lemma OneAct(m: Model, w: Whole, a: Act)
    ensures Acts(Cfg, m, w, [a]) == Act1(Cfg, m, w, a)
  {
    hide Act1;
    ActsNext(Cfg, m, w, [a], 0);
    assert [a][..0] == [] && [a][..1] == [a];
  }

  lemma StepAct(m: Model, w: Whole, step: Step)
    requires Serving.Allowed(w.batch, step) && step.id in w.e.seqs
    ensures Act1(Cfg, m, w, RunStep(step)) == w.(e := Apply(m, w.e, step))
    ensures Fine(Cfg, m, w) ==> Fine(Cfg, m, w.(e := Apply(m, w.e, step)))
  {
    hide Fine, Apply;
    if Fine(Cfg, m, w) {
      ActKeeps(Cfg, m, w, RunStep(step));
    }
  }

  /** Three steps of the runner on the lone member. */
  lemma ThreeSteps(m: Model, w: Whole, id: nat, a: Step, b: Step, c: Step, e1: State, e2: State)
    requires w.batch == [id] && a.id == id && b.id == id && c.id == id
    requires (a.Prepare? || a.Burst?) && b.Forward? && c.Deliver?
    requires e1 == Apply(m, w.e, a) && e2 == Apply(m, e1, b) && id in w.e.seqs && id in e1.seqs && id in e2.seqs
    ensures Acts(Cfg, m, w, [RunStep(a), RunStep(b), RunStep(c)]) == w.(e := Apply(m, e2, c))
    ensures Fine(Cfg, m, w) ==> Fine(Cfg, m, w.(e := Apply(m, e2, c)))
  {
    hide Fine, Apply, Act1, Acts;
    ThreeActs(m, w, RunStep(a), RunStep(b), RunStep(c));
    StepAct(m, w, a);
    StepAct(m, w.(e := e1), b);
    StepAct(m, w.(e := e2), c);
  }

  /** One decode step of the lone member. */
  lemma StepRuns(m: Model, w: Whole, id: nat, every: bool, c1: Cache, p: nat)
    requires Snug(w.e, id) && w.batch == [id] && Gives(w.e.c, c1, p) && c1.bs == 1 && |c1.kv| == |w.e.c.kv|
    ensures !Wall(w.e, id, every)
    ensures var w' := Acts(Cfg, m, w, StepActs(id, every));
      && w' == w.(e := BurstStep(m, w.e, id, every)) && Extended(w.e, w'.e, id, c1, p)
      && (Fine(Cfg, m, w) ==> Fine(Cfg, m, w'))
  {
    hide Fine, Apply, Snug, Extended, Gives;
    SnugStep(m, w.e, id, every, c1, p);
    KnownAfter(m, w.e, id, every);
    var e1 := Apply(m, w.e, CheckStep(id, every));
    ThreeSteps(m, w, id, CheckStep(id, every), Forward(id), Deliver(id), e1, Apply(m, e1, Forward(id)));
  }

  lemma KnownAfter(m: Model, e: State, id: nat, every: bool)
    requires Snug(e, id)
    ensures id in e.seqs && id in Apply(m, e, CheckStep(id, every)).seqs
    ensures id in Apply(m, Apply(m, e, CheckStep(id, every)), Forward(id)).seqs
  {
    hide Balanced, Ensure, Cow, Write, Flat, Extend, Covers, PageOf, SlotOf, Pages;
  }

  // ---------------------------------------------------------------- the scheduler

  /** The one running request is the batch again. */
  lemma RunsAgain(s: S.Sched, id: nat)
    requires s.running == [id] && S.Live(s.table, id)
    ensures S.FormBatch(Cfg, s).ids == [id] && S.DoStep(Cfg, s) == s
  {
    var b := S.Batch([], 0, s.waiting, 8);
    assert S.PickRunning(Cfg, s.table, [id], b) == S.Batch([] + [id], 1, s.waiting, 7);
    assert S.Filter(s.table, [id] + []) == [id];
    assert S.Newcomers(s, [id]) == [];
    assert s.started + [] == s.started;
  }

  /** The head of the queue is the batch. */
  lemma RunsHead(s: S.Sched, id: nat, rest: seq<nat>)
    requires s.running == [] && s.waiting == [id] + rest && S.Live(s.table, id) && S.Cost(s.table[id]) <= 8
    ensures S.FormBatch(Cfg, s).ids == [id]
    ensures S.DoStep(Cfg, s) == s.(running := [id], waiting := rest, started := s.started + [id])
  {
    var b := S.Batch([], 0, s.waiting, 8);
    assert s.waiting[1..] == rest;
    assert S.PickRunning(Cfg, s.table, [], b) == b;
    var b1 := S.Batch([] + [id], 0, rest, 8 - S.Cost(s.table[id]));
    assert S.PickWaiting(Cfg, s.table, b1) == b1;
    assert S.PickWaiting(Cfg, s.table, b) == b1;
    assert S.Newcomers(s, [id]) == [id];
    assert S.Filter(s.table, [] + [id]) == [id];
  }

  // ---------------------------------------------------------------- the first request

  ghost function FirstActs(q: Params): seq<Act> {
    [Submit(10, Repeated, q), AdmitNext(0), NextBatch] + [RunStep(Prepare(1)), RunStep(Forward(1)), RunStep(Deliver(1))]
    + [Report(1)]
  }

  /** The first request is over, its prompt in the tree. */
  ghost predicate AfterFirst(m: Model, w: Whole, q: Params, x: Option<Logits>) {
    && Fine(Cfg, m, w) && x.Some?
    && Pool(w.e.c, map[0 := 1, 1 := 1], [], 2, Tree1(x), Order1()) && w.e.seqs.Keys == {1}
    && 1 in w.l.s.table && 10 in w.l.frames && 1 in w.l.gen && w.l.s.table[1].finished
    && w.l == L.State(S.Sched(map[1 := w.l.s.table[1]], [], [], 2, map[], [1]), map[1 := w.l.gen[1]], [], {}, {},
                      map[10 := w.l.frames[10]], false)
  }

  ghost function Queued1(q: Params): L.State {
    L.State(S.Idle, map[], [L.Pending(10, Repeated, q)], {}, {10}, map[10 := []], false)
  }

  ghost function Live1(q: Params, waiting: seq<nat>, running: seq<nat>): L.State {
    L.State(S.Sched(map[1 := S.Req(10, 2, 0, false, false)], waiting, running, 2, map[10 := 1], running),
            map[1 := L.Gen(10, Repeated, q, [])], [], {}, {10}, map[10 := []], false)
  }

  lemma FirstAdmitted(m: Model, z: Row, q: Params)
    requires Short(q)
    ensures var w2 := Act1(Cfg, m, Act1(Cfg, m, Begin(z), Submit(10, Repeated, q)), AdmitNext(0));
      var w3 := Act1(Cfg, m, w2, NextBatch);
      && w2 == Whole(Live1(q, [1], []), State(Begin(z).e.c, map[1 := Asked(Repeated, 0)]), [])
      && w3 == Whole(Live1(q, [], [1]), State(Begin(z).e.c, map[1 := Asked(Repeated, 0)]), [1])
  {
    hide Lookup, S.FormBatch, S.DoStep;
    var w1 := Act1(Cfg, m, Begin(z), Submit(10, Repeated, q));
    assert [] + [L.Pending(10, Repeated, q)] == [L.Pending(10, Repeated, q)];
    assert w1 == Begin(z).(l := Queued1(q));
    NoHit(w1.e.c);
    assert w1.l.queue[1..] == [];
    var w2 := Act1(Cfg, m, w1, AdmitNext(0));
    assert [] + [1] == [1];
    assert w2.l.s == Live1(q, [1], []).s;
    assert w2.l == Live1(q, [1], []);
    RunsHead(w2.l.s, 1, []);
    assert [1] + [] == [1];
  }

  lemma FirstFine(m: Model, z: Row, q: Params)
    requires Short(q)
    ensures Fine(Cfg, m, Whole(Live1(q, [], [1]), State(Begin(z).e.c, map[1 := Asked(Repeated, 0)]), [1]))
  {
    hide Fine, Act1, Lookup;
    var w1 := Act1(Cfg, m, Begin(z), Submit(10, Repeated, q));
    var w2 := Act1(Cfg, m, w1, AdmitNext(0));
    FirstAdmitted(m, z, q);
    BeginIsStart(z);
    StartIsFine(Cfg, m, Begin(z));
    ActKeeps(Cfg, m, Begin(z), Submit(10, Repeated, q));
    FirstHarmless(m, z, q);
    ActKeeps(Cfg, m, w1, AdmitNext(0));
    ActKeeps(Cfg, m, w2, NextBatch);
  }

  lemma BeginIsStart(z: Row)
    ensures Start(Begin(z))
  {
  }

  lemma FirstHarmless(m: Model, z: Row, q: Params)
    ensures Harmless(Act1(Cfg, m, Begin(z), Submit(10, Repeated, q)), AdmitNext(0))
  {
    hide Lookup;
    NoHit(Begin(z).e.c);
  }

  /** The three steps of a prefill, from the state the admission leaves. */
  lemma FirstPrefilled(m: Model, z: Row)
    requires Balanced(State(Begin(z).e.c, map[1 := Asked(Repeated, 0)]))
    ensures var e0 := State(Begin(z).e.c, map[1 := Asked(Repeated, 0)]);
      var e1 := Apply(m, e0, Prepare(1));
      var e2 := Apply(m, e1, Forward(1));
      && 1 in e1.seqs && 1 in e2.seqs && Stored1(Apply(m, e2, Deliver(1)))
  {
    hide AllocBlocks, Insert, DoForward, DoPrepare, Balanced;
    var e0 := State(Begin(z).e.c, map[1 := Asked(Repeated, 0)]);
    var e1 := Apply(m, e0, Prepare(1));
    var e2 := Apply(m, e1, Forward(1));
    PrepareTwo(m, e0, 1, 0);
    ApplyInv(m, e0, Prepare(1));
    PrefillForward(m, e1, 1, Repeated, 0, [0, 1]);
    assert Pool(e2.c, map[0 := 1, 1 := 1], [], 2, Tree0(), [[]]);
    InsertRepeated(e2.c, e2.seqs[1].logits);
  }

  // ---------------------------------------------------------------- its end

  lemma FirstRun(m: Model, z: Row, q: Params) returns (x: Option<Logits>)
    requires Short(q)
    ensures AfterFirst(m, Acts(Cfg, m, Begin(z), FirstActs(q)), q, x)
  {
    hide Fine, Act1, Acts, Apply;
    var s1, s2 := [Submit(10, Repeated, q), AdmitNext(0), NextBatch], [RunStep(Prepare(1)), RunStep(Forward(1)),
                                                                       RunStep(Deliver(1))];
    FirstAdmitted(m, z, q);
    FirstFine(m, z, q);
    ThreeActs(m, Begin(z), s1[0], s1[1], s1[2]);
    var w3 := Acts(Cfg, m, Begin(z), s1);
    ActsJoin(Cfg, m, Begin(z), s1, s2);
    FirstSteps(m, z, q, w3);
    var w6 := Acts(Cfg, m, w3, s2);
    ActsJoin(Cfg, m, Begin(z), s1 + s2, [Report(1)]);
    OneAct(m, w6, Report(1));
    x := w6.e.seqs[1].logits;
    FirstEnds(m, w6, q, x);
  }

  /** The prefill as acts of the runner. */
  lemma FirstSteps(m: Model, z: Row, q: Params, w: Whole)
    requires Short(q) && Fine(Cfg, m, w)
    requires w == Whole(Live1(q, [], [1]), State(Begin(z).e.c, map[1 := Asked(Repeated, 0)]), [1])
    ensures var w' := Acts(Cfg, m, w, [RunStep(Prepare(1)), RunStep(Forward(1)), RunStep(Deliver(1))]);
      && Fine(Cfg, m, w') && w'.l == w.l && w'.batch == [1] && Stored1(w'.e)
  {
    hide Fine, Apply, Acts, Stored1, Balanced, Sound;
    FineBlock(Cfg, m, w);
    FirstPrefilled(m, z);
    var e1 := Apply(m, w.e, Prepare(1));
    ThreeSteps(m, w, 1, Prepare(1), Forward(1), Deliver(1), e1, Apply(m, e1, Forward(1)));
  }

  /** The first prompt is stored, its first token delivered. */
  ghost predicate Stored1(e: State) {
    && e.seqs.Keys == {1} && e.seqs[1].pending == None && !e.seqs[1].finished && |e.seqs[1].output| == 1
    && e.seqs[1].table == [0, 1] && e.seqs[1].logits.Some?
    && Pool(e.c, map[0 := 2, 1 := 2], [], 2, Tree1(e.seqs[1].logits), Order1())
  }

  lemma FirstEnds(m: Model, w: Whole, q: Params, x: Option<Logits>)
    requires Short(q) && Fine(Cfg, m, w) && w.l == Live1(q, [], [1]) && Stored1(w.e) && x == w.e.seqs[1].logits
    ensures AfterFirst(m, Act1(Cfg, m, w, Report(1)), q, x)
  {
    hide Fine, Release, L.DeliverOne, DoFinish;
    ActKeeps(Cfg, m, w, Report(1));
    var out := w.e.seqs[1].output;
    assert News(w, 1) == out;
    FirstTold(q, out);
    FirstReleased(w.e);
    EndIs(m, w.e, 1, 1);
  }

  lemma FirstTold(q: Params, out: seq<Token>)
    requires Short(q) && |out| == 1
    ensures L.DeliverOne(Live1(q, [], [1]), 1, out)
         == L.State(S.Sched(map[1 := S.Req(10, 2, 3, true, false)], [], [], 2, map[], [1]),
                    map[1 := L.Gen(10, Repeated, q, out)], [], {}, {}, map[10 := [L.Final(Length, out)]], false)
  {
    var l := Live1(q, [], [1]);
    assert [] + out == out && out == [out[0]];
    assert JudgeAll(q, out, out) == Stop(Length, out);
    var s1 := S.DoAdvance(l.s, 1, 3);
    assert Without([1], 1) == [] && Without([], 1) == [];
    assert S.DoFinish(s1, 1) == S.Sched(map[1 := S.Req(10, 2, 3, true, false)], [], [], 2, map[], [1]);
    assert [] + [L.Final(Length, out)] == [L.Final(Length, out)];
  }

  lemma FirstReleased(e: State)
    requires Stored1(e)
    ensures var e' := DoFinish(e, 1, 1);
      e'.seqs.Keys == {1} && Pool(e'.c, map[0 := 1, 1 := 1], [], 2, Tree1(e.seqs[1].logits), Order1())
  {
    hide Release;
    DropBoth(e.c);
    assert e.c.alloc[0 := 1][1 := 1] == map[0 := 1, 1 := 1];
  }

  // ---------------------------------------------------------------- the other two requests

  /** What is left of the first request in the loop. */
  datatype Past = Past(r: S.Req, g: L.Gen, f: seq<L.Frame>)

  /** The loop with both requests admitted. */
  ghost function Both(o: Past, p: Params, q: Params, waiting: seq<nat>, running: seq<nat>, cached: nat, out: seq<Token>,
                      told: seq<L.Frame>): L.State
  {
    L.State(S.Sched(map[1 := o.r, 2 := S.Req(20, 1, cached, false, false), 3 := S.Req(30, 2, 2, false, false)],
                    waiting, running, 4, map[20 := 2, 30 := 3], [1] + running),
            map[1 := o.g, 2 := L.Gen(20, Own, p, out), 3 := L.Gen(30, Repeated, q, [])], [], {}, {20, 30},
            map[10 := o.f, 20 := told, 30 := []], false)
  }

  ghost function PastOf(w: Whole): Past
    requires 1 in w.l.s.table && 10 in w.l.frames && 1 in w.l.gen
  {
    Past(w.l.s.table[1], w.l.gen[1], w.l.frames[10])
  }

  /** The loop after the first request, with a submission queue. */
  ghost function Asking(o: Past, queue: seq<L.Pending>, open: set<nat>, frames: map<nat, seq<L.Frame>>): L.State {
    L.State(S.Sched(map[1 := o.r], [], [], 2, map[], [1]), map[1 := o.g], queue, {}, open, frames, false)
  }

  ghost function SubmitActs(p: Params, q: Params, seed: nat): seq<Act> {
    [Submit(20, Own, p), Submit(30, Repeated, q), AdmitNext(seed)]
  }

  /** The engine after the admission of [1]. */
  ghost function OwnAsked(e: State, seed: nat): State {
    State(e.c, e.seqs[2 := Asked(Own, seed)])
  }

  lemma TwoSubmitted(m: Model, w: Whole, o: Past, p: Params, q: Params)
    requires Short(q) && Patient(p) && w.l == Asking(o, [], {}, map[10 := o.f])
    ensures var w' := Act1(Cfg, m, Act1(Cfg, m, w, Submit(20, Own, p)), Submit(30, Repeated, q));
      w' == w.(l := Asking(o, [L.Pending(20, Own, p), L.Pending(30, Repeated, q)], {20, 30},
                           map[10 := o.f, 20 := [], 30 := []]))
  {
    var a, b := L.Pending(20, Own, p), L.Pending(30, Repeated, q);
    assert [] + [a] == [a] && [a] + [b] == [a, b];
    assert {} + {20} == {20} && {20} + {30} == {20, 30};
    assert map[10 := o.f][20 := []][30 := []] == map[10 := o.f, 20 := [], 30 := []];
  }

  /** [1] is admitted without a hit. */
  lemma OwnAdmitted(m: Model, w: Whole, o: Past, p: Params, q: Params, x: Option<Logits>, seed: nat)
    requires var a, b := L.Pending(20, Own, p), L.Pending(30, Repeated, q);
      w.l == Asking(o, [a, b], {20, 30}, map[10 := o.f, 20 := [], 30 := []])
    requires w.e.c.bs == 1 && w.e.c.tree == Tree1(x) && x.Some? && 2 !in w.e.seqs
    ensures Harmless(w, AdmitNext(seed))
    ensures var w', b := Act1(Cfg, m, w, AdmitNext(seed)), L.Pending(30, Repeated, q);
      && w'.e == OwnAsked(w.e, seed) && w'.batch == w.batch
      && w'.l == L.State(S.Sched(map[1 := o.r, 2 := S.Req(20, 1, 0, false, false)], [2], [], 3, map[20 := 2], [1]),
                         map[1 := o.g, 2 := L.Gen(20, Own, p, [])], [b], {}, {20, 30},
                         map[10 := o.f, 20 := [], 30 := []], false)
  {
    hide Lookup, Tree1;
    RepeatHits(w.e.c, x);
    assert [L.Pending(20, Own, p), L.Pending(30, Repeated, q)][1..] == [L.Pending(30, Repeated, q)];
    assert [] + [2] == [2];
    assert map[1 := o.r][2 := S.Req(20, 1, 0, false, false)] == map[1 := o.r, 2 := S.Req(20, 1, 0, false, false)];
  }

  /** The repeat is admitted with a hit on both pages. */
  ghost function RepeatAsked(e: State, x: Option<Logits>): State {
    State(e.c.(alloc := map[0 := 2, 1 := 2]),
          e.seqs[3 := Asked(Repeated, 0).(cached := 2, table := [0, 1], logits := x)])
  }

  lemma RepeatAdmitted(m: Model, w: Whole, o: Past, p: Params, q: Params, x: Option<Logits>)
    requires w.l == L.State(S.Sched(map[1 := o.r, 2 := S.Req(20, 1, 0, false, false)], [2], [], 3, map[20 := 2], [1]),
                            map[1 := o.g, 2 := L.Gen(20, Own, p, [])], [L.Pending(30, Repeated, q)], {}, {20, 30},
                            map[10 := o.f, 20 := [], 30 := []], false)
    requires w.e.c.bs == 1 && w.e.c.tree == Tree1(x) && x.Some? && 3 !in w.e.seqs && w.e.c.alloc == map[0 := 1, 1 := 1]
    ensures Harmless(w, AdmitNext(0))
    ensures Act1(Cfg, m, w, AdmitNext(0)) == Whole(Both(o, p, q, [2, 3], [], 0, [], []), RepeatAsked(w.e, x), w.batch)
  {
    hide Lookup, Tree1, L.AdmitOne, Apply;
    RepeatHits(w.e.c, x);
    RepeatListed(o, p, q);
    RepeatForked(m, w.e, x);
    assert w.l.queue[1..] == [];
  }

  lemma RepeatListed(o: Past, p: Params, q: Params)
    ensures var l := L.State(S.Sched(map[1 := o.r, 2 := S.Req(20, 1, 0, false, false)], [2], [], 3, map[20 := 2], [1]),
                             map[1 := o.g, 2 := L.Gen(20, Own, p, [])], [], {}, {20, 30},
                             map[10 := o.f, 20 := [], 30 := []], false);
      && S.Accepts(Cfg, l.s, 2)
      && L.AdmitOne(Cfg, l, L.Pending(30, Repeated, q), 2) == Both(o, p, q, [2, 3], [], 0, [], [])
  {
    assert [2] + [3] == [2, 3] && [1] + [] == [1];
    var t := map[1 := o.r, 2 := S.Req(20, 1, 0, false, false)];
    assert t[3 := S.Req(30, 2, 2, false, false)]
        == map[1 := o.r, 2 := S.Req(20, 1, 0, false, false), 3 := S.Req(30, 2, 2, false, false)];
    assert map[20 := 2][30 := 3] == map[20 := 2, 30 := 3];
  }

  lemma RepeatForked(m: Model, e: State, x: Option<Logits>)
    requires e.c.bs == 1 && e.c.tree == Tree1(x) && x.Some? && 3 !in e.seqs && e.c.alloc == map[0 := 1, 1 := 1]
    ensures Apply(m, e, Admit(3, Repeated, 0)) == RepeatAsked(e, x)
  {
    hide Lookup, Tree1;
    RepeatHits(e.c, x);
    assert Fork(e.c, [0, 1]).alloc == map[0 := 2, 1 := 2];
  }

  lemma OwnPicked(m: Model, w: Whole, o: Past, p: Params, q: Params)
    requires w.l == Both(o, p, q, [2, 3], [], 0, [], [])
    ensures Act1(Cfg, m, w, NextBatch) == w.(l := Both(o, p, q, [3], [2], 0, [], []), batch := [2])
  {
    hide S.FormBatch, S.DoStep;
    assert [2, 3] == [2] + [3];
    RunsHead(w.l.s, 2, [3]);
    assert [1] + [] == [1];
  }

  /** [1] is stored and has its first token; the repeat waits with its hit. */
  ghost predicate Stored2(e: State, seed: nat, x: Option<Logits>, y: Option<Logits>) {
    && {2, 3} <= e.seqs.Keys && y.Some?
    && e.seqs[2] == Asked(Own, seed).(output := e.seqs[2].output, cached := 1, table := [2], logits := y)
    && |e.seqs[2].output| == 1
    && e.seqs[3] == Asked(Repeated, 0).(cached := 2, table := [0, 1], logits := x)
    && Pool(e.c, map[0 := 2, 1 := 2, 2 := 2], [], 3, Tree2(x, y), Order2())
  }

  lemma OwnPrefilled(m: Model, e: State, x: Option<Logits>, seed: nat) returns (y: Option<Logits>)
    requires Balanced(e) && Pool(e.c, map[0 := 2, 1 := 2], [], 2, Tree1(x), Order1()) && {2, 3} <= e.seqs.Keys
    requires e.seqs[2] == Asked(Own, seed)
    requires e.seqs[3] == Asked(Repeated, 0).(cached := 2, table := [0, 1], logits := x)
    ensures var e1 := Apply(m, e, Prepare(2));
      var e2 := Apply(m, e1, Forward(2));
      2 in e1.seqs && 2 in e2.seqs && Stored2(Apply(m, e2, Deliver(2)), seed, x, y)
  {
    hide AllocBlocks, Insert, DoForward, DoPrepare, Balanced, Tree1, Tree2;
    var e1 := Apply(m, e, Prepare(2));
    var e2 := Apply(m, e1, Forward(2));
    PrepareOne(m, e, 2, seed);
    ApplyInv(m, e, Prepare(2));
    PrefillForward(m, e1, 2, Own, seed, [2]);
    y := e2.seqs[2].logits;
    assert e1.c.alloc == map[0 := 2, 1 := 2, 2 := 1];
    InsertOwn(e2.c, x, y);
    OwnDelivered(m, e2, seed, y);
  }

  lemma OwnDelivered(m: Model, e: State, seed: nat, y: Option<Logits>)
    requires 2 in e.seqs && e.seqs[2].pending.Some? && e.c.bs == 1 && e.seqs[2].prompt == Own && e.seqs[2].table == [2]
    requires e.seqs[2] == Asked(Own, seed).(cached := 1, table := [2], pending := e.seqs[2].pending, pre := true,
                                            logits := y)
    ensures var e' := Apply(m, e, Deliver(2));
      && e'.c == Insert(e.c, Own, [2], y) && e'.seqs.Keys == e.seqs.Keys
      && (forall j :: j in e.seqs && j != 2 ==> e'.seqs[j] == e.seqs[j])
      && e'.seqs[2] == Asked(Own, seed).(output := [e.seqs[2].pending.value], cached := 1, table := [2], logits := y)
  {
    hide Insert;
    assert [] + [e.seqs[2].pending.value] == [e.seqs[2].pending.value];
  }

  /** The first token of [1] goes on. */
  lemma OwnTold(o: Past, p: Params, q: Params, out: seq<Token>)
    requires Patient(p) && |out| == 1
    ensures L.DeliverOne(Both(o, p, q, [3], [2], 0, [], []), 2, out) == Both(o, p, q, [3], [2], 2, out, [L.Delta(out)])
  {
    assert [] + out == out && out == [out[0]];
    assert out[1..] == [];
    assert JudgeAll(p, out, out) == Go;
    assert [] + [L.Delta(out)] == [L.Delta(out)];
  }

  ghost function SecondActs(p: Params, q: Params, seed: nat): seq<Act> {
    SubmitActs(p, q, seed) + [AdmitNext(0)] + [NextBatch] + [RunStep(Prepare(2)), RunStep(Forward(2)),
                                                             RunStep(Deliver(2))]
    + [Report(2)]
  }

  /** [1] runs, with one token told; the repeat waits. */
  ghost predicate AfterSecond(m: Model, w: Whole, o: Past, p: Params, q: Params, seed: nat, x: Option<Logits>,
                              y: Option<Logits>) {
    && Fine(Cfg, m, w) && Stored2(w.e, seed, x, y) && w.batch == [2]
    && w.l == Both(o, p, q, [3], [2], 2, w.e.seqs[2].output, [L.Delta(w.e.seqs[2].output)])
  }

  lemma BothAdmitted(m: Model, w: Whole, p: Params, q: Params, seed: nat, x: Option<Logits>)
    requires Short(q) && Patient(p) && AfterFirst(m, w, q, x)
    ensures var w5 := Acts(Cfg, m, w, SubmitActs(p, q, seed) + [AdmitNext(0)] + [NextBatch]);
      && Fine(Cfg, m, w5)
      && w5 == Whole(Both(PastOf(w), p, q, [3], [2], 0, [], []), RepeatAsked(OwnAsked(w.e, seed), x), [2])
  {
    hide Fine, Act1, Acts, Tree1;
    var o, acts := PastOf(w), SubmitActs(p, q, seed);
    var w1 := Act1(Cfg, m, w, acts[0]);
    var w2 := Act1(Cfg, m, w1, acts[1]);
    var w3 := Act1(Cfg, m, w2, acts[2]);
    TwoSubmitted(m, w, o, p, q);
    ActKeeps(Cfg, m, w, acts[0]);
    ActKeeps(Cfg, m, w1, acts[1]);
    OwnAdmitted(m, w2, o, p, q, x, seed);
    ActKeeps(Cfg, m, w2, acts[2]);
    ThreeActs(m, w, acts[0], acts[1], acts[2]);
    RepeatAdmitted(m, w3, o, p, q, x);
    var w4 := Act1(Cfg, m, w3, AdmitNext(0));
    ActKeeps(Cfg, m, w3, AdmitNext(0));
    OneAct(m, w3, AdmitNext(0));
    OwnPicked(m, w4, o, p, q);
    ActKeeps(Cfg, m, w4, NextBatch);
    OneAct(m, w4, NextBatch);
    ActsJoin(Cfg, m, w, acts, [AdmitNext(0)]);
    ActsJoin(Cfg, m, w, acts + [AdmitNext(0)], [NextBatch]);
  }

  lemma SecondRun(m: Model, w: Whole, p: Params, q: Params, seed: nat, x: Option<Logits>) returns (y: Option<Logits>)
    requires Short(q) && Patient(p) && AfterFirst(m, w, q, x)
    ensures AfterSecond(m, Acts(Cfg, m, w, SecondActs(p, q, seed)), PastOf(w), p, q, seed, x, y)
  {
    hide Fine, Act1, Acts, Tree1, Tree2, Balanced, Sound, Apply, L.DeliverOne;
    var s1 := SubmitActs(p, q, seed) + [AdmitNext(0)] + [NextBatch];
    var s2 := [RunStep(Prepare(2)), RunStep(Forward(2)), RunStep(Deliver(2))];
    BothAdmitted(m, w, p, q, seed, x);
    var w5 := Acts(Cfg, m, w, s1);
    FineBlock(Cfg, m, w5);
    y := OwnPrefilled(m, w5.e, x, seed);
    var e1 := Apply(m, w5.e, Prepare(2));
    ThreeSteps(m, w5, 2, Prepare(2), Forward(2), Deliver(2), e1, Apply(m, e1, Forward(2)));
    ActsJoin(Cfg, m, w, s1, s2);
    var w8 := Acts(Cfg, m, w, s1 + s2);
    ActsJoin(Cfg, m, w, s1 + s2, [Report(2)]);
    OneAct(m, w8, Report(2));
    SecondTold(m, w8, PastOf(w), p, q, seed, x, y);
  }

  lemma SecondTold(m: Model, w: Whole, o: Past, p: Params, q: Params, seed: nat, x: Option<Logits>, y: Option<Logits>)
    requires Patient(p) && Fine(Cfg, m, w) && Stored2(w.e, seed, x, y) && w.batch == [2]
    requires w.l == Both(o, p, q, [3], [2], 0, [], [])
    ensures AfterSecond(m, Act1(Cfg, m, w, Report(2)), o, p, q, seed, x, y)
  {
    hide Fine, L.DeliverOne, Tree2;
    ActKeeps(Cfg, m, w, Report(2));
    assert News(w, 2) == w.e.seqs[2].output;
    OwnTold(o, p, q, w.e.seqs[2].output);
  }

  // ---------------------------------------------------------------- the burst that raises

  ghost function RaisedActs(): seq<Act> {
    [NextBatch] + StepActs(2, true) + StepActs(2, false) + [RunStep(Step.Burst(2))] + [Raise(2, 1)]
  }

  /** The pool with four, and with five, pages given out. */
  ghost predicate Full(c: Cache, n: nat, x: Option<Logits>, y: Option<Logits>) {
    if n == 4 then Pool(c, map[0 := 2, 1 := 2, 2 := 2, 3 := 1], [], 4, Tree2(x, y), Order2())
    else n == 5 && Pool(c, map[0 := 2, 1 := 2, 2 := 2, 3 := 1, 4 := 1], [], 5, Tree2(x, y), Order2())
  }

  /** [1] with its burst under way: one page a row, the repeat still waiting. */
  ghost predicate Decodes(e: State, seed: nat, table: seq<nat>, x: Option<Logits>) {
    && Snug(e, 2) && e.seqs[2].prompt == Own && e.seqs[2].seed == seed && e.seqs[2].table == table
    && e.seqs[2].cached == |table|
    && 3 in e.seqs && e.seqs[3] == Asked(Repeated, 0).(cached := 2, table := [0, 1], logits := x)
  }

  lemma SecondDecodes(m: Model, w: Whole, o: Past, p: Params, q: Params, seed: nat, x: Option<Logits>,
                      y: Option<Logits>)
    requires AfterSecond(m, w, o, p, q, seed, x, y)
    ensures Decodes(w.e, seed, [2], x) && |w.e.seqs[2].output| == 1
  {
    hide Fine, Balanced, Tree2;
    LoneBursting(Cfg, m, w, 2);
  }

  /** The same member is the batch again. */
  lemma AgainPicked(m: Model, w: Whole)
    requires w.batch == [2] && w.l.s.running == [2] && S.Live(w.l.s.table, 2)
    ensures Acts(Cfg, m, w, [NextBatch]) == w
  {
    hide S.FormBatch, S.DoStep, Acts;
    OneAct(m, w, NextBatch);
    RunsAgain(w.l.s, 2);
  }

  lemma TwoSteps(m: Model, w: Whole, seed: nat, x: Option<Logits>, y: Option<Logits>)
    requires Fine(Cfg, m, w) && w.batch == [2] && Decodes(w.e, seed, [2], x) && |w.e.seqs[2].output| == 1
    requires Pool(w.e.c, map[0 := 2, 1 := 2, 2 := 2], [], 3, Tree2(x, y), Order2())
    ensures var w' := Acts(Cfg, m, w, StepActs(2, true) + StepActs(2, false));
      && Fine(Cfg, m, w') && w'.l == w.l && w'.batch == [2] && Decodes(w'.e, seed, [2, 3, 4], x)
      && Full(w'.e.c, 5, x, y)
      && |w'.e.seqs[2].output| == 3 && w.e.seqs[2].output <= w'.e.seqs[2].output
  {
    hide Fine, Acts, Snug, Tree2, StepActs, Gives, BurstStep;
    GivesNext(w.e.c);
    StepRuns(m, w, 2, true, Bump(w.e.c), 3);
    var w1 := Acts(Cfg, m, w, StepActs(2, true));
    assert [2] + [3] == [2, 3];
    assert map[0 := 2, 1 := 2, 2 := 2][3 := 1] == map[0 := 2, 1 := 2, 2 := 2, 3 := 1];
    assert Full(w1.e.c, 4, x, y);
    GivesNext(w1.e.c);
    StepRuns(m, w1, 2, false, Bump(w1.e.c), 4);
    assert [2, 3] + [4] == [2, 3, 4];
    assert map[0 := 2, 1 := 2, 2 := 2, 3 := 1][4 := 1] == map[0 := 2, 1 := 2, 2 := 2, 3 := 1, 4 := 1];
    ActsJoin(Cfg, m, w, StepActs(2, true), StepActs(2, false));
  }

  /** The next burst step finds no page. */
  lemma MeetsNoPage(m: Model, e: State, seed: nat, x: Option<Logits>, y: Option<Logits>)
    requires Decodes(e, seed, [2, 3, 4], x) && Full(e.c, 5, x, y)
    ensures Wall(e, 2, false) && Apply(m, e, Step.Burst(2)) == e.(seqs := e.seqs[2 := e.seqs[2].(ready := false)])
  {
    hide Balanced, PageOf, SlotOf, Covers, Exhausted, DoBurst, Tree2;
    OneRowPages(3);
    NothingToEvict(e.c, x, y);
    BurstRefusedExactly(e, 2, false);
    BurstApplied(m, e, 2, false);
  }

  /** The rows and the tokens of [1] when its burst raises. */
  lemma RaisedContents(m: Model, e: State, seed: nat, x: Option<Logits>)
    requires Sound(m, e) && Decodes(e, seed, [2, 3, 4], x) && |e.seqs[2].output| == 3
    ensures var g := Reference(m, seed, Own, 3);
      e.seqs[2].output == g && Reads(e, 2, KV(m, Own + g[..2]))
  {
    hide PagePool.Inv, NodeOk, KV, ColdOk, Reference, Progress, Flat, PageOf, SlotOf, Pages;
    assert SeqOk(m, e.c, e.seqs[2]);
    var g := e.seqs[2].output;
    assert (Own + g)[..3] == Own + g[..2];
  }

  /** The burst has raised: a live request, an open queue, and no frame that tells. */
  ghost predicate AfterRaise(m: Model, w: Whole, o: Past, p: Params, q: Params, seed: nat, x: Option<Logits>,
                             y: Option<Logits>) {
    var g := Reference(m, seed, Own, 3);
    && Decodes(w.e, seed, [2, 3, 4], x) && Full(w.e.c, 5, x, y) && w.e.seqs[2].output == g[..2] && w.batch == [2]
    && Reads(w.e, 2, KV(m, Own + g[..2]))
    && w.l == Both(o, p, q, [3], [2], 3, g[..2], [L.Delta(g[..1])])
  }

  lemma RaiseRun(m: Model, w: Whole, o: Past, p: Params, q: Params, seed: nat, x: Option<Logits>, y: Option<Logits>)
    requires AfterSecond(m, w, o, p, q, seed, x, y)
    ensures AfterRaise(m, Acts(Cfg, m, w, RaisedActs()), o, p, q, seed, x, y)
  {
    hide Fine, Act1, Acts, Balanced, Sound, Apply, StepActs, Decodes, Tree2, Full, Reads, Reference, KV;
    SecondDecodes(m, w, o, p, q, seed, x, y);
    AgainPicked(m, w);
    TwoSteps(m, w, seed, x, y);
    var s1 := StepActs(2, true) + StepActs(2, false);
    assert [NextBatch] + StepActs(2, true) + StepActs(2, false) == [NextBatch] + s1;
    ActsJoin(Cfg, m, w, [NextBatch], s1);
    var w2 := Acts(Cfg, m, w, s1);
    FineBlock(Cfg, m, w2);
    MeetsNoPage(m, w2.e, seed, x, y);
    RaisedContents(m, w2.e, seed, x);
    Known(w2.e, seed, x);
    StepAct(m, w2, Step.Burst(2));
    var w3 := w2.(e := Apply(m, w2.e, Step.Burst(2)));
    OneAct(m, w2, RunStep(Step.Burst(2)));
    ActsJoin(Cfg, m, w, [NextBatch] + s1, [RunStep(Step.Burst(2))]);
    OneAct(m, w3, Raise(2, 1));
    ActsJoin(Cfg, m, w, [NextBatch] + s1 + [RunStep(Step.Burst(2))], [Raise(2, 1)]);
    FirstOf(m, seed, w.e.seqs[2].output, w2.e.seqs[2].output);
    RaiseTold(m, w2, w3, o, p, q, seed, x, y);
  }

  lemma Known(e: State, seed: nat, x: Option<Logits>)
    requires Decodes(e, seed, [2, 3, 4], x)
    ensures 2 in e.seqs
  {
    hide Balanced;
  }

  lemma FirstOf(m: Model, seed: nat, out: seq<Token>, g: seq<Token>)
    requires g == Reference(m, seed, Own, 3) && out <= g && |out| == 1
    ensures out == g[..1]
  {
  }

  lemma RaiseTold(m: Model, w2: Whole, w3: Whole, o: Past, p: Params, q: Params, seed: nat, x: Option<Logits>,
                  y: Option<Logits>)
    requires Decodes(w2.e, seed, [2, 3, 4], x) && Full(w2.e.c, 5, x, y) && w2.batch == [2]
    requires w3 == w2.(e := w2.e.(seqs := w2.e.seqs[2 := w2.e.seqs[2].(ready := false)]))
    requires var g := Reference(m, seed, Own, 3);
      && w2.e.seqs[2].output == g && Reads(w2.e, 2, KV(m, Own + g[..2]))
      && w2.l == Both(o, p, q, [3], [2], 2, g[..1], [L.Delta(g[..1])])
    ensures AfterRaise(m, Act1(Cfg, m, w3, Raise(2, 1)), o, p, q, seed, x, y)
  {
    hide Balanced, Reference, KV, Tree2, Flat, L.KeepOne, Covers;
    var g := Reference(m, seed, Own, 3);
    var w' := Act1(Cfg, m, w3, Raise(2, 1));
    var e' := Apply(m, w3.e, Lose(2, 1));
    assert w3.e.seqs[2].output[1..] == News(w3, 2);
    assert e' == w2.e.(seqs := w2.e.seqs[2 := w2.e.seqs[2].(ready := false, output := g[..2])]);
    SameTables(w2.e, e');
    assert News(w3.(e := e'), 2) == [g[1]];
    RaiseKept(o, p, q, g);
  }

  /** Only tables and counts matter for the balance. */
  lemma SameTables(e: State, e': State)
    requires Balanced(e) && 2 in e.seqs && 2 in e'.seqs && e' == e.(seqs := e.seqs[2 := e'.seqs[2]])
    requires e'.seqs[2].table == e.seqs[2].table
    ensures Balanced(e')
  {
    hide PagePool.Inv, Tables;
    InvGrid(e.c, Tables(e.seqs));
    SameTableInv(e, 2, e'.seqs[2], e.c.kv);
  }

  /** Unreported and unjudged: the loop keeps the first token of the pump. */
  lemma RaiseKept(o: Past, p: Params, q: Params, g: seq<Token>)
    requires |g| == 3
    ensures L.KeepOne(Both(o, p, q, [3], [2], 2, g[..1], [L.Delta(g[..1])]), 2, [g[1]])
         == Both(o, p, q, [3], [2], 3, g[..2], [L.Delta(g[..1])])
  {
    assert g[..1] + [g[1]] == g[..2];
  }

  /**
   The drain that raised: the request is live with a cached row whose token is lost, its delta
   queue is still registered, and nothing but its first token was ever put on it.
   */
  lemma QueueLeftOpen(m: Model, z: Row, p: Params, q: Params, seed: nat)
    requires Short(q) && Patient(p)
    ensures var u := Acts(Cfg, m, Begin(z), FirstActs(q) + SecondActs(p, q, seed) + RaisedActs());
      && Start(Begin(z)) && L.Busy(u.l) && Exhausted(u.e.c)
      && 20 in u.l.open && 20 in u.l.frames && u.l.frames[20] == [L.Delta(Reference(m, seed, Own, 3)[..1])]
      && !L.Closed(u.l.frames[20])
      && 2 in u.e.seqs && !u.e.seqs[2].finished && !InStep(u.e.seqs[2])
  {
    hide Acts, AfterFirst, AfterSecond, Decodes, Full, Reference, KV, Reads;
    BeginIsStart(z);
    var x, y := Played(m, z, p, q, seed);
    var u := Acts(Cfg, m, Begin(z), FirstActs(q) + SecondActs(p, q, seed) + RaisedActs());
    RaisedFacts(u.e, seed, x, y);
  }

  lemma RaisedFacts(e: State, seed: nat, x: Option<Logits>, y: Option<Logits>)
    requires Decodes(e, seed, [2, 3, 4], x) && Full(e.c, 5, x, y)
    ensures 2 in e.seqs && !e.seqs[2].finished && e.seqs[2].cached == 3 && e.seqs[2].prompt == Own && Exhausted(e.c)
  {
    hide Balanced, Covers, Exhausted, Tree2;
    NothingToEvict(e.c, x, y);
  }

  lemma Played(m: Model, z: Row, p: Params, q: Params, seed: nat) returns (x: Option<Logits>, y: Option<Logits>)
    requires Short(q) && Patient(p)
    ensures var w1 := Acts(Cfg, m, Begin(z), FirstActs(q));
      && 1 in w1.l.s.table && 10 in w1.l.frames && 1 in w1.l.gen
      && AfterRaise(m, Acts(Cfg, m, Begin(z), FirstActs(q) + SecondActs(p, q, seed) + RaisedActs()), PastOf(w1), p, q,
                    seed, x, y)
  {
    hide Fine, Acts, AfterSecond, AfterRaise, Tree1, FirstActs, SecondActs, RaisedActs;
    x := FirstRun(m, z, q);
    var w1 := Acts(Cfg, m, Begin(z), FirstActs(q));
    y := SecondRun(m, w1, p, q, seed, x);
    ActsJoin(Cfg, m, Begin(z), FirstActs(q), SecondActs(p, q, seed));
    RaiseRun(m, Acts(Cfg, m, w1, SecondActs(p, q, seed)), PastOf(w1), p, q, seed, x, y);
    ActsJoin(Cfg, m, Begin(z), FirstActs(q) + SecondActs(p, q, seed), RaisedActs());
  }

  // ---------------------------------------------------------------- the wrong answer

  /** The loop once the repeat is cancelled. */
  ghost function Alone(o: Past, p: Params, q: Params, out: seq<Token>, told: seq<L.Frame>): L.State {
    L.State(S.Sched(map[1 := o.r, 2 := S.Req(20, 1, 3, false, false), 3 := S.Req(30, 2, 2, true, true)],
                    [], [2], 4, map[20 := 2], [1, 2]),
            map[1 := o.g, 2 := L.Gen(20, Own, p, out), 3 := L.Gen(30, Repeated, q, [])], [], {30}, {20},
            map[10 := o.f, 20 := told, 30 := [L.Final(Cancelled, [])]], false)
  }

  lemma RepeatCancelled(o: Past, p: Params, q: Params, out: seq<Token>, told: seq<L.Frame>)
    ensures L.DoCancelReq(Both(o, p, q, [3], [2], 3, out, told), 30) == Alone(o, p, q, out, told)
  {
    var l := Both(o, p, q, [3], [2], 3, out, told);
    assert Without([3], 3) == [] && Without([2], 3) == [2] by { assert Without([], 3) == []; }
    assert [1] + [2] == [1, 2];
    var t := l.s.table[3 := S.Req(30, 2, 2, false, true)][3 := S.Req(30, 2, 2, true, true)];
    assert S.DoCancel(l.s, 30) == Alone(o, p, q, out, told).s;
    assert {} + {30} == {30} && {20, 30} - {30} == {20};
    assert [] + [L.Final(Cancelled, [])] == [L.Final(Cancelled, [])];
  }

  /** Cancelling the repeat gives its pages back to the tree alone. */
  lemma CancelRun(m: Model, w: Whole, o: Past, p: Params, q: Params, seed: nat, x: Option<Logits>, y: Option<Logits>)
    requires AfterRaise(m, w, o, p, q, seed, x, y)
    ensures var w', g := Act1(Cfg, m, w, Cancel(30)), Reference(m, seed, Own, 3);
      && w'.batch == [2] && w'.l == Alone(o, p, q, g[..2], [L.Delta(g[..1])]) && Snug(w'.e, 2)
      && w'.e.seqs[2] == w.e.seqs[2] && Reads(w'.e, 2, KV(m, Own + g[..2]))
      && Pool(w'.e.c, map[0 := 1, 1 := 1, 2 := 2, 3 := 1, 4 := 1], [], 5, Tree2(x, y), Order2())
  {
    hide Reference, KV, Reads, Full, DoFinish, L.DoCancelReq, Snug;
    var g := Reference(m, seed, Own, 3);
    RepeatCancelled(o, p, q, g[..2], [L.Delta(g[..1])]);
    RepeatWaits(w.e, seed, x);
    EndIs(m, w.e, 3, 0);
    RepeatFreed(m, w.e, seed, KV(m, Own + g[..2]), x, y);
  }

  lemma RepeatWaits(e: State, seed: nat, x: Option<Logits>)
    requires Decodes(e, seed, [2, 3, 4], x)
    ensures 3 in e.seqs && !e.seqs[3].finished && e.c.bs > 0
  {
  }

  lemma RepeatFreed(m: Model, e: State, seed: nat, rows: seq<Row>, x: Option<Logits>, y: Option<Logits>)
    requires Decodes(e, seed, [2, 3, 4], x) && Full(e.c, 5, x, y) && Reads(e, 2, rows)
    ensures var e' := DoFinish(e, 3, 0);
      && Snug(e', 2) && e'.seqs[2] == e.seqs[2] && Reads(e', 2, rows)
      && Pool(e'.c, map[0 := 1, 1 := 1, 2 := 2, 3 := 1, 4 := 1], [], 5, Tree2(x, y), Order2())
  {
    hide Balanced, Tree2, Flat, Release, Covers;
    EndIs(m, e, 3, 0);
    ApplyInv(m, e, Finish(3, 0));
    DropBoth(e.c);
    assert e.c.alloc[0 := 1][1 := 1] == map[0 := 1, 1 := 1, 2 := 2, 3 := 1, 4 := 1];
  }

  ghost function LastActs(): seq<Act> {
    [Cancel(30)] + [NextBatch] + StepActs(2, true) + StepActs(2, false) + [Report(2)]
  }

  /** The token after the rows of `h` and once more the last token of `h`. */
  ghost function Stale(m: Model, seed: nat, h: seq<Token>, last: Token, i: nat): Token {
    m.pick(m.out(KV(m, h) + [m.step(KV(m, h), last)]), seed, i)
  }

  /** The decode step from the stale token, on an evicted page. */
  lemma StaleStep(m: Model, w: Whole, seed: nat, g: seq<Token>, x: Option<Logits>, y: Option<Logits>)
    requires w.batch == [2] && Snug(w.e, 2) && |g| == 2 && Reads(w.e, 2, KV(m, Own + g))
    requires w.e.seqs[2].output == g && w.e.seqs[2].seed == seed
    requires Pool(w.e.c, map[0 := 1, 1 := 1, 2 := 2, 3 := 1, 4 := 1], [], 5, Tree2(x, y), Order2())
    ensures var w' := Acts(Cfg, m, w, StepActs(2, true));
      && w'.l == w.l && w'.batch == [2] && Snug(w'.e, 2) && w'.e.c.free == [0] && w'.e.c.bs == 1
      && w'.e.seqs[2].output == g + [Stale(m, seed, Own + g, g[1], 2)]
  {
    hide Fine, Acts, Tree2, StepActs, Gives, BurstStep, KV, Reads, Bursting, Balanced;
    EvictsRepeated(w.e.c, x, y);
    var c1 :| Gives(w.e.c, c1, 1) && c1.bs == 1 && |c1.kv| == 5 && c1.free == [0];
    StepRuns(m, w, 2, true, c1, 1);
    SnugIs(w.e, 2);
    StepTells(m, w.e, 2, true, KV(m, Own + g));
  }

  /** One more step on a free page. */
  lemma FreeStep(m: Model, w: Whole)
    requires w.batch == [2] && Snug(w.e, 2) && w.e.c.free == [0] && w.e.c.bs == 1
    ensures var w' := Acts(Cfg, m, w, StepActs(2, false));
      && w'.l == w.l && w'.batch == [2] && Snug(w'.e, 2)
      && |w'.e.seqs[2].output| == |w.e.seqs[2].output| + 1 && w.e.seqs[2].output <= w'.e.seqs[2].output
  {
    hide Fine, Acts, StepActs, Gives, BurstStep, Bursting, Balanced;
    GivesFree(w.e.c);
    SnugIs(w.e, 2);
    StepRuns(m, w, 2, false, Pop(w.e.c), 0);
  }

  /** Two more steps from the stale token. */
  lemma StaleSteps(m: Model, w: Whole, seed: nat, g: seq<Token>, x: Option<Logits>, y: Option<Logits>)
    requires w.batch == [2] && Snug(w.e, 2) && |g| == 2 && Reads(w.e, 2, KV(m, Own + g))
    requires w.e.seqs[2].output == g && w.e.seqs[2].seed == seed
    requires Pool(w.e.c, map[0 := 1, 1 := 1, 2 := 2, 3 := 1, 4 := 1], [], 5, Tree2(x, y), Order2())
    ensures var w' := Acts(Cfg, m, w, StepActs(2, true) + StepActs(2, false));
      && w'.l == w.l && w'.batch == [2] && Snug(w'.e, 2) && 2 in w'.e.seqs
      && |w'.e.seqs[2].output| == 4 && w'.e.seqs[2].output[..3] == g + [Stale(m, seed, Own + g, g[1], 2)]
  {
    hide Acts, Tree2, StepActs, KV, Reads, Bursting, Balanced, Stale, Pool;
    SnugIs(w.e, 2);
    StaleStep(m, w, seed, g, x, y);
    var w1 := Acts(Cfg, m, w, StepActs(2, true));
    SnugIs(w1.e, 2);
    FreeStep(m, w1);
    SnugIs(Acts(Cfg, m, w1, StepActs(2, false)).e, 2);
    ActsJoin(Cfg, m, w, StepActs(2, true), StepActs(2, false));
  }

  lemma SnugIs(e: State, id: nat)
    requires Snug(e, id)
    ensures Balanced(e) && Bursting(e, id) && id in e.seqs && e.seqs[id].output != []
  {
    hide Balanced;
  }

  /** The last report ends the request at its length. */
  lemma LastTold(o: Past, p: Params, q: Params, g: seq<Token>, out: seq<Token>)
    requires Patient(p) && |g| == 2 && |out| == 4 && g <= out
    ensures L.DeliverOne(Alone(o, p, q, g, [L.Delta(g[..1])]), 2, out[2..]).frames
         == map[10 := o.f, 20 := [L.Delta(g[..1]), L.Final(Length, out)], 30 := [L.Final(Cancelled, [])]]
  {
    hide S.DoFinish, S.DoAdvance;
    assert g + out[2..] == out;
    assert JudgeAll(p, out, out[2..]) == Stop(Length, out);
    assert [L.Delta(g[..1])] + [L.Final(Length, out)] == [L.Delta(g[..1]), L.Final(Length, out)];
  }

  lemma LastRun(m: Model, w: Whole, o: Past, p: Params, q: Params, seed: nat, x: Option<Logits>, y: Option<Logits>)
    returns (out: seq<Token>)
    requires Patient(p) && AfterRaise(m, w, o, p, q, seed, x, y)
    ensures var u, g := Acts(Cfg, m, w, LastActs()), Reference(m, seed, Own, 3);
      && u.l.frames == map[10 := o.f, 20 := [L.Delta(g[..1]), L.Final(Length, out)], 30 := [L.Final(Cancelled, [])]]
      && |out| == 4 && out[..3] == g[..2] + [Stale(m, seed, Own + g[..2], g[1], 2)]
  {
    hide Fine, Act1, Acts, Snug, StepActs, Tree2, KV, Reads, Reference, L.DeliverOne, Decodes, Full;
    var g := Reference(m, seed, Own, 3);
    var s1 := StepActs(2, true) + StepActs(2, false);
    CancelRun(m, w, o, p, q, seed, x, y);
    SameSeed(w.e, seed, x);
    OneAct(m, w, Cancel(30));
    var w1 := Act1(Cfg, m, w, Cancel(30));
    AgainPicked(m, w1);
    StaleSteps(m, w1, seed, g[..2], x, y);
    var w2 := Acts(Cfg, m, w1, s1);
    out := w2.e.seqs[2].output;
    assert [Cancel(30)] + [NextBatch] + StepActs(2, true) + StepActs(2, false) == [Cancel(30)] + [NextBatch] + s1;
    ActsJoin(Cfg, m, w, [Cancel(30)], [NextBatch]);
    ActsJoin(Cfg, m, w, [Cancel(30)] + [NextBatch], s1);
    ActsJoin(Cfg, m, w, [Cancel(30)] + [NextBatch] + s1, [Report(2)]);
    OneAct(m, w2, Report(2));
    assert out[..3][..2] == out[..2] && out[..2] == g[..2];
    assert g[..2][..1] == g[..1];
    ReportLast(m, w2, o, p, q, g[..2], out);
  }

  lemma SameSeed(e: State, seed: nat, x: Option<Logits>)
    requires Decodes(e, seed, [2, 3, 4], x)
    ensures 2 in e.seqs && e.seqs[2].seed == seed
  {
    hide Balanced;
  }

  lemma ReportLast(m: Model, w: Whole, o: Past, p: Params, q: Params, g: seq<Token>, out: seq<Token>)
    requires |g| == 2 && g <= out && |out| == 4 && w.l == Alone(o, p, q, g, [L.Delta(g[..1])])
    requires Patient(p) && Snug(w.e, 2)
    requires 2 in w.e.seqs && w.e.seqs[2].output == out
    ensures Act1(Cfg, m, w, Report(2)).l.frames
         == map[10 := o.f, 20 := [L.Delta(g[..1]), L.Final(Length, out)], 30 := [L.Final(Cancelled, [])]]
  {
    hide L.DeliverOne, Balanced, Covers;
    LastTold(o, p, q, g, out);
    assert News(w, 2) == out[2..];
  }

  /**
   The wrong answer: after the burst that raised, a cancel and another pump, the client of [1]
   receives a `length` answer of four tokens whose third was computed after a stale token.  It
   is the reference generation only if the model happens to give the same token there.
   */
  lemma WrongLengthAnswer(m: Model, z: Row, p: Params, q: Params, seed: nat) returns (out: seq<Token>)
    requires Short(q) && Patient(p)
    ensures var u := Acts(Cfg, m, Begin(z), FirstActs(q) + SecondActs(p, q, seed) + RaisedActs() + LastActs());
      var g := Reference(m, seed, Own, 3);
      && 20 in u.l.frames && u.l.frames[20] == [L.Delta(g[..1]), L.Final(Length, out)]
      && |out| == 4 && out[2] == Stale(m, seed, Own + g[..2], g[1], 2)
      && (Stale(m, seed, Own + g[..2], g[1], 2) != g[2] ==> out != Reference(m, seed, Own, 4))
  {
    hide Acts, AfterRaise, FirstActs, SecondActs, RaisedActs, LastActs, KV, Stale;
    var x, y := Played(m, z, p, q, seed);
    var acts := FirstActs(q) + SecondActs(p, q, seed) + RaisedActs();
    var w1 := Acts(Cfg, m, Begin(z), FirstActs(q));
    out := LastRun(m, Acts(Cfg, m, Begin(z), acts), PastOf(w1), p, q, seed, x, y);
    ActsJoin(Cfg, m, Begin(z), acts, LastActs());
    assert out[..3][2] == out[2];
    var g := Reference(m, seed, Own, 3);
    assert Reference(m, seed, Own, 4)[2] == g[2];
  }
}
