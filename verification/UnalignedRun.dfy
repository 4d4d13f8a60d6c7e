/**
 A run of three requests, prompts [1], [1, 2] and [1, 3] on pages of two rows, whose last two
 hits are unaligned: the third request overwrites the row the tree holds for [1, 2].
 */
module UnalignedRun {
  import opened Prelude
  import opened Paging
  import opened Ledger
  import opened PagePool
  import opened Allocator
  import opened PrefixTree
  import opened Generation
  import opened Engine

  ghost function Root(): Node { Node(0, [], None) }

  ghost function Row1(m: Model): Row { m.step([], 1) }

  ghost function Row2(m: Model, t: Token): Row { m.step([Row1(m)], t) }

  ghost function Out1(m: Model): Logits { m.out([Row1(m)]) }

  ghost function Out2(m: Model, t: Token): Logits { m.out([Row1(m), Row2(m, t)]) }

  /** Cache with one page of two rows. */
  ghost function Cache1(z: Row, rc: int, page: seq<Row>, tree: map<Path, Node>, order: seq<Path>): Cache {
    Cache(2, z, map[0 := rc], [], 1, [page], tree, order)
  }

  ghost function Start(z: Row): State {
    State(Cache(2, z, map[], [], 0, [[z, z]], map[[] := Root()], [[]]), map[])
  }

  ghost function Asked(prompt: seq<Token>, cached: nat, table: seq<nat>, logits: Option<Logits>, ready: bool): Seq {
    Seq(prompt, 0, [], cached, table, logits, ready, false, false, None, false, false)
  }

  ghost function Filled(m: Model, prompt: seq<Token>, logits: Logits): Seq {
    Seq(prompt, 0, [], |prompt|, [0], Some(logits), false, false, false, Some(m.pick(logits, 0, 0)), true, false)
  }

  ghost function Tree1(m: Model, refs: nat): map<Path, Node> {
    map[[] := Root(), [1] := Node(refs, [0], Some(Out1(m)))]
  }

  ghost function Tree2(m: Model): map<Path, Node> {
    map[[] := Root(), [1] := Node(2, [0], Some(Out1(m))), [1, 2] := Node(1, [0], Some(Out2(m, 2)))]
  }

  lemma PageFacts()
    ensures PageOf(0, 2) == 0 && PageOf(1, 2) == 0 && SlotOf(0, 2) == 0 && SlotOf(1, 2) == 1
    ensures Pages(0, 2) == 0 && Pages(1, 2) == 1 && Pages(2, 2) == 1
  {
  }

  lemma FirstForward(m: Model, z: Row)
    ensures var e1 := Apply(m, Start(z), Admit(0, [1], 0));
      var e2 := Apply(m, e1, Prepare(0));
      e2 == State(Cache1(z, 1, [z, z], map[[] := Root()], [[]]), map[0 := Asked([1], 0, [0], None, true)])
  {
    PageFacts();
    var e0 := Start(z);
    assert [1][..0 + 1] == [1];
    assert Walk(e0.c.tree, [1]) == 0;
    var e1 := Apply(m, e0, Admit(0, [1], 0));
    assert e1 == State(e0.c, map[0 := Asked([1], 0, [], None, false)]);
    var c2 := Bump(e0.c);
    assert AllocLoop(c2, [] + [0], 1) == Got(c2, [0]);
    assert AllocBlocks(e0.c, 1) == Got(c2, [0]);
    assert Ensure(c2, [] + [0], 1) == (true, c2, [0]);
    assert Ensure(e0.c, [], 1) == (true, c2, [0]);
  }

  /** A forward over the single token `t` at position `n` of a page that holds `r` before it. */
  lemma OneRow(m: Model, page: seq<Row>, n: nat, t: Token)
    requires n <= 1 && |page| == 2
    ensures Covers([page], [0], 2, n) && Covers([page], [0], 2, n + 1)
    ensures Flat([page], [0], 2, n) == page[..n]
    ensures Extend(m, page[..n], [t]) == [m.step(page[..n], t)]
    ensures var x := m.step(page[..n], t); Write([page], [0], 2, n, [x]) == [page[n := x]]
  {
    PageFacts();
    var x := m.step(page[..n], t);
    assert [t][..0] == [] && [x][..0] == [];
    assert Extend(m, page[..n], []) == [];
    assert page[..n] + [] == page[..n];
    assert Write([page], [0], 2, n, []) == [page];
  }

  lemma FirstFill(m: Model, z: Row)
    ensures var e2 := State(Cache1(z, 1, [z, z], map[[] := Root()], [[]]), map[0 := Asked([1], 0, [0], None, true)]);
      Apply(m, e2, Forward(0))
      == State(Cache1(z, 1, [Row1(m), z], map[[] := Root()], [[]]), map[0 := Filled(m, [1], Out1(m))])
  {
    PageFacts();
    OneRow(m, [z, z], 0, 1);
    assert [z, z][..0] == [] && [1][0..] == [1];
    assert [] + [Row1(m)] == [Row1(m)];
    assert [z, z][0 := Row1(m)] == [Row1(m), z];
  }

  /** Request 0, prompt [1]: its page enters the tree. */
  lemma FirstRequest(m: Model, z: Row)
    ensures var e2 := Apply(m, Apply(m, Start(z), Admit(0, [1], 0)), Prepare(0));
      var e4 := Apply(m, Apply(m, e2, Forward(0)), Deliver(0));
      var e5 := Apply(m, e4, Finish(0, 1));
      && e5.c == Cache1(z, 1, [Row1(m), z], Tree1(m, 1), [[], [1]])
      && e5.seqs.Keys == {0}
  {
    FirstForward(m, z);
    FirstFill(m, z);
    var c3 := Cache1(z, 1, [Row1(m), z], map[[] := Root()], [[]]);
    FirstInsert(m, c3, z);
    FirstDone(m, State(c3, map[0 := Filled(m, [1], Out1(m))]), z);
  }

  lemma FirstDone(m: Model, e3: State, z: Row)
    requires e3.c.bs > 0 && e3.seqs == map[0 := Filled(m, [1], Out1(m))]
    requires Insert(e3.c, [1], [0], Some(Out1(m))) == Cache1(z, 2, [Row1(m), z], Tree1(m, 1), [[], [1]])
    ensures var e5 := Apply(m, Apply(m, e3, Deliver(0)), Finish(0, 1));
      && e5.c == Cache1(z, 1, [Row1(m), z], Tree1(m, 1), [[], [1]])
      && e5.seqs.Keys == {0}
  {
    hide Insert;
    var c4 := Cache1(z, 2, [Row1(m), z], Tree1(m, 1), [[], [1]]);
    var e4 := Apply(m, e3, Deliver(0));
    assert e4.c == c4 && e4.seqs[0].table == [0];
    assert [0][..0] == [] && Release(c4, []) == c4;
    assert Release(c4, [0]) == ReleaseOne(c4, 0);
    assert c4.alloc[0 := 1] == map[0 := 1];
  }

  lemma FirstInsert(m: Model, c: Cache, z: Row)
    requires c == Cache1(z, 1, [Row1(m), z], map[[] := Root()], [[]])
    ensures Insert(c, [1], [0], Some(Out1(m))) == Cache1(z, 2, [Row1(m), z], Tree1(m, 1), [[], [1]])
  {
    var p: Path := [1];
    assert p[..1] == [1] && p[..0] == [];
    var c1 := TouchPath(c, p, 1);
    assert TouchPath(c, p, 0) == c;
    assert ChildSlot([[]], []) == 1;
    assert AddChild([[]], [], [1]) == [[], [1]];
    assert c1 == c.(tree := map[[] := Root(), [1] := Node(1, [], None)], order := [[], [1]]);
    assert Release(c1, []) == c1;
    var c2 := Fork(c1, [0]);
    assert c2.alloc == map[0 := 2];
    assert c2.tree[[1] := Node(1, [0], Some(Out1(m)))] == Tree1(m, 1);
  }

  lemma SuffixAdmit(m: Model, z: Row, e: State, rc: nat, x: Row, id: nat, t: Token)
    requires e.c == Cache1(z, rc, [Row1(m), x], e.c.tree, e.c.order) && id !in e.seqs
    requires [1] in e.c.tree && e.c.tree[[1]].blocks == [0] && e.c.tree[[1]].logits == Some(Out1(m))
    requires [1, t] !in e.c.tree
    ensures Apply(m, e, Admit(id, [1, t], 0))
         == State(Cache1(z, rc + 1, [Row1(m), x], e.c.tree, e.c.order),
                  e.seqs[id := Asked([1, t], 1, [0], Some(Out1(m)), false)])
  {
    PageFacts();
    var p: Path := [1, t];
    assert p[..1] == [1] && p[..2] == [1, t];
    assert WalkFrom(e.c.tree, p, 1) == 1;
    assert Walk(e.c.tree, p) == 1;
    assert [0][..1] == [0];
    assert Lookup(e.c, p) == Hit(1, [0], Some(Out1(m)));
    assert Fork(e.c, [0]).alloc == map[0 := rc + 1];
  }

  /** A request for [1, t] hits [1], does not copy its page, and writes the second row. */
  lemma SuffixRequest(m: Model, z: Row, e: State, rc: nat, x: Row, id: nat, t: Token)
    requires e.c == Cache1(z, rc, [Row1(m), x], e.c.tree, e.c.order) && id !in e.seqs
    requires [1] in e.c.tree && e.c.tree[[1]].blocks == [0] && e.c.tree[[1]].logits == Some(Out1(m))
    requires [1, t] !in e.c.tree
    ensures var e3 := Apply(m, Apply(m, Apply(m, e, Admit(id, [1, t], 0)), Prepare(id)), Forward(id));
      e3 == State(Cache1(z, rc + 1, [Row1(m), Row2(m, t)], e.c.tree, e.c.order),
                  e.seqs[id := Filled(m, [1, t], Out2(m, t))])
  {
    hide Apply;
    SuffixAdmit(m, z, e, rc, x, id, t);
    SuffixForward(m, z, Apply(m, e, Admit(id, [1, t], 0)), rc + 1, x, id, t);
    var seqs := e.seqs[id := Asked([1, t], 1, [0], Some(Out1(m)), false)];
    assert seqs[id := Filled(m, [1, t], Out2(m, t))] == e.seqs[id := Filled(m, [1, t], Out2(m, t))];
  }

  /** The rest of the request: no copy of the page it hit, and a write behind its row. */
  lemma SuffixForward(m: Model, z: Row, e1: State, rc: nat, x: Row, id: nat, t: Token)
    requires e1.c == Cache1(z, rc, [Row1(m), x], e1.c.tree, e1.c.order)
    requires id in e1.seqs && e1.seqs[id] == Asked([1, t], 1, [0], Some(Out1(m)), false)
    ensures Apply(m, Apply(m, e1, Prepare(id)), Forward(id))
         == State(Cache1(z, rc, [Row1(m), Row2(m, t)], e1.c.tree, e1.c.order),
                  e1.seqs[id := Filled(m, [1, t], Out2(m, t))])
  {
    PageFacts();
    var e2 := Apply(m, e1, Prepare(id));
    assert Ensure(e1.c, [0], 1) == (true, e1.c, [0]);
    assert e2 == State(e1.c, e1.seqs[id := Asked([1, t], 1, [0], Some(Out1(m)), true)]);
    OneRow(m, [Row1(m), x], 1, t);
    assert [Row1(m), x][..1] == [Row1(m)] && [1, t][1..] == [t];
    assert [Row1(m)] + [Row2(m, t)] == [Row1(m), Row2(m, t)];
    assert [Row1(m), x][1 := Row2(m, t)] == [Row1(m), Row2(m, t)];
  }

  lemma SecondInsert(m: Model, z: Row)
    ensures var c := Cache1(z, 2, [Row1(m), Row2(m, 2)], Tree1(m, 1), [[], [1]]);
      Insert(c, [1, 2], [0], Some(Out2(m, 2)))
      == Cache1(z, 3, [Row1(m), Row2(m, 2)], Tree2(m), [[], [1], [1, 2]])
  {
    var c := Cache1(z, 2, [Row1(m), Row2(m, 2)], Tree1(m, 1), [[], [1]]);
    var p: Path := [1, 2];
    assert p[..0] == [] && p[..1] == [1] && p[..2] == p;
    assert TouchPath(c, p, 0) == c;
    var c1 := c.(tree := Tree1(m, 2));
    assert Tree1(m, 1)[[1] := Node(2, [0], Some(Out1(m)))] == Tree1(m, 2);
    assert TouchPath(c, p, 1) == c1;
    assert ChildSlot([[], [1]], [1]) == 2;
    assert AddChild([[], [1]], [1], p) == [[], [1], p];
    var c2 := TouchPath(c, p, 2);
    assert c2 == c1.(tree := Tree1(m, 2)[p := Node(1, [], None)], order := [[], [1], p]);
    assert Release(c2, []) == c2;
    assert Fork(c2, [0]).alloc == map[0 := 3];
    assert c2.tree[p := Node(1, [0], Some(Out2(m, 2)))] == Tree2(m);
  }

  /**
   After the three requests the tree still offers [1, 2] as an exact hit, but its second row is
   the row of [1, 3].
   */
  lemma UnalignedHitClobbers(m: Model, z: Row)
    requires Row2(m, 2) != Row2(m, 3)
    ensures var e2 := Apply(m, Apply(m, Start(z), Admit(0, [1], 0)), Prepare(0));
      var e5 := Apply(m, Apply(m, Apply(m, e2, Forward(0)), Deliver(0)), Finish(0, 1));
      var e8 := Apply(m, Apply(m, Apply(m, e5, Admit(1, [1, 2], 0)), Prepare(1)), Forward(1));
      var e9 := Apply(m, e8, Deliver(1));
      var e := Apply(m, Apply(m, Apply(m, e9, Admit(2, [1, 3], 0)), Prepare(2)), Forward(2));
      && e.c.bs == 2 && Lookup(e.c, [1, 2]) == Hit(2, [0], Some(m.out(KV(m, [1, 2]))))
      && Covers(e.c.kv, [0], 2, 2) && Flat(e.c.kv, [0], 2, 2) != KV(m, [1, 2])
      && Flat(e.c.kv, [0], 2, 2) == KV(m, [1, 3])
  {
    hide Apply;
    FirstRequest(m, z);
    var e2 := Apply(m, Apply(m, Start(z), Admit(0, [1], 0)), Prepare(0));
    var e5 := Apply(m, Apply(m, Apply(m, e2, Forward(0)), Deliver(0)), Finish(0, 1));
    SuffixRequest(m, z, e5, 1, z, 1, 2);
    var e8 := Apply(m, Apply(m, Apply(m, e5, Admit(1, [1, 2], 0)), Prepare(1)), Forward(1));
    SecondInsert(m, z);
    DeliverSecond(m, e8);
    var e9 := Apply(m, e8, Deliver(1));
    SuffixRequest(m, z, e9, 3, Row2(m, 2), 2, 3);
    var e := Apply(m, Apply(m, Apply(m, e9, Admit(2, [1, 3], 0)), Prepare(2)), Forward(2));
    assert e.c == Cache1(z, 4, [Row1(m), Row2(m, 3)], Tree2(m), [[], [1], [1, 2]]);
    StoredRows(m, e.c, 4, 3);
  }

  lemma DeliverSecond(m: Model, e: State)
    requires e.c.bs > 0 && 1 in e.seqs && e.seqs[1] == Filled(m, [1, 2], Out2(m, 2)) && 2 !in e.seqs
    ensures Apply(m, e, Deliver(1)).c == Insert(e.c, [1, 2], [0], Some(Out2(m, 2)))
    ensures 2 !in Apply(m, e, Deliver(1)).seqs
    ensures 1 in Apply(m, e, Deliver(1)).seqs
    ensures !Apply(m, e, Deliver(1)).seqs[1].finished && Apply(m, e, Deliver(1)).seqs[1].table == [0]
  {
  }

  lemma KVTwo(m: Model, t: Token)
    ensures KV(m, [1, t]) == [Row1(m), Row2(m, t)]
  {
    assert [1, t][..1] == [1] && [1][..0] == [];
    assert KV(m, []) == [];
    assert KV(m, [1]) == [Row1(m)];
  }

  /** What an exact hit on [1, 2] finds when the page holds the rows of [1, t]. */
  lemma StoredRows(m: Model, c: Cache, rc: int, t: Token)
    requires c == Cache1(c.zero, rc, [Row1(m), Row2(m, t)], Tree2(m), [[], [1], [1, 2]])
    ensures Lookup(c, [1, 2]) == Hit(2, [0], Some(m.out(KV(m, [1, 2]))))
    ensures Covers(c.kv, [0], 2, 2) && Flat(c.kv, [0], 2, 2) == KV(m, [1, t])
    ensures KV(m, [1, 2]) == [Row1(m), Row2(m, 2)] && KV(m, [1, t]) == [Row1(m), Row2(m, t)]
  {
    PageFacts();
    KVTwo(m, 2);
    KVTwo(m, t);
    var p: Path := [1, 2];
    assert p[..1] == [1] && p[..2] == p;
    assert WalkFrom(c.tree, p, 2) == 2;
    assert WalkFrom(c.tree, p, 1) == 2;
    assert Walk(c.tree, p) == 2;
    assert [0][..1] == [0];
    assert Flat(c.kv, [0], 2, 2) == [Row1(m), Row2(m, t)];
  }

  // ---------------------------------------------------------------- a burst on a shared page

  /** Cache after [1] and [1, 2] are stored and their requests are done. */
  ghost function Stored(m: Model, z: Row, rc: int, t: Token): Cache {
    Cache1(z, rc, [Row1(m), Row2(m, t)], Tree2(m), [[], [1], [1, 2]])
  }

  /** A repeated prompt [1] at its first token. */
  ghost function Repeated(output: seq<Token>, cached: nat, m: Model, ready: bool, warm: bool,
                          pending: Option<Token>): Seq {
    Seq([1], 0, output, cached, [0], Some(Out1(m)), ready, warm, ready, pending, false, false)
  }

  lemma RepeatAdmit(m: Model, z: Row, e: State, id: nat)
    requires e.c == Stored(m, z, 2, 2) && id !in e.seqs
    ensures Apply(m, e, Admit(id, [1], 0)) == State(Stored(m, z, 3, 2),
                                                    e.seqs[id := Repeated([], 1, m, false, false, None)])
  {
    PageFacts();
    var p: Path := [1];
    assert p[..1] == [1];
    assert WalkFrom(e.c.tree, p, 1) == 1;
    assert Walk(e.c.tree, p) == 1;
    assert [0][..1] == [0];
    assert Lookup(e.c, p) == Hit(1, [0], Some(Out1(m)));
    assert Fork(e.c, [0]).alloc == map[0 := 3];
  }

  /** First token from the stored logits, then a burst step on the shared page. */
  lemma RepeatBurst(m: Model, z: Row, e: State, id: nat)
    requires id in e.seqs && e.c == Stored(m, z, 3, 2) && e.seqs[id] == Repeated([], 1, m, false, false, None)
    ensures var tok := m.pick(Out1(m), 0, 0);
      var e1 := Apply(m, Apply(m, e, Forward(id)), Deliver(id));
      Apply(m, Apply(m, e1, Burst(id)), Forward(id)).c == Stored(m, z, 3, tok)
  {
    PageFacts();
    var tok := m.pick(Out1(m), 0, 0);
    var e1 := Apply(m, Apply(m, e, Forward(id)), Deliver(id));
    assert [] + [tok] == [tok];
    assert e1 == State(e.c, e.seqs[id := Repeated([tok], 1, m, false, false, None)]);
    var e2 := Apply(m, e1, Burst(id));
    assert e2 == State(e.c, e.seqs[id := Repeated([tok], 1, m, true, false, None)]);
    var page := [Row1(m), Row2(m, 2)];
    OneRow(m, page, 1, tok);
    assert page[..1] == [Row1(m)];
    assert page[1 := Row2(m, tok)] == [Row1(m), Row2(m, tok)];
  }

  lemma SecondDone(m: Model, z: Row, e: State)
    requires e.c == Stored(m, z, 3, 2) && 1 in e.seqs && !e.seqs[1].finished && e.seqs[1].table == [0]
    ensures Apply(m, e, Finish(1, 1)).c == Stored(m, z, 2, 2)
    ensures 2 !in e.seqs ==> 2 !in Apply(m, e, Finish(1, 1)).seqs
  {
    assert [0][..0] == [] && Release(e.c, []) == e.c;
    assert Release(e.c, [0]) == ReleaseOne(e.c, 0);
    assert e.c.alloc[0 := 2] == map[0 := 2];
  }

  /**
   Prompts [1] and [1, 2] are stored on one page.  A repeated [1] takes its first token from the
   stored logits and bursts: it writes its own second row over the one the tree holds for [1, 2].
   */
  lemma ColdBurstClobbers(m: Model, z: Row)
    requires Row2(m, m.pick(Out1(m), 0, 0)) != Row2(m, 2)
    ensures var e2 := Apply(m, Apply(m, Start(z), Admit(0, [1], 0)), Prepare(0));
      var e5 := Apply(m, Apply(m, Apply(m, e2, Forward(0)), Deliver(0)), Finish(0, 1));
      var e8 := Apply(m, Apply(m, Apply(m, e5, Admit(1, [1, 2], 0)), Prepare(1)), Forward(1));
      var e10 := Apply(m, Apply(m, e8, Deliver(1)), Finish(1, 1));
      var e13 := Apply(m, Apply(m, Apply(m, e10, Admit(2, [1], 0)), Forward(2)), Deliver(2));
      var e := Apply(m, Apply(m, e13, Burst(2)), Forward(2));
      && e.c.bs == 2 && Lookup(e.c, [1, 2]) == Hit(2, [0], Some(m.out(KV(m, [1, 2]))))
      && Covers(e.c.kv, [0], 2, 2) && Flat(e.c.kv, [0], 2, 2) != KV(m, [1, 2])
  {
    hide Apply;
    FirstRequest(m, z);
    var e2 := Apply(m, Apply(m, Start(z), Admit(0, [1], 0)), Prepare(0));
    var e5 := Apply(m, Apply(m, Apply(m, e2, Forward(0)), Deliver(0)), Finish(0, 1));
    SuffixRequest(m, z, e5, 1, z, 1, 2);
    var e8 := Apply(m, Apply(m, Apply(m, e5, Admit(1, [1, 2], 0)), Prepare(1)), Forward(1));
    SecondInsert(m, z);
    DeliverSecond(m, e8);
    SecondDone(m, z, Apply(m, e8, Deliver(1)));
    var e10 := Apply(m, Apply(m, e8, Deliver(1)), Finish(1, 1));
    RepeatAdmit(m, z, e10, 2);
    RepeatBurst(m, z, Apply(m, e10, Admit(2, [1], 0)), 2);
    var e13 := Apply(m, Apply(m, Apply(m, e10, Admit(2, [1], 0)), Forward(2)), Deliver(2));
    StoredRows(m, Apply(m, Apply(m, e13, Burst(2)), Forward(2)).c, 3, m.pick(Out1(m), 0, 0));
  }
}
